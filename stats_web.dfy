/**
 * The statistics worker: stores the uploaded document in its snapshot and
 * serves it back stamped with the time of the read.
 */
module StatsWeb {
  import opened Wrappers
  import Misc
  import opened Health
  import opened StatsModels

  /** `_load`: `IOError` without a snapshot, `ValidationError` for a document that does not parse. */
  function LoadFrom(disk: Option<Json>): (r: Result<TwoPeriods, LoadError>)
    ensures r == Err(IOError) <==> disk.None?
    ensures disk.Some? ==> (r.Ok? <==> ParseTwo(disk.value).Some?)
    ensures disk.Some? && r.Err? ==> r.error == ValidationError
    ensures r.Ok? ==> ParseTwo(disk.value) == Some(r.value)
  {
    if disk.None? then Err(IOError)
    else
      match ParseTwo(disk.value)
      case Some(x) => Ok(x)
      case None => Err(ValidationError)
  }

  function TimestampOf(loaded: Result<TwoPeriods, LoadError>): Result<int, LoadError>
  {
    match loaded
    case Ok(x) => Ok(x.timestamp)
    case Err(e) => Err(e)
  }

  class BobStats {
    const health: Health
    /** The snapshot file: `None` while nothing was written. */
    var stored: Option<Json>

    function Loaded(): Result<TwoPeriods, LoadError>
      reads this
    {
      LoadFrom(stored)
    }

    /** The worker seeds its health from the snapshot and registers itself. */
    constructor (disk: Option<Json>, registry: HealthRegistry)
      modifies registry
      ensures stored == disk
      ensures fresh(health) && health.name == "BobStats"
      ensures health.status == (if LoadFrom(disk).Ok? then Success else Error)
      ensures health.dataTimestamp == (if LoadFrom(disk).Ok? then Some(LoadFrom(disk).value.timestamp) else None)
      ensures health.lastSuccessTimestamp == 0 && health.lastErrorTimestamp == 0
      ensures registry.items == old(registry.items) + [SingleWorker(health)]
    {
      stored := disk;
      health := new Health.Initialize(Misc.NameOf(None, "BobStats"), TimestampOf(LoadFrom(disk)));
      new;
      registry.Append(SingleWorker(health));
    }

    /** `store(data)`: the document is dumped, then success is recorded at `now`. */
    method Store(data: TwoPeriods, now: int)
      modifies this, health
      ensures stored == Some(DumpTwo(data)) && Loaded() == Ok(data)
      ensures health.status == Success && health.dataTimestamp == Some(data.timestamp)
      ensures health.lastSuccessTimestamp == now && health.lastErrorTimestamp == old(health.lastErrorTimestamp)
    {
      stored := Some(DumpTwo(data));
      RoundTrip(data);
      health.RecordSuccess(data.timestamp, true, now);
    }

    /**
     * `load()`: the stored document with its top-level timestamp replaced by
     * the read time, or the empty response when nothing valid is stored.
     */
    method Load(readTime: int) returns (r: TwoPeriods)
      ensures r.timestamp == readTime
      ensures Loaded().Ok? ==> r.current == Loaded().value.current && r.previous == Loaded().value.previous
      ensures Loaded().Err? ==> r == EmptyResponse(readTime)
    {
      var empty := EmptyResponse(readTime);
      if stored.None? {
        return empty;
      }
      var parsed := ParseTwo(stored.value);
      if parsed.None? {
        return empty;
      }
      r := parsed.value.(timestamp := readTime);
    }
  }
}
