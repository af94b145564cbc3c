/**
 * Per-worker health records and the process-wide registry that publishes
 * them. A worker owns one `Health` object; the registry keeps the workers in
 * registration order and renders all of them against one clock reading.
 */
module Health {
  import opened Wrappers

  datatype Status = Success | Error

  /** The exceptions a worker's `_load` may raise while seeding its health. */
  datatype LoadError = IOError | ValidationError | HealthException

  /**
   * The text `format_timestamp(ts)` produces ("%Y-%m-%d %H:%M:%S UTC"),
   * kept abstract: it is determined by the epoch seconds it renders.
   */
  datatype Datetime = UtcDatetime(epochSeconds: int)

  /** One worker's entry in the published health document. */
  datatype WorkerHealthOut = WorkerHealthOut(
    status: Status,
    lastSuccessTimestamp: int,
    lastErrorTimestamp: int,
    dataTimestamp: Option<int>,
    lastSuccessDatetime: Datetime,
    secondsSinceLastSuccess: int,
    lastErrorDatetime: Datetime,
    secondsSinceLastError: int)

  /** A module entry: one record, or one record per chain for grouped workers. */
  datatype ModuleHealth =
    | Single(record: WorkerHealthOut)
    | Grouped(records: map<string, WorkerHealthOut>)

  datatype HealthOut = HealthOut(currentDatetime: Datetime, modules: map<string, ModuleHealth>)

  /** The `_load` every worker inherits: it always raises `HealthException`. */
  function BaseLoad(): Result<int, LoadError> { Err(HealthException) }

  class Health {
    const name: string
    var status: Status
    var lastSuccessTimestamp: int
    var lastErrorTimestamp: int
    var dataTimestamp: Option<int>

    /**
     * `initialize_healthdata`: start in error with both timestamps zero;
     * if the worker's `_load` (its outcome reduced to the data's timestamp)
     * succeeded, record that success without advancing the success clock.
     */
    constructor Initialize(name: string, loaded: Result<int, LoadError>)
      ensures this.name == name
      ensures loaded.Ok? ==> status == Success && dataTimestamp == Some(loaded.value)
      ensures loaded.Err? ==> status == Error && dataTimestamp == None
      ensures lastSuccessTimestamp == 0 && lastErrorTimestamp == 0
    {
      this.name := name;
      status := Error;
      lastSuccessTimestamp := 0;
      lastErrorTimestamp := 0;
      dataTimestamp := None;
      new;
      if loaded.Ok? {
        RecordSuccess(loaded.value, false, 0);
      }
    }

    /** `record_sucess(data_ts, record_curtime)`, with the clock reading `now`. */
    method RecordSuccess(dataTs: int, recordCurtime: bool, now: int)
      modifies this
      ensures status == Success && dataTimestamp == Some(dataTs)
      ensures lastSuccessTimestamp == if recordCurtime then now else old(lastSuccessTimestamp)
      ensures lastErrorTimestamp == old(lastErrorTimestamp)
    {
      status := Success;
      dataTimestamp := Some(dataTs);
      if recordCurtime {
        lastSuccessTimestamp := now;
      }
    }

    /** `record_error()`, with the clock reading `now`. */
    method RecordError(now: int)
      modifies this
      ensures status == Error && lastErrorTimestamp == now
      ensures lastSuccessTimestamp == old(lastSuccessTimestamp)
      ensures dataTimestamp == old(dataTimestamp)
    {
      status := Error;
      lastErrorTimestamp := now;
    }

    /** `healthdata_for_publishing(curtime)`. */
    function ForPublishing(curtime: int): (r: WorkerHealthOut)
      reads this
      ensures r.status == status && r.dataTimestamp == dataTimestamp
      ensures r.lastSuccessTimestamp == lastSuccessTimestamp && r.lastErrorTimestamp == lastErrorTimestamp
      ensures r.secondsSinceLastSuccess == curtime - lastSuccessTimestamp
      ensures r.secondsSinceLastError == curtime - lastErrorTimestamp
      ensures r.lastSuccessDatetime == UtcDatetime(lastSuccessTimestamp)
      ensures r.lastErrorDatetime == UtcDatetime(lastErrorTimestamp)
    {
      WorkerHealthOut(status, lastSuccessTimestamp, lastErrorTimestamp, dataTimestamp,
        UtcDatetime(lastSuccessTimestamp), curtime - lastSuccessTimestamp,
        UtcDatetime(lastErrorTimestamp), curtime - lastErrorTimestamp)
    }
  }

  /**
   * What the registry holds: a worker with one health record, or a group
   * (the per-chain vaults) publishing one record per member.
   */
  datatype Worker =
    | SingleWorker(health: Health)
    | GroupWorker(groupName: string, members: map<string, Health>)
  {
    function Name(): string {
      match this
      case SingleWorker(h) => h.name
      case GroupWorker(n, _) => n
    }

    ghost function Objects(): set<Health> {
      match this
      case SingleWorker(h) => {h}
      case GroupWorker(_, m) => m.Values
    }
  }

  ghost function ObjectsOf(ws: seq<Worker>): set<Health>
  {
    if ws == [] then {} else ObjectsOf(ws[..|ws| - 1]) + ws[|ws| - 1].Objects()
  }

  /** The grouped worker's published records: one per member, keyed alike. */
  function GroupOut(members: map<string, Health>, curtime: int): map<string, WorkerHealthOut>
    reads members.Values
  {
    map c | c in members :: members[c].ForPublishing(curtime)
  }

  function Publication(w: Worker, curtime: int): ModuleHealth
    reads w.Objects()
  {
    match w
    case SingleWorker(h) => Single(h.ForPublishing(curtime))
    case GroupWorker(_, m) => Grouped(GroupOut(m, curtime))
  }

  /**
   * The `modules` map that publishing `ws` in order builds: each worker's
   * publication under its name, a later worker overwriting an earlier one
   * of the same name.
   */
  function Modules(ws: seq<Worker>, curtime: int): map<string, ModuleHealth>
    reads ObjectsOf(ws)
  {
    if ws == [] then map[]
    else
      var last := ws[|ws| - 1];
      Modules(ws[..|ws| - 1], curtime)[last.Name() := Publication(last, curtime)]
  }

  /** Every registered name, and only those, appears in `modules`. */
  lemma {:induction false} ModulesKeys(ws: seq<Worker>, curtime: int)
    ensures Modules(ws, curtime).Keys == set w | w in ws :: w.Name()
  {
    if ws != [] {
      var init := ws[..|ws| - 1];
      ModulesKeys(init, curtime);
      assert ws == init + [ws[|ws| - 1]];
      assert (set w | w in ws :: w.Name()) == (set w | w in init :: w.Name()) + {ws[|ws| - 1].Name()};
    }
  }

  /**
   * The entry under a name is the publication of the last worker
   * registered with that name.
   */
  lemma {:induction false} ModulesLastWins(ws: seq<Worker>, curtime: int, i: int)
    requires 0 <= i < |ws|
    requires forall j :: i < j < |ws| ==> ws[j].Name() != ws[i].Name()
    ensures ws[i].Name() in Modules(ws, curtime)
    ensures Modules(ws, curtime)[ws[i].Name()] == Publication(ws[i], curtime)
  {
    if i < |ws| - 1 {
      var init := ws[..|ws| - 1];
      ModulesLastWins(init, curtime, i);
    }
  }

  class HealthRegistry {
    var items: seq<Worker>

    constructor ()
      ensures items == []
    {
      items := [];
    }

    /** `append(item)`: registration at the end, without de-duplication. */
    method Append(item: Worker)
      modifies this
      ensures items == old(items) + [item]
    {
      items := items + [item];
    }

    /**
     * `publish()` against the single clock reading `curtime`: one module
     * entry per registered name, built in registration order.
     */
    method Publish(curtime: int) returns (r: HealthOut)
      ensures r.currentDatetime == UtcDatetime(curtime)
      ensures r.modules == Modules(items, curtime)
      ensures r.modules.Keys == set w | w in items :: w.Name()
    {
      var modules := map[];
      var i := 0;
      while i < |items|
        invariant 0 <= i <= |items|
        invariant modules == Modules(items[..i], curtime)
      {
        var w := items[i];
        assert items[..i + 1][..i] == items[..i] && items[..i + 1][i] == w;
        modules := modules[w.Name() := Publication(w, curtime)];
        i := i + 1;
      }
      assert items[..i] == items;
      r := HealthOut(UtcDatetime(curtime), modules);
      ModulesKeys(items, curtime);
    }
  }
}
