/**
 * The per-chain vault worker: stores the uploaded snapshot and answers the
 * pairs, tickers, orderbook and historical-trades queries from it, falling
 * back to empty models whenever the snapshot cannot be loaded.
 */
module VaultWeb {
  import opened Wrappers
  import Settings
  import Misc
  import opened Health
  import opened VaultModels

  /**
   * What a request handler answers: its response model, or the status 500
   * the framework sends for an exception the handler does not catch.
   */
  datatype Reply<+T> = Served(body: T) | ServerError

  // ---------------------------------------------------------------------
  // Trade selection

  /** Python's `s[k:]`: a negative start counts from the end; both clamp to the list. */
  function PySliceFrom<T>(s: seq<T>, k: int): seq<T>
  {
    var start := if k < 0 then Max(0, |s| + k) else Min(k, |s|);
    s[start..]
  }

  /** `tmp[-limit:]` with a positive limit: the last `limit` items, in order, or all of them. */
  lemma TailSliceKeepsLast<T>(s: seq<T>, limit: int)
    requires limit > 0
    ensures |PySliceFrom(s, -limit)| == Min(limit, |s|)
    ensures PySliceFrom(s, -limit) == s[|s| - Min(limit, |s|)..]
    ensures limit >= |s| ==> PySliceFrom(s, -limit) == s
  {
  }

  /** `tmp[-limit:]` with a negative limit drops the first `-limit` items. */
  lemma TailSliceNegativeLimit<T>(s: seq<T>, limit: int)
    requires limit < 0
    ensures PySliceFrom(s, -limit) == s[Min(-limit, |s|)..]
  {
  }

  /** The bounds are integers; the `Decimal` trade timestamp is compared against them exactly. */
  predicate InWindow(t: Trade, startTime: int, endTime: int)
  {
    startTime as real <= t.tradeTimestamp <= endTime as real
  }

  /** The trades inside `[startTime, endTime]`, in stored order. */
  function Window(s: seq<Trade>, startTime: int, endTime: int): seq<Trade>
  {
    if s == [] then []
    else
      var last := s[|s| - 1];
      Window(s[..|s| - 1], startTime, endTime) + (if InWindow(last, startTime, endTime) then [last] else [])
  }

  /** Selecting a window distributes over concatenation, so stored order is kept. */
  lemma {:induction false} WindowAppend(a: seq<Trade>, b: seq<Trade>, startTime: int, endTime: int)
    ensures Window(a + b, startTime, endTime) == Window(a, startTime, endTime) + Window(b, startTime, endTime)
  {
    if b == [] {
      assert a + b == a;
    } else {
      var init := b[..|b| - 1];
      assert (a + b)[..|a + b| - 1] == a + init;
      assert (a + b)[|a + b| - 1] == b[|b| - 1];
      WindowAppend(a, init, startTime, endTime);
    }
  }

  /** A trade is selected exactly when it is stored and inside the window. */
  lemma {:induction false} WindowMembers(s: seq<Trade>, startTime: int, endTime: int)
    ensures |Window(s, startTime, endTime)| <= |s|
    ensures forall t :: t in Window(s, startTime, endTime) <==> t in s && InWindow(t, startTime, endTime)
  {
    if s != [] {
      var init := s[..|s| - 1];
      WindowMembers(init, startTime, endTime);
      assert s == init + [s[|s| - 1]];
    }
  }

  /**
   * The windowed scan's answer: the first `limit` trades inside the window,
   * all of them when `limit` is zero or negative.
   */
  function FirstMatches(s: seq<Trade>, startTime: int, endTime: int, limit: int): seq<Trade>
  {
    var w := Window(s, startTime, endTime);
    if 0 < limit < |w| then w[..limit] else w
  }

  lemma FirstMatchesMeaning(s: seq<Trade>, startTime: int, endTime: int, limit: int)
    ensures var r := FirstMatches(s, startTime, endTime, limit);
      && (forall t :: t in r ==> t in s && InWindow(t, startTime, endTime))
      && r <= Window(s, startTime, endTime)
      && (limit > 0 ==> |r| == Min(limit, |Window(s, startTime, endTime)|))
      && (limit <= 0 ==> r == Window(s, startTime, endTime))
  {
    WindowMembers(s, startTime, endTime);
  }

  /** The loop of `historical_trades` with its `count` and early `break`. */
  method ScanWindow(tmp: seq<Trade>, startTime: int, endTime: int, limit: int) returns (out: seq<Trade>)
    ensures out == FirstMatches(tmp, startTime, endTime, limit)
    ensures forall t :: t in out ==> t in tmp && InWindow(t, startTime, endTime)
  {
    out := [];
    var count := 0;
    var i := 0;
    while i < |tmp|
      invariant 0 <= i <= |tmp|
      invariant out == Window(tmp[..i], startTime, endTime)
      invariant count == |out|
      invariant limit > 0 ==> count < limit
    {
      var trade := tmp[i];
      assert tmp[..i + 1][..i] == tmp[..i] && tmp[..i + 1][i] == trade;
      if InWindow(trade, startTime, endTime) {
        out := out + [trade];
        count := count + 1;
        if count == limit {
          assert tmp == tmp[..i + 1] + tmp[i + 1..];
          WindowAppend(tmp[..i + 1], tmp[i + 1..], startTime, endTime);
          break;
        }
      }
      i := i + 1;
    }
    if i == |tmp| {
      assert tmp[..i] == tmp;
    }
    FirstMatchesMeaning(tmp, startTime, endTime, limit);
  }

  predicate IsDefaultRange(startTime: int, endTime: int)
  {
    startTime == Misc.MinTimestamp && endTime == Misc.MaxTimestamp
  }

  /**
   * What `historical_trades` answers from the outcome of loading the
   * snapshot. An integer under the requested key has no `trades`, and the
   * `AttributeError` escapes the handler.
   */
  function TradesAnswer(loaded: Result<VaultData, LoadError>, tickerId: string, side: Side,
                        limit: int, startTime: int, endTime: int): Reply<PairTrades>
  {
    if loaded.Err? || tickerId !in PairIds(loaded.value) then Served(EmptyTrades)
    else if !HoldsPair(loaded.value, tickerId) then ServerError
    else
      var tmp := SideOf(Pair(loaded.value, tickerId).trades, side);
      if tmp.None? || tmp.value == [] then Served(EmptyTrades)
      else if IsDefaultRange(startTime, endTime) && limit == 0 then Served(OnlySide(side, tmp.value))
      else if IsDefaultRange(startTime, endTime) then Served(OnlySide(side, PySliceFrom(tmp.value, -limit)))
      else Served(OnlySide(side, FirstMatches(tmp.value, startTime, endTime, limit)))
  }

  /** The trades stored for one side of a pair, `[]` when there are none. */
  function StoredTrades(d: VaultData, tickerId: string, side: Side): seq<Trade>
    requires HoldsPair(d, tickerId)
  {
    SideOf(Pair(d, tickerId).trades, side).GetOr([])
  }

  /** Load failures, unknown tickers and missing or empty sides all give the empty model. */
  lemma TradesEmptyCases(loaded: Result<VaultData, LoadError>, tickerId: string, side: Side,
                         limit: int, startTime: int, endTime: int)
    requires || loaded.Err? || tickerId !in PairIds(loaded.value)
             || (HoldsPair(loaded.value, tickerId) && StoredTrades(loaded.value, tickerId, side) == [])
    ensures TradesAnswer(loaded, tickerId, side, limit, startTime, endTime) == Served(EmptyTrades)
  {
  }

  /**
   * With stored trades on the requested side, only that side is answered:
   * the whole list for `limit == 0` over the default range, its last
   * `limit` trades for a positive limit over the default range, and the
   * first `limit` trades inside the window (all of them for `limit <= 0`)
   * as soon as either bound is explicit.
   */
  lemma TradesSelected(d: VaultData, tickerId: string, side: Side, limit: int, startTime: int, endTime: int)
    requires HoldsPair(d, tickerId) && StoredTrades(d, tickerId, side) != []
    ensures TradesAnswer(Ok(d), tickerId, side, limit, startTime, endTime).Served?
    ensures var r := TradesAnswer(Ok(d), tickerId, side, limit, startTime, endTime).body;
      var tmp := StoredTrades(d, tickerId, side);
      && SideOf(r, if side == Buy then Sell else Buy) == None
      && r == OnlySide(side, SideOf(r, side).value)
      && (IsDefaultRange(startTime, endTime) && limit == 0 ==> SideOf(r, side) == Some(tmp))
      && (IsDefaultRange(startTime, endTime) && limit > 0 ==>
            SideOf(r, side) == Some(tmp[|tmp| - Min(limit, |tmp|)..]))
      && (IsDefaultRange(startTime, endTime) && limit < 0 ==>
            SideOf(r, side) == Some(tmp[Min(-limit, |tmp|)..]))
      && (!IsDefaultRange(startTime, endTime) ==>
            && (forall t :: t in SideOf(r, side).value ==> t in tmp && InWindow(t, startTime, endTime))
            && SideOf(r, side).value <= Window(tmp, startTime, endTime)
            && (limit > 0 ==> |SideOf(r, side).value| == Min(limit, |Window(tmp, startTime, endTime)|))
            && (limit <= 0 ==> SideOf(r, side).value == Window(tmp, startTime, endTime)))
  {
    var tmp := StoredTrades(d, tickerId, side);
    if limit > 0 {
      TailSliceKeepsLast(tmp, limit);
    } else if limit < 0 {
      TailSliceNegativeLimit(tmp, limit);
    }
    FirstMatchesMeaning(tmp, startTime, endTime, limit);
  }

  // ---------------------------------------------------------------------
  // Loading and the query answers

  /**
   * `_load`: `IOError` when no snapshot was written, `ValidationError` when
   * the stored document does not validate.
   */
  function LoadFrom(disk: Option<RawRoot>): (r: Result<VaultData, LoadError>)
    ensures r == Err(IOError) <==> disk.None?
    ensures disk.Some? ==> (r.Ok? <==> ValidRoot(disk.value))
    ensures disk.Some? && r.Err? ==> r.error == ValidationError
    ensures r.Ok? ==> forall k :: k in r.value <==> k in disk.value
  {
    if disk.None? then Err(IOError)
    else
      match Parse(disk.value)
      case Some(d) => Ok(d)
      case None => Err(ValidationError)
  }

  /** The loaded snapshot's `timestamp`, as `initialize_healthdata` reads it. */
  function TimestampOf(loaded: Result<VaultData, LoadError>): Result<int, LoadError>
  {
    match loaded
    case Ok(d) => Ok(Timestamp(d))
    case Err(e) => Err(e)
  }

  /** The data timestamp a vault's health starts with: the loaded snapshot's, or none. */
  function SeedTimestamp(disk: Option<RawRoot>): Option<int>
  {
    if LoadFrom(disk).Ok? then Some(Timestamp(LoadFrom(disk).value)) else None
  }

  /** Each pair listed once, with its own fields, and nothing else. */
  ghost predicate ListsPairs(ret: seq<PairOut>, d: VaultData)
  {
    && |ret| == |PairIds(d)|
    && (forall i, j :: 0 <= i < j < |ret| ==> ret[i].tickerId != ret[j].tickerId)
    && (forall i :: 0 <= i < |ret| ==>
          HoldsPair(d, ret[i].tickerId) && ret[i] == PairOutOf(ret[i].tickerId, Pair(d, ret[i].tickerId)))
    && (forall id :: id in PairIds(d) ==> exists i :: 0 <= i < |ret| && ret[i].tickerId == id)
  }

  ghost predicate ListsTickers(ret: seq<TickerOut>, d: VaultData)
  {
    && |ret| == |PairIds(d)|
    && (forall i, j :: 0 <= i < j < |ret| ==> ret[i].tickerId != ret[j].tickerId)
    && (forall i :: 0 <= i < |ret| ==>
          HoldsPair(d, ret[i].tickerId) && ret[i] == TickerOf(ret[i].tickerId, Pair(d, ret[i].tickerId)))
    && (forall id :: id in PairIds(d) ==> exists i :: 0 <= i < |ret| && ret[i].tickerId == id)
  }

  /**
   * `pairs()`: empty when loading fails, status 500 when a listed key holds
   * an integer, and otherwise every pair once.
   */
  ghost predicate PairsAnswer(loaded: Result<VaultData, LoadError>, ret: Reply<seq<PairOut>>)
  {
    && (loaded.Err? ==> ret == Served([]))
    && (loaded.Ok? && !PairsOnly(loaded.value) ==> ret == ServerError)
    && (loaded.Ok? && PairsOnly(loaded.value) ==> ret.Served? && ListsPairs(ret.body, loaded.value))
  }

  ghost predicate TickersAnswer(loaded: Result<VaultData, LoadError>, ret: Reply<seq<TickerOut>>)
  {
    && (loaded.Err? ==> ret == Served([]))
    && (loaded.Ok? && !PairsOnly(loaded.value) ==> ret == ServerError)
    && (loaded.Ok? && PairsOnly(loaded.value) ==> ret.Served? && ListsTickers(ret.body, loaded.value))
  }

  /**
   * `orderbook(ticker_id)`: the default orderbook when loading fails or the
   * ticker is unknown, status 500 when its key holds an integer, and
   * otherwise the pair's levels with its `timestamp`.
   */
  function OrderbookAnswer(loaded: Result<VaultData, LoadError>, tickerId: string): Reply<OrderbookOut>
  {
    if loaded.Err? || tickerId !in PairIds(loaded.value) then Served(EmptyOrderbook)
    else if !HoldsPair(loaded.value, tickerId) then ServerError
    else
      var p := Pair(loaded.value, tickerId);
      Served(OrderbookOut(tickerId, p.timestamp, p.orderbook.bids, p.orderbook.asks))
  }

  /** Only a key holding an integer makes the orderbook and trades handlers raise. */
  lemma NonPairKeyRaises(d: VaultData, tickerId: string, side: Side, limit: int, startTime: int, endTime: int)
    ensures OrderbookAnswer(Ok(d), tickerId).ServerError? <==> tickerId in PairIds(d) && d[tickerId].IntValue?
    ensures TradesAnswer(Ok(d), tickerId, side, limit, startTime, endTime).ServerError? <==>
      tickerId in PairIds(d) && d[tickerId].IntValue?
  {
  }

  /**
   * The loop of `pairs()`: one entry per listed pair; the first listed key
   * holding an integer raises `AttributeError`.
   */
  method ListPairs(d: VaultData) returns (ret: Reply<seq<PairOut>>)
    ensures ret.ServerError? <==> !PairsOnly(d)
    ensures ret.Served? ==> ListsPairs(ret.body, d)
  {
    var pairs := PairsList(d);
    var out := [];
    var i := 0;
    while i < |pairs|
      invariant 0 <= i <= |pairs| && |out| == i
      invariant forall j :: 0 <= j < i ==> HoldsPair(d, pairs[j]) && out[j] == PairOutOf(pairs[j], Pair(d, pairs[j]))
    {
      if !d[pairs[i]].PairValue? {
        return ServerError;
      }
      out := out + [PairOutOf(pairs[i], Pair(d, pairs[i]))];
      i := i + 1;
    }
    forall id | id in PairIds(d)
      ensures d[id].PairValue? && exists j :: 0 <= j < |out| && out[j].tickerId == id
    {
      var j :| 0 <= j < |pairs| && pairs[j] == id;
      assert out[j].tickerId == id;
    }
    ret := Served(out);
  }

  /**
   * The loop of `tickers()`: one ticker per listed pair; `parse_obj` of a
   * listed key holding an integer raises `ValidationError`.
   */
  method ListTickers(d: VaultData) returns (ret: Reply<seq<TickerOut>>)
    ensures ret.ServerError? <==> !PairsOnly(d)
    ensures ret.Served? ==> ListsTickers(ret.body, d)
  {
    var pairs := PairsList(d);
    var out := [];
    var i := 0;
    while i < |pairs|
      invariant 0 <= i <= |pairs| && |out| == i
      invariant forall j :: 0 <= j < i ==> HoldsPair(d, pairs[j]) && out[j] == TickerOf(pairs[j], Pair(d, pairs[j]))
    {
      if !d[pairs[i]].PairValue? {
        return ServerError;
      }
      out := out + [TickerOf(pairs[i], Pair(d, pairs[i]))];
      i := i + 1;
    }
    forall id | id in PairIds(d)
      ensures d[id].PairValue? && exists j :: 0 <= j < |out| && out[j].tickerId == id
    {
      var j :| 0 <= j < |pairs| && pairs[j] == id;
      assert out[j].tickerId == id;
    }
    ret := Served(out);
  }

  class BobVault {
    const chain: string
    const health: Health
    /** The chain's snapshot file: `None` while nothing was written. */
    var stored: Option<RawRoot>

    function Loaded(): Result<VaultData, LoadError>
      reads this
    {
      LoadFrom(stored)
    }

    /**
     * The state the constructor leaves: the file as found, and health named
     * `BobVault/<chain>`, seeded from that file with both times zero.
     */
    ghost predicate SeededFrom(disk: Option<RawRoot>)
      reads this, health
    {
      && stored == disk
      && health.name == "BobVault/" + chain
      && health.status == (if LoadFrom(disk).Ok? then Success else Error)
      && health.dataTimestamp == SeedTimestamp(disk)
      && health.lastSuccessTimestamp == 0 && health.lastErrorTimestamp == 0
    }

    constructor (chain: string, disk: Option<RawRoot>)
      ensures this.chain == chain && fresh(health) && SeededFrom(disk)
    {
      this.chain := chain;
      stored := disk;
      health := new Health.Initialize(Misc.NameOf(Some("BobVault/" + chain), "BobVault"), TimestampOf(LoadFrom(disk)));
    }

    method Load() returns (r: Result<VaultData, LoadError>)
      ensures r == Loaded()
    {
      if stored.None? {
        return Err(IOError);
      }
      var parsed := ParseRoot(stored.value);
      if parsed.None? {
        return Err(ValidationError);
      }
      r := Ok(parsed.value);
    }

    /**
     * `store(data)`: the snapshot is written, then success is recorded with
     * its timestamp. What was written loads back only when no key but
     * `timestamp` holds an integer.
     */
    method Store(data: VaultData, now: int)
      modifies this, health
      ensures stored == Some(Dict(data))
      ensures Loaded() == if PairsOnly(data) then Ok(data) else Err(ValidationError)
      ensures health.status == Success && health.dataTimestamp == Some(Timestamp(data))
      ensures health.lastSuccessTimestamp == now && health.lastErrorTimestamp == old(health.lastErrorTimestamp)
    {
      stored := Some(Dict(data));
      DictRoundTrip(data);
      health.RecordSuccess(Timestamp(data), true, now);
    }

    method Pairs() returns (ret: Reply<seq<PairOut>>)
      ensures PairsAnswer(Loaded(), ret)
    {
      var loaded := Load();
      if loaded.Err? {
        return Served([]);
      }
      ret := ListPairs(loaded.value);
    }

    method Tickers() returns (ret: Reply<seq<TickerOut>>)
      ensures TickersAnswer(Loaded(), ret)
    {
      var loaded := Load();
      if loaded.Err? {
        return Served([]);
      }
      ret := ListTickers(loaded.value);
    }

    method Orderbook(tickerId: string) returns (r: Reply<OrderbookOut>)
      ensures r == OrderbookAnswer(Loaded(), tickerId)
    {
      var loaded := Load();
      if loaded.Err? || tickerId !in PairIds(loaded.value) {
        return Served(EmptyOrderbook);
      }
      if !loaded.value[tickerId].PairValue? {
        return ServerError;
      }
      var p := Pair(loaded.value, tickerId);
      r := Served(OrderbookOut(tickerId, p.timestamp, p.orderbook.bids, p.orderbook.asks));
    }

    method HistoricalTrades(tickerId: string, side: Side, limit: int, startTime: int, endTime: int)
      returns (r: Reply<PairTrades>)
      ensures r == TradesAnswer(Loaded(), tickerId, side, limit, startTime, endTime)
    {
      var loaded := Load();
      if loaded.Err? {
        return Served(EmptyTrades);
      }
      var data := loaded.value;
      if tickerId !in PairIds(data) {
        return Served(EmptyTrades);
      }
      if !data[tickerId].PairValue? {
        return ServerError;
      }
      var tmp := SideOf(Pair(data, tickerId).trades, side);
      if tmp.None? || tmp.value == [] {
        return Served(EmptyTrades);
      }
      if limit == 0 && startTime == Misc.MinTimestamp && endTime == Misc.MaxTimestamp {
        r := Served(OnlySide(side, tmp.value));
      } else if limit != 0 && startTime == Misc.MinTimestamp && endTime == Misc.MaxTimestamp {
        r := Served(OnlySide(side, PySliceFrom(tmp.value, -limit)));
      } else {
        var selected := ScanWindow(tmp.value, startTime, endTime, limit);
        r := Served(OnlySide(side, selected));
      }
    }
  }

  /** The file each chain's vault finds at start-up. */
  function FileOf(files: map<string, RawRoot>, chain: string): Option<RawRoot>
  {
    if chain in files then Some(files[chain]) else None
  }

  /** The loop of `BobVaults.__init__`: a fresh vault per chain, each seeded from its own file. */
  method OpenVaults(chains: seq<string>, files: map<string, RawRoot>) returns (vs: map<string, BobVault>)
    ensures forall c :: c in vs <==> c in chains
    ensures forall c :: c in vs ==>
      && fresh(vs[c]) && fresh(vs[c].health) && vs[c].chain == c
      && vs[c].SeededFrom(FileOf(files, c))
    ensures forall c1, c2 :: c1 in vs && c2 in vs && c1 != c2 ==>
      vs[c1] != vs[c2] && vs[c1].health != vs[c2].health
  {
    vs := map[];
    var i := 0;
    while i < |chains|
      invariant 0 <= i <= |chains|
      invariant forall c :: c in vs <==> c in chains[..i]
      invariant forall c :: c in vs ==>
        && fresh(vs[c]) && fresh(vs[c].health) && vs[c].chain == c
        && vs[c].SeededFrom(FileOf(files, c))
      invariant forall c1, c2 :: c1 in vs && c2 in vs && c1 != c2 ==>
        vs[c1] != vs[c2] && vs[c1].health != vs[c2].health
    {
      var c := chains[i];
      var v := new BobVault(c, FileOf(files, c));
      assert chains[..i + 1] == chains[..i] + [c];
      vs := vs[c := v];
      i := i + 1;
    }
    assert chains[..i] == chains;
  }

  /** One vault per configured chain, registered as one grouped worker. */
  class BobVaults {
    const chains: seq<string>
    const vaults: map<string, BobVault>

    ghost predicate Valid()
    {
      && (forall c :: c in vaults <==> c in chains)
      && (forall c :: c in vaults ==> vaults[c].chain == c)
      && (forall c1, c2 :: c1 in vaults && c2 in vaults && c1 != c2 ==>
            vaults[c1] != vaults[c2] && vaults[c1].health != vaults[c2].health)
    }

    function HealthMembers(): (m: map<string, Health>)
      ensures m.Keys == vaults.Keys
      ensures forall c :: c in vaults ==> m[c] == vaults[c].health
    {
      map c | c in vaults :: vaults[c].health
    }

    /** Each chain's vault is seeded from that chain's file, as `BobVault/<chain>`. */
    constructor (s: Settings.Settings, files: map<string, RawRoot>, registry: HealthRegistry)
      modifies registry
      ensures Valid() && chains == s.bobvaultChains
      ensures forall c :: c in vaults ==>
        fresh(vaults[c]) && fresh(vaults[c].health) && vaults[c].SeededFrom(FileOf(files, c))
      ensures registry.items == old(registry.items) + [GroupWorker("BobVaults", HealthMembers())]
    {
      chains := s.bobvaultChains;
      var vs := OpenVaults(s.bobvaultChains, files);
      vaults := vs;
      new;
      registry.Append(GroupWorker("BobVaults", HealthMembers()));
    }

    /** `healthdata_for_publishing(curtime)`: one record per chain. */
    method HealthdataForPublishing(curtime: int) returns (ret: map<string, WorkerHealthOut>)
      ensures ret == GroupOut(HealthMembers(), curtime)
      ensures ret.Keys == vaults.Keys
      ensures forall c :: c in vaults ==> ret[c] == vaults[c].health.ForPublishing(curtime)
    {
      ret := map[];
      var todo := vaults.Keys;
      while todo != {}
        invariant todo <= vaults.Keys
        invariant ret.Keys == vaults.Keys - todo
        invariant forall c :: c in ret ==> ret[c] == vaults[c].health.ForPublishing(curtime)
        decreases todo
      {
        var c :| c in todo;
        ret := ret[c := vaults[c].health.ForPublishing(curtime)];
        todo := todo - {c};
      }
    }

    /** `store(chain, data)`: only that chain's vault and its health change. */
    method Store(chain: string, data: VaultData, now: int)
      requires Valid() && chain in vaults
      modifies vaults[chain], vaults[chain].health
      ensures vaults[chain].Loaded() == if PairsOnly(data) then Ok(data) else Err(ValidationError)
      ensures vaults[chain].health.status == Success
      ensures vaults[chain].health.dataTimestamp == Some(Timestamp(data))
      ensures vaults[chain].health.lastSuccessTimestamp == now
      ensures vaults[chain].health.lastErrorTimestamp == old(vaults[chain].health.lastErrorTimestamp)
    {
      vaults[chain].Store(data, now);
    }

    method Pairs(chain: string) returns (ret: Reply<seq<PairOut>>)
      requires chain in vaults
      ensures PairsAnswer(vaults[chain].Loaded(), ret)
    {
      ret := vaults[chain].Pairs();
    }

    method Tickers(chain: string) returns (ret: Reply<seq<TickerOut>>)
      requires chain in vaults
      ensures TickersAnswer(vaults[chain].Loaded(), ret)
    {
      ret := vaults[chain].Tickers();
    }

    method Orderbook(chain: string, tickerId: string) returns (r: Reply<OrderbookOut>)
      requires chain in vaults
      ensures r == OrderbookAnswer(vaults[chain].Loaded(), tickerId)
    {
      r := vaults[chain].Orderbook(tickerId);
    }

    method HistoricalTrades(chain: string, tickerId: string, side: Side, limit: int, startTime: int, endTime: int)
      returns (r: Reply<PairTrades>)
      requires chain in vaults
      ensures r == TradesAnswer(vaults[chain].Loaded(), tickerId, side, limit, startTime, endTime)
    {
      r := vaults[chain].HistoricalTrades(tickerId, side, limit, startTime, endTime);
    }
  }
}
