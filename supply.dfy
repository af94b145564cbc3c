/**
 * The live total-supply worker: one token object per configured RPC
 * endpoint, summed once per polling cycle.
 */
module Supply {
  import opened Wrappers
  import Settings
  import opened Health
  import opened Web3

  ghost function Caches(ts: seq<ERC20Token>): (r: seq<Option<int>>)
    reads set t | t in ts
    ensures |r| == |ts| && forall i :: 0 <= i < |ts| ==> r[i] == ts[i].decimalsCache
  {
    seq(|ts|, i reads set t | t in ts requires 0 <= i < |ts| => ts[i].decimalsCache)
  }

  /** Each endpoint's read in one cycle, were every endpoint asked, in endpoint order. */
  function CycleReads(caches: seq<Option<int>>, es: seq<Endpoint>, s: Settings.Settings): (r: seq<SupplyRead>)
    requires |caches| == |es|
    ensures |r| == |es|
  {
    if es == [] then []
    else
      var n := |es| - 1;
      CycleReads(caches[..n], es[..n], s) + [ReadSupply(caches[n], es[n], s, true)]
  }

  /** The `i`-th read of a cycle is the `i`-th token's read through the `i`-th endpoint. */
  lemma {:induction false} CycleReadsAt(caches: seq<Option<int>>, es: seq<Endpoint>, s: Settings.Settings, i: nat)
    requires |caches| == |es| && i < |es|
    ensures CycleReads(caches, es, s)[i] == ReadSupply(caches[i], es[i], s, true)
  {
    var n := |es| - 1;
    if i < n {
      CycleReadsAt(caches[..n], es[..n], s, i);
    }
  }

  /** The index of the first failed read, or the number of reads when none failed. */
  function FirstFailure(results: seq<SupplyRead>): (k: nat)
    ensures k <= |results|
    ensures forall j :: 0 <= j < k ==> results[j].value.Some?
    ensures k < |results| ==> results[k].value.None?
  {
    if results == [] then 0
    else if results[0].value.None? then 0
    else 1 + FirstFailure(results[1..])
  }

  /** A failure at `i` after successes only is the first failure. */
  lemma FirstFailureAt(results: seq<SupplyRead>, i: nat)
    requires i <= |results|
    requires forall j :: 0 <= j < i ==> results[j].value.Some?
    requires i < |results| ==> results[i].value.None?
    ensures FirstFailure(results) == i
  {
  }

  /** `total` after adding the first `k` values in order, starting from 0. */
  function Total(results: seq<SupplyRead>, k: nat): real
    requires k <= |results|
  {
    if k == 0 then 0.0 else Total(results, k - 1) + results[k - 1].value.GetOr(0.0)
  }

  lemma TotalStep(results: seq<SupplyRead>, i: nat)
    requires i < |results| && results[i].value.Some?
    ensures Total(results, i + 1) == Total(results, i) + results[i].value.value
  {
  }

  class TotalSupply {
    /** `_value`: unset until the first fully successful cycle. */
    var storedValue: Option<real>
    const health: Health
    const tokens: seq<ERC20Token>

    ghost predicate Valid()
    {
      forall i, j :: 0 <= i < j < |tokens| ==> tokens[i] != tokens[j]
    }

    /** The `value` property: the last committed total, 0 before any. */
    function Value(): (r: real)
      reads this
      ensures storedValue.None? ==> r == 0.0
      ensures storedValue.Some? ==> r == storedValue.value
    {
      storedValue.GetOr(0.0)
    }

    /**
     * Health is seeded through the inherited loader, so it starts in error;
     * the worker registers itself and makes one token per RPC, in order.
     */
    constructor (s: Settings.Settings, registry: HealthRegistry)
      modifies registry
      ensures Valid() && storedValue == None
      ensures |tokens| == |s.rpcs|
      ensures forall i :: 0 <= i < |tokens| ==> fresh(tokens[i]) && tokens[i].decimalsCache == None
      ensures fresh(health) && health.name == "TotalSupply"
      ensures health.status == Error && health.dataTimestamp == None
      ensures health.lastSuccessTimestamp == 0 && health.lastErrorTimestamp == 0
      ensures registry.items == old(registry.items) + [SingleWorker(health)]
    {
      var h := new Health.Initialize("TotalSupply", BaseLoad());
      var ts: seq<ERC20Token> := [];
      var i := 0;
      while i < |s.rpcs|
        invariant 0 <= i <= |s.rpcs| && |ts| == i
        invariant registry.items == old(registry.items)
        invariant h.status == Error && h.dataTimestamp == None
        invariant h.lastSuccessTimestamp == 0 && h.lastErrorTimestamp == 0
        invariant forall j :: 0 <= j < i ==> fresh(ts[j]) && ts[j].decimalsCache == None
        invariant forall j, k :: 0 <= j < k < i ==> ts[j] != ts[k]
      {
        var t := new ERC20Token();
        ts := ts + [t];
        i := i + 1;
      }
      health := h;
      tokens := ts;
      storedValue := None;
      new;
      registry.Append(SingleWorker(health));
    }

    /**
     * The loop of `get_through_tokens()`: reads the endpoints in order,
     * summing from 0, and stops at the first failed read. `queried` counts
     * the endpoints asked; each of them may have memoised `decimals()`.
     */
    method CollectTotal(endpoints: seq<Endpoint>, s: Settings.Settings, ghost before: seq<Option<int>>)
      returns (total: real, collectedSuccessfully: bool, ghost queried: nat)
      requires Valid() && |endpoints| == |tokens|
      requires before == Caches(tokens)
      modifies set t | t in tokens
      ensures var results := CycleReads(before, endpoints, s);
        var k := FirstFailure(results);
        && (collectedSuccessfully <==> k == |tokens|)
        && (collectedSuccessfully ==> total == Total(results, k))
        && queried == (if k < |tokens| then k + 1 else k)
        && (forall j :: 0 <= j < queried ==> tokens[j].decimalsCache == results[j].cache)
        && (forall j :: queried <= j < |tokens| ==> tokens[j].decimalsCache == before[j])
    {
      ghost var results := CycleReads(before, endpoints, s);
      total := 0.0;
      collectedSuccessfully := true;
      var i := 0;
      while i < |tokens|
        invariant 0 <= i <= |tokens|
        invariant forall j :: 0 <= j < i ==> results[j].value.Some?
        invariant total == Total(results, i)
        invariant forall j :: 0 <= j < |tokens| ==>
          tokens[j].decimalsCache == if j < i then results[j].cache else before[j]
      {
        var t := tokens[i];
        assert t.decimalsCache == before[i];
        CycleReadsAt(before, endpoints, s, i);
        var v := t.TotalSupply(true, endpoints[i], s);
        assert v == results[i].value && t.decimalsCache == results[i].cache;
        assert forall j :: 0 <= j < |tokens| && j != i ==> tokens[j] != t;
        if v.None? {
          collectedSuccessfully := false;
          queried := i + 1;
          FirstFailureAt(results, i);
          return;
        }
        TotalStep(results, i);
        total := total + v.value;
        i := i + 1;
      }
      queried := i;
      FirstFailureAt(results, i);
    }

    /**
     * `get_through_tokens()` at clock reading `now`, given what each
     * endpoint answers in this cycle. The total is committed, and success
     * recorded, only when every endpoint answered; otherwise the old value
     * stays and an error is recorded.
     */
    method GetThroughTokens(endpoints: seq<Endpoint>, s: Settings.Settings, now: int) returns (ghost queried: nat)
      requires Valid() && |endpoints| == |tokens|
      modifies this, health, set t | t in tokens
      ensures var results := CycleReads(old(Caches(tokens)), endpoints, s);
        var k := FirstFailure(results);
        && queried == (if k < |tokens| then k + 1 else k)
        && (forall j :: 0 <= j < queried ==> tokens[j].decimalsCache == results[j].cache)
        && (forall j :: queried <= j < |tokens| ==> tokens[j].decimalsCache == old(tokens[j].decimalsCache))
        && (k == |tokens| ==> storedValue == Some(Total(results, k)))
        && (k < |tokens| ==> storedValue == old(storedValue))
      ensures var k := FirstFailure(CycleReads(old(Caches(tokens)), endpoints, s));
        && (k == |tokens| ==>
              && health.status == Success && health.dataTimestamp == Some(now)
              && health.lastSuccessTimestamp == now
              && health.lastErrorTimestamp == old(health.lastErrorTimestamp))
        && (k < |tokens| ==>
              && health.status == Error && health.lastErrorTimestamp == now
              && health.lastSuccessTimestamp == old(health.lastSuccessTimestamp)
              && health.dataTimestamp == old(health.dataTimestamp))
    {
      var total, collectedSuccessfully;
      total, collectedSuccessfully, queried := CollectTotal(endpoints, s, Caches(tokens));
      if collectedSuccessfully {
        storedValue := Some(total);
        health.RecordSuccess(now, true, now);
      } else {
        health.RecordError(now);
      }
    }
  }
}
