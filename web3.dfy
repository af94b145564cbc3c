/**
 * Reads of the token contract through one RPC endpoint: the capped retry
 * loop around every call, and the token object with its memoised
 * `decimals()`.
 *
 * What an endpoint answers is an input: the successive attempts of one call
 * are a sequence of outcomes, `Some(v)` when the attempt returned `v` and
 * `None` when it raised; attempts beyond the recorded ones raise.
 */
module Web3 {
  import opened Wrappers
  import Settings

  function Attempt(outcomes: seq<Option<int>>, i: nat): Option<int>
  {
    if i < |outcomes| then outcomes[i] else None
  }

  /** The first successful attempt from attempt `i` on, below `maxAttempts`. */
  function RetryFrom(outcomes: seq<Option<int>>, i: nat, maxAttempts: int): Option<int>
    decreases maxAttempts - i
  {
    if i >= maxAttempts then None
    else if Attempt(outcomes, i).Some? then Attempt(outcomes, i)
    else RetryFrom(outcomes, i + 1, maxAttempts)
  }

  /** What `make_web3_call` returns (`None`: it raises). */
  function Retry(outcomes: seq<Option<int>>, maxAttempts: int): Option<int>
  {
    RetryFrom(outcomes, 0, maxAttempts)
  }

  lemma {:induction false} RetryFromIsFirstSuccess(outcomes: seq<Option<int>>, i: nat, maxAttempts: int)
    ensures RetryFrom(outcomes, i, maxAttempts).None? <==>
      forall j :: i <= j < maxAttempts ==> Attempt(outcomes, j).None?
    ensures RetryFrom(outcomes, i, maxAttempts).Some? ==>
      exists j :: i <= j < maxAttempts && RetryFrom(outcomes, i, maxAttempts) == Attempt(outcomes, j)
        && forall k :: i <= k < j ==> Attempt(outcomes, k).None?
    decreases maxAttempts - i
  {
    if i < maxAttempts && Attempt(outcomes, i).None? {
      RetryFromIsFirstSuccess(outcomes, i + 1, maxAttempts);
      if RetryFrom(outcomes, i, maxAttempts).Some? {
        var j :| i + 1 <= j < maxAttempts && RetryFrom(outcomes, i + 1, maxAttempts) == Attempt(outcomes, j)
          && forall k :: i + 1 <= k < j ==> Attempt(outcomes, k).None?;
        assert forall k :: i <= k < j ==> Attempt(outcomes, k).None?;
      }
    }
  }

  /**
   * The retry policy: the call fails only when every one of the first
   * `maxAttempts` attempts raised (always, when `maxAttempts <= 0`), and a
   * success is the value of the first attempt that returned.
   */
  lemma RetryIsFirstSuccess(outcomes: seq<Option<int>>, maxAttempts: int)
    ensures Retry(outcomes, maxAttempts).None? <==>
      forall j :: 0 <= j < maxAttempts ==> Attempt(outcomes, j).None?
    ensures Retry(outcomes, maxAttempts).Some? ==>
      exists j :: 0 <= j < maxAttempts && Retry(outcomes, maxAttempts) == Attempt(outcomes, j)
        && forall k :: 0 <= k < j ==> Attempt(outcomes, k).None?
  {
    RetryFromIsFirstSuccess(outcomes, 0, maxAttempts);
  }

  /**
   * `make_web3_call(func)`: returns `r` after `calls` invocations of `func`,
   * having slept `sleeps` in between.
   */
  method MakeWeb3Call(outcomes: seq<Option<int>>, s: Settings.Settings)
    returns (r: Option<int>, calls: nat, sleeps: seq<int>)
    ensures r == Retry(outcomes, s.web3RetryAttempts)
    ensures calls <= Max(0, s.web3RetryAttempts)
    ensures r.Some? ==> 1 <= calls && r == Attempt(outcomes, calls - 1)
    ensures forall j :: 0 <= j < (if r.Some? then calls - 1 else calls) ==> Attempt(outcomes, j).None?
    ensures r.None? ==> calls == Max(0, s.web3RetryAttempts)
    ensures |sleeps| == (if r.Some? then calls - 1 else calls)
    ensures forall k :: 0 <= k < |sleeps| ==> sleeps[k] == s.web3RetryDelay
  {
    var attempts := 0;
    calls, sleeps := 0, [];
    while attempts < s.web3RetryAttempts
      invariant 0 <= attempts <= Max(0, s.web3RetryAttempts)
      invariant calls == attempts && |sleeps| == attempts
      invariant forall j :: 0 <= j < attempts ==> Attempt(outcomes, j).None?
      invariant forall k :: 0 <= k < |sleeps| ==> sleeps[k] == s.web3RetryDelay
      invariant RetryFrom(outcomes, attempts, s.web3RetryAttempts) == Retry(outcomes, s.web3RetryAttempts)
      decreases s.web3RetryAttempts - attempts
    {
      var outcome := Attempt(outcomes, attempts);
      calls := calls + 1;
      if outcome.Some? {
        r := outcome;
        return;
      }
      attempts := attempts + 1;
      sleeps := sleeps + [s.web3RetryDelay];
    }
    r := None;
  }

  function Pow10(n: nat): (r: nat)
    ensures r >= 1
  {
    if n == 0 then 1 else 10 * Pow10(n - 1)
  }

  /** `retval / 10 ** d`, computed exactly. */
  function Normalize(raw: int, d: int): real
  {
    if d >= 0 then raw as real / Pow10(d) as real else raw as real * Pow10(-d) as real
  }

  /** Normalising by `d` decimals and scaling back gives the raw amount. */
  lemma NormalizeScales(raw: int, d: nat)
    ensures Normalize(raw, d) * Pow10(d) as real == raw as real
  {
  }

  /** The answers one endpoint gives, during one cycle, to each of the two reads. */
  datatype Endpoint = Endpoint(supplyAttempts: seq<Option<int>>, decimalsAttempts: seq<Option<int>>)

  /** The result of one `totalSupply()` read and the token's decimals cache after it. */
  datatype SupplyRead = SupplyRead(value: Option<real>, cache: Option<int>)

  function DecimalsRead(cache: Option<int>, outcomes: seq<Option<int>>, s: Settings.Settings): Option<int>
  {
    if cache.Some? then cache else Retry(outcomes, s.web3RetryAttempts)
  }

  function ReadSupply(cache: Option<int>, e: Endpoint, s: Settings.Settings, normalize: bool): SupplyRead
  {
    var raw := Retry(e.supplyAttempts, s.web3RetryAttempts);
    if raw.None? then SupplyRead(None, cache)
    else if !normalize then SupplyRead(Some(raw.value as real), cache)
    else
      var d := DecimalsRead(cache, e.decimalsAttempts, s);
      if d.None? then SupplyRead(None, cache)
      else SupplyRead(Some(Normalize(raw.value, d.value)), d)
  }

  /** The token contract as seen through one RPC endpoint. */
  class ERC20Token {
    /** The memoised result of `decimals()`; failures are not memoised. */
    var decimalsCache: Option<int>

    constructor ()
      ensures decimalsCache == None
    {
      decimalsCache := None;
    }

    /** `decimals()`: asks the chain only while nothing is memoised. */
    method Decimals(outcomes: seq<Option<int>>, s: Settings.Settings) returns (r: Option<int>)
      modifies this
      ensures old(decimalsCache).Some? ==> r == old(decimalsCache)
      ensures old(decimalsCache).None? ==> r == Retry(outcomes, s.web3RetryAttempts)
      ensures decimalsCache == r
    {
      if decimalsCache.Some? {
        return decimalsCache;
      }
      var calls, sleeps;
      r, calls, sleeps := MakeWeb3Call(outcomes, s);
      if r.Some? {
        decimalsCache := r;
      }
    }

    /** `totalSupply(normalize)`: `None` when a read raised. */
    method TotalSupply(normalize: bool, e: Endpoint, s: Settings.Settings) returns (r: Option<real>)
      modifies this
      ensures r == ReadSupply(old(decimalsCache), e, s, normalize).value
      ensures decimalsCache == ReadSupply(old(decimalsCache), e, s, normalize).cache
      ensures !normalize ==> r == (var raw := Retry(e.supplyAttempts, s.web3RetryAttempts);
                                   if raw.Some? then Some(raw.value as real) else None)
    {
      var raw, calls, sleeps := MakeWeb3Call(e.supplyAttempts, s);
      if raw.None? {
        return None;
      }
      if normalize {
        var d := Decimals(e.decimalsAttempts, s);
        if d.None? {
          return None;
        }
        r := Some(Normalize(raw.value, d.value));
      } else {
        r := Some(raw.value as real);
      }
    }
  }
}
