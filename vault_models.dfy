/**
 * The vault snapshot uploaded per chain and the shapes the query layer
 * returns. Decimal fields, the trade and pair timestamps among them, are
 * exact reals.
 */
module VaultModels {
  import opened Wrappers

  datatype Trade = Trade(
    tradeId: int,
    price: real,
    baseVolume: real,
    targetVolume: real,
    tradeTimestamp: real,
    kind: string)

  /** Both sides are optional; the empty model has neither. */
  datatype PairTrades = PairTrades(buy: Option<seq<Trade>>, sell: Option<seq<Trade>>)

  const EmptyTrades: PairTrades := PairTrades(None, None)

  /** The accepted values of the `type` query parameter. */
  datatype Side = Buy | Sell

  function SideOf(t: PairTrades, side: Side): Option<seq<Trade>>
  {
    match side
    case Buy => t.buy
    case Sell => t.sell
  }

  /** The model built from `{type: list}`: only the requested side is present. */
  function OnlySide(side: Side, trades: seq<Trade>): (r: PairTrades)
    ensures SideOf(r, side) == Some(trades)
    ensures SideOf(r, if side == Buy then Sell else Buy) == None
  {
    match side
    case Buy => PairTrades(Some(trades), None)
    case Sell => PairTrades(None, Some(trades))
  }

  /** Price levels; a field left out of the upload defaults to `[[]]`. */
  datatype PairOrderbook = PairOrderbook(bids: seq<seq<real>>, asks: seq<seq<real>>)

  const DefaultLevels: seq<seq<real>> := [[]]

  datatype PairData = PairData(
    poolId: string,
    baseCurrency: string,
    targetCurrency: string,
    lastPrice: real,
    baseVolume: real,
    targetVolume: real,
    bid: real,
    ask: real,
    high: real,
    low: real,
    timestamp: real,
    orderbook: PairOrderbook,
    trades: PairTrades)

  /**
   * One top-level value of an uploaded or stored document, classified by how
   * `check_timestamp` and then `Union[PairDataModel, int]` treat it:
   * a JSON integer; `true` or `false`, which Python counts as an `int`;
   * another scalar that `int()` accepts, such as `2.5` or `"7"`, with the
   * integer it becomes; an object that validates as a pair; anything else.
   */
  datatype RawValue =
    | RawInt(n: int)
    | RawBool(b: bool)
    | RawCoercible(n: int)
    | RawPair(pair: PairData)
    | RawMalformed

  type RawRoot = map<string, RawValue>

  /** `isinstance(v, int)`: true for integers and for booleans. */
  predicate IsPyInt(v: RawValue)
  {
    v.RawInt? || v.RawBool?
  }

  /**
   * The rule `check_timestamp` enforces before any coercion: `timestamp`
   * holds an `int`, and no other key does.
   */
  predicate TimestampRule(raw: RawRoot)
  {
    && "timestamp" in raw && IsPyInt(raw["timestamp"])
    && forall k :: k in raw && IsPyInt(raw[k]) ==> k == "timestamp"
  }

  /** Every value validates as `Union[PairDataModel, int]`. */
  predicate WellTyped(raw: RawRoot)
  {
    forall k :: k in raw ==> !raw[k].RawMalformed?
  }

  predicate ValidRoot(raw: RawRoot)
  {
    TimestampRule(raw) && WellTyped(raw)
  }

  /** A validated value of `Union[PairDataModel, int]`. */
  datatype Value = IntValue(n: int) | PairValue(pair: PairData)

  /** A validated snapshot: its root mapping, whose `timestamp` is an integer. */
  type VaultData = d: map<string, Value> | "timestamp" in d && d["timestamp"].IntValue?
    witness map["timestamp" := IntValue(0)]

  /** The union tries the pair model first, then `int(v)`. */
  function Coerce(v: RawValue): (r: Value)
    requires !v.RawMalformed?
    ensures r.PairValue? <==> v.RawPair?
  {
    match v
    case RawInt(n) => IntValue(n)
    case RawBool(b) => IntValue(if b then 1 else 0)
    case RawCoercible(n) => IntValue(n)
    case RawPair(p) => PairValue(p)
  }

  function Timestamp(d: VaultData): int
  {
    d["timestamp"].n
  }

  /** `pairs()`: every top-level key except `timestamp`. */
  function PairIds(d: VaultData): (r: set<string>)
    ensures forall k :: k in r <==> k in d && k != "timestamp"
  {
    d.Keys - {"timestamp"}
  }

  /** Every key but `timestamp` holds pair data, as the query handlers expect. */
  predicate PairsOnly(d: VaultData)
  {
    forall k :: k in d && k != "timestamp" ==> d[k].PairValue?
  }

  /** The key is listed by `pairs()` and holds pair data. */
  predicate HoldsPair(d: VaultData, id: string)
  {
    id in d && id != "timestamp" && d[id].PairValue?
  }

  /**
   * `pairs()` as called: the key set minus `timestamp` turned into a list,
   * in set-iteration order. Every pair id appears exactly once.
   */
  method PairsList(d: VaultData) returns (ids: seq<string>)
    ensures |ids| == |PairIds(d)|
    ensures forall i, j :: 0 <= i < j < |ids| ==> ids[i] != ids[j]
    ensures forall i :: 0 <= i < |ids| ==> ids[i] in PairIds(d)
    ensures forall id :: id in PairIds(d) ==> id in ids
  {
    var keys := d.Keys - {"timestamp"};
    ids := [];
    var todo := keys;
    while todo != {}
      invariant todo <= keys
      invariant |ids| + |todo| == |keys|
      invariant forall i, j :: 0 <= i < j < |ids| ==> ids[i] != ids[j]
      invariant forall i :: 0 <= i < |ids| ==> ids[i] in keys && ids[i] !in todo
      invariant forall id :: id in keys ==> id in ids || id in todo
      decreases todo
    {
      var k :| k in todo;
      ids := ids + [k];
      todo := todo - {k};
    }
  }

  function Pair(d: VaultData, id: string): PairData
    requires HoldsPair(d, id)
  {
    d[id].pair
  }

  /** How `dict()` writes a validated value out: integers as integers, pairs as objects. */
  function Dump(v: Value): RawValue
  {
    match v
    case IntValue(n) => RawInt(n)
    case PairValue(p) => RawPair(p)
  }

  /** `dict()`: the root mapping, ready to be written out. */
  function Dict(d: VaultData): RawRoot
  {
    map k | k in d :: Dump(d[k])
  }

  /** Parsing a document: the coerced snapshot, or `None` for a validation error. */
  function Parse(raw: RawRoot): (r: Option<VaultData>)
    ensures r.Some? <==> ValidRoot(raw)
    ensures r.Some? ==> forall k :: k in r.value <==> k in raw
  {
    if ValidRoot(raw) then Some(map k | k in raw :: Coerce(raw[k])) else None
  }

  /** The parsed `timestamp`: the integer itself, or 1 and 0 for `true` and `false`. */
  lemma ParsedTimestamp(raw: RawRoot)
    requires Parse(raw).Some?
    ensures raw["timestamp"].RawInt? ==> Timestamp(Parse(raw).value) == raw["timestamp"].n
    ensures raw["timestamp"] == RawBool(true) ==> Timestamp(Parse(raw).value) == 1
    ensures raw["timestamp"] == RawBool(false) ==> Timestamp(Parse(raw).value) == 0
  {
  }

  /**
   * Writing a snapshot out and parsing it back gives the same snapshot
   * exactly when no key but `timestamp` holds an integer; otherwise the
   * written document fails `check_timestamp`.
   */
  lemma DictRoundTrip(d: VaultData)
    ensures PairsOnly(d) ==> Parse(Dict(d)) == Some(d)
    ensures !PairsOnly(d) ==> Parse(Dict(d)) == None
    ensures forall k :: k in Dict(d) <==> k in d
  {
    var raw := Dict(d);
    if PairsOnly(d) {
      assert ValidRoot(raw);
      var back := Parse(raw).value;
      assert forall k :: k in back ==> back[k] == d[k];
      assert back == d;
    } else {
      var k :| k in d && k != "timestamp" && !d[k].PairValue?;
      assert raw[k].RawInt?;
    }
  }

  /**
   * An upload with a non-integer scalar under a pair key, such as
   * `{"timestamp": 1, "x": 2.5}`, validates, but the snapshot written from
   * it does not: `x` is stored as the integer 2.
   */
  lemma CoercedValueBreaksReload(raw: RawRoot, k: string)
    requires ValidRoot(raw) && k in raw && raw[k].RawCoercible?
    ensures Parse(raw).Some? && !PairsOnly(Parse(raw).value)
    ensures Parse(Dict(Parse(raw).value)) == None
  {
    assert Parse(raw).value[k] == IntValue(raw[k].n);
    DictRoundTrip(Parse(raw).value);
  }

  /**
   * `check_timestamp`: the loop over the keys with its `timestamp_exist`
   * flag; `true` when the document passes.
   */
  method CheckTimestamp(raw: RawRoot) returns (ok: bool)
    ensures ok <==> TimestampRule(raw)
  {
    var timestampExist := false;
    var todo := raw.Keys;
    while todo != {}
      invariant todo <= raw.Keys
      invariant timestampExist <==> "timestamp" in raw.Keys - todo && IsPyInt(raw["timestamp"])
      invariant forall k :: k in raw.Keys - todo && IsPyInt(raw[k]) ==> k == "timestamp"
      decreases todo
    {
      var k :| k in todo;
      if IsPyInt(raw[k]) {
        if k == "timestamp" {
          timestampExist := true;
        } else {
          return false;
        }
      }
      todo := todo - {k};
    }
    ok := timestampExist;
  }

  /**
   * `parse_raw` on a document: `check_timestamp`, then each value
   * validated, and coerced, as `Union[PairDataModel, int]`.
   */
  method ParseRoot(raw: RawRoot) returns (r: Option<VaultData>)
    ensures r == Parse(raw)
  {
    var ok := CheckTimestamp(raw);
    if !ok {
      return None;
    }
    var out: map<string, Value> := map[];
    var todo := raw.Keys;
    while todo != {}
      invariant todo <= raw.Keys
      invariant forall k :: k in out <==> k in raw && k !in todo
      invariant forall k :: k in out ==> !raw[k].RawMalformed? && out[k] == Coerce(raw[k])
      decreases todo
    {
      var k :| k in todo;
      if raw[k].RawMalformed? {
        return None;
      }
      out := out[k := Coerce(raw[k])];
      todo := todo - {k};
    }
    assert out == map k | k in raw :: Coerce(raw[k]);
    r := Some(out);
  }

  /** An integer or a boolean under any key but `timestamp` is rejected. */
  lemma {:induction false} ExtraIntRejected(raw: RawRoot, k: string)
    requires k != "timestamp" && k in raw && IsPyInt(raw[k])
    ensures Parse(raw) == None
  {
  }

  /**
   * A `timestamp` that is missing, or neither an integer nor a boolean, is
   * rejected: `1.0` or `"1"` do not count as `int` before coercion.
   */
  lemma {:induction false} TimestampRequired(raw: RawRoot)
    requires "timestamp" !in raw || !IsPyInt(raw["timestamp"])
    ensures Parse(raw) == None
  {
  }

  datatype PairOut = PairOut(tickerId: string, base: string, target: string, poolId: string)

  datatype TickerOut = TickerOut(
    tickerId: string,
    poolId: string,
    baseCurrency: string,
    targetCurrency: string,
    lastPrice: real,
    baseVolume: real,
    targetVolume: real,
    bid: real,
    ask: real,
    high: real,
    low: real)

  datatype OrderbookOut = OrderbookOut(tickerId: string, timestamp: real, bids: seq<seq<real>>, asks: seq<seq<real>>)

  /** `OrderbookOut()`: every field at its default. */
  const EmptyOrderbook: OrderbookOut := OrderbookOut("", 0.0, DefaultLevels, DefaultLevels)

  /** The listing entry of a pair. */
  function PairOutOf(id: string, p: PairData): PairOut
  {
    PairOut(id, p.baseCurrency, p.targetCurrency, p.poolId)
  }

  /** The ticker fields of a pair, with `ticker_id` added. */
  function TickerOf(id: string, p: PairData): TickerOut
  {
    TickerOut(id, p.poolId, p.baseCurrency, p.targetCurrency, p.lastPrice,
      p.baseVolume, p.targetVolume, p.bid, p.ask, p.high, p.low)
  }
}
