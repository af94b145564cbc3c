/**
 * The statistics document: two periods of figures under one timestamp.
 * Both levels forbid extra fields, and the snapshot file holds the document
 * with every decimal written as its text.
 */
module StatsModels {
  import opened Wrappers

  /** The JSON values the snapshot file can hold; `JDec` is a decimal written as text. */
  datatype Json = JInt(i: int) | JDec(d: real) | JStr(s: string) | JObj(fields: map<string, Json>)

  datatype Period = Period(
    timestamp: int,
    totalSupply: real,
    collaterisedCirculatedSupply: real,
    volumeUSD: real,
    holders: int)

  datatype TwoPeriods = TwoPeriods(timestamp: int, current: Period, previous: Period)

  const PeriodKeys: set<string> := {"timestamp", "totalSupply", "collaterisedCirculatedSupply", "volumeUSD", "holders"}
  const TwoPeriodsKeys: set<string> := {"timestamp", "current", "previous"}

  const EmptyPeriod: Period := Period(0, 0.0, 0.0, 0.0, 0)

  /** The answer served when no valid document is available, stamped with the read time. */
  function EmptyResponse(readTime: int): TwoPeriods
  {
    TwoPeriods(readTime, EmptyPeriod, EmptyPeriod)
  }

  /** An `int` field takes a JSON integer. */
  function AsInt(j: Json): (r: Option<int>)
    ensures r.Some? <==> j.JInt?
    ensures r.Some? ==> r.value == j.i
  {
    if j.JInt? then Some(j.i) else None
  }

  /** A `Decimal` field takes its text form or an integer. */
  function AsDecimal(j: Json): (r: Option<real>)
    ensures r.Some? <==> j.JDec? || j.JInt?
    ensures j.JDec? ==> r == Some(j.d)
    ensures j.JInt? ==> r == Some(j.i as real)
  {
    match j
    case JDec(d) => Some(d)
    case JInt(i) => Some(i as real)
    case _ => None
  }

  /** Each field of a period holds a value of its declared type. */
  predicate PeriodTyped(f: map<string, Json>)
    requires f.Keys == PeriodKeys
  {
    && f["timestamp"].JInt? && f["holders"].JInt?
    && AsDecimal(f["totalSupply"]).Some?
    && AsDecimal(f["collaterisedCirculatedSupply"]).Some?
    && AsDecimal(f["volumeUSD"]).Some?
  }

  /**
   * A period parses exactly from an object with the period's fields, each
   * of its declared type, and carries those fields' values.
   */
  function ParsePeriod(j: Json): (r: Option<Period>)
    ensures r.Some? <==> j.JObj? && j.fields.Keys == PeriodKeys && PeriodTyped(j.fields)
    ensures r.Some? ==>
      && r.value.timestamp == j.fields["timestamp"].i
      && r.value.holders == j.fields["holders"].i
      && Some(r.value.totalSupply) == AsDecimal(j.fields["totalSupply"])
      && Some(r.value.collaterisedCirculatedSupply) == AsDecimal(j.fields["collaterisedCirculatedSupply"])
      && Some(r.value.volumeUSD) == AsDecimal(j.fields["volumeUSD"])
  {
    if !j.JObj? || j.fields.Keys != PeriodKeys then None
    else
      var f := j.fields;
      var ts := AsInt(f["timestamp"]);
      var total := AsDecimal(f["totalSupply"]);
      var collat := AsDecimal(f["collaterisedCirculatedSupply"]);
      var volume := AsDecimal(f["volumeUSD"]);
      var holders := AsInt(f["holders"]);
      if ts.Some? && total.Some? && collat.Some? && volume.Some? && holders.Some? then
        Some(Period(ts.value, total.value, collat.value, volume.value, holders.value))
      else None
  }

  /**
   * `parse_raw` of the two-period document: it parses exactly from an
   * object with `timestamp`, `current` and `previous`, an integer
   * timestamp and two valid periods, and carries their values.
   */
  function ParseTwo(j: Json): (r: Option<TwoPeriods>)
    ensures r.Some? <==>
      && j.JObj? && j.fields.Keys == TwoPeriodsKeys && j.fields["timestamp"].JInt?
      && ParsePeriod(j.fields["current"]).Some? && ParsePeriod(j.fields["previous"]).Some?
    ensures r.Some? ==>
      && r.value.timestamp == j.fields["timestamp"].i
      && Some(r.value.current) == ParsePeriod(j.fields["current"])
      && Some(r.value.previous) == ParsePeriod(j.fields["previous"])
  {
    if !j.JObj? || j.fields.Keys != TwoPeriodsKeys then None
    else
      var f := j.fields;
      var ts := AsInt(f["timestamp"]);
      var current := ParsePeriod(f["current"]);
      var previous := ParsePeriod(f["previous"]);
      if ts.Some? && current.Some? && previous.Some? then
        Some(TwoPeriods(ts.value, current.value, previous.value))
      else None
  }

  function DumpPeriod(p: Period): Json
  {
    JObj(map[
      "timestamp" := JInt(p.timestamp),
      "totalSupply" := JDec(p.totalSupply),
      "collaterisedCirculatedSupply" := JDec(p.collaterisedCirculatedSupply),
      "volumeUSD" := JDec(p.volumeUSD),
      "holders" := JInt(p.holders)])
  }

  /** `_dump`: the document as written to the snapshot file. */
  function DumpTwo(x: TwoPeriods): Json
  {
    JObj(map["timestamp" := JInt(x.timestamp), "current" := DumpPeriod(x.current), "previous" := DumpPeriod(x.previous)])
  }

  lemma PeriodRoundTrip(p: Period)
    ensures ParsePeriod(DumpPeriod(p)) == Some(p)
  {
    assert DumpPeriod(p).fields.Keys == PeriodKeys;
  }

  /** What is dumped reads back as the same document. */
  lemma {:induction false} RoundTrip(x: TwoPeriods)
    ensures ParseTwo(DumpTwo(x)) == Some(x)
  {
    assert DumpTwo(x).fields.Keys == TwoPeriodsKeys;
    PeriodRoundTrip(x.current);
    PeriodRoundTrip(x.previous);
  }

  /** A field outside the model, at the top or inside a period, rejects the document. */
  lemma ExtraFieldRejected(j: Json, k: string)
    requires j.JObj? && k in j.fields
    ensures k !in TwoPeriodsKeys ==> ParseTwo(j) == None
    ensures k !in PeriodKeys ==> ParsePeriod(j) == None
  {
  }

  /**
   * A field of the wrong type rejects the document: an `int` field holding
   * anything but an integer, a `Decimal` field holding neither text nor an
   * integer, or a period that does not parse.
   */
  lemma WrongTypeRejected(j: Json, k: string)
    requires j.JObj? && k in j.fields
    ensures k in {"timestamp", "holders"} && !j.fields[k].JInt? ==> ParsePeriod(j) == None
    ensures k in {"totalSupply", "collaterisedCirculatedSupply", "volumeUSD"} && AsDecimal(j.fields[k]).None? ==>
      ParsePeriod(j) == None
    ensures k == "timestamp" && !j.fields[k].JInt? ==> ParseTwo(j) == None
    ensures k in {"current", "previous"} && ParsePeriod(j.fields[k]).None? ==> ParseTwo(j) == None
  {
  }

  /** A missing field rejects the document as well. */
  lemma MissingFieldRejected(j: Json, k: string)
    requires j.JObj? && k !in j.fields
    ensures k in TwoPeriodsKeys ==> ParseTwo(j) == None
    ensures k in PeriodKeys ==> ParsePeriod(j) == None
  {
  }
}
