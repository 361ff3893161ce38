/**
 * The browser-side CSV pipeline: rows already split by the tokenizer are
 * mapped to equipment records, rows without a name are dropped, and a summary
 * (count, mean/min/max per metric, type histogram) is computed. Also the
 * demo data generator.
 *
 * `parseFloat` is a parameter: `None` stands for NaN.
 */
module CsvParser {
  import opened Wrappers
  import opened Strings
  import opened EquipmentTypes

  /** One row from the tokenizer with `header: true`: column name to cell text. */
  type Row = map<string, string>

  /** JavaScript's `parseFloat`, with `None` for NaN. */
  type ParseFloat = string -> Option<real>

  const NameKeys: seq<string> := ["Equipment Name", "equipment_name", "EquipmentName"]
  const TypeKeys: seq<string> := ["Type", "type"]
  const FlowrateKeys: seq<string> := ["Flowrate", "flowrate"]
  const PressureKeys: seq<string> := ["Pressure", "pressure"]
  const TemperatureKeys: seq<string> := ["Temperature", "temperature"]

  // ---------------------------------------------------------------------------
  // Field resolution
  // ---------------------------------------------------------------------------

  /** `row[k]` is truthy: present and not the empty string. */
  predicate Truthy(row: Row, k: string)
  {
    k in row && row[k] != ""
  }

  /** `row[k0] || row[k1] || ...`: the first truthy cell among the key spellings, if any. */
  function FirstTruthy(row: Row, keys: seq<string>): (r: Option<string>)
    ensures r.None? <==> forall i :: 0 <= i < |keys| ==> !Truthy(row, keys[i])
    ensures r.Some? ==> (r.value != "" &&
      exists i :: 0 <= i < |keys| && Truthy(row, keys[i]) && row[keys[i]] == r.value &&
        forall j :: 0 <= j < i ==> !Truthy(row, keys[j]))
  {
    if keys == [] then None
    else if Truthy(row, keys[0]) then Some(row[keys[0]])
    else
      var r := FirstTruthy(row, keys[1..]);
      if r.Some? then
        var i :| 0 <= i < |keys[1..]| && Truthy(row, keys[1..][i]) && row[keys[1..][i]] == r.value &&
          forall j :: 0 <= j < i ==> !Truthy(row, keys[1..][j]);
        assert keys[i + 1] == keys[1..][i];
        r
      else
        r
  }

  /** `String(row[k0] || ... || '')`. */
  function ResolveText(row: Row, keys: seq<string>): string
  {
    FirstTruthy(row, keys).GetOr("")
  }

  /**
   * `parseFloat(String(row[k0] || row[k1] || 0)) || 0`. With no truthy cell the
   * text is `String(0)`, which parses as 0; a NaN parse also gives 0.
   */
  function ResolveNumber(row: Row, keys: seq<string>, parseFloat: ParseFloat): real
  {
    match FirstTruthy(row, keys)
    case None => 0.0
    case Some(v) => parseFloat(v).GetOr(0.0)
  }

  /** `eq-${index + 1}`. */
  function RecordId(index: nat): string
  {
    "eq-" + NatToString(index + 1)
  }

  /** Record ids of distinct row positions are distinct. */
  lemma RecordIdDistinct(a: nat, b: nat)
    requires a != b
    ensures RecordId(a) != RecordId(b)
  {
    assert RecordId(a)[3..] == NatToString(a + 1);
    assert RecordId(b)[3..] == NatToString(b + 1);
    NatToStringDistinct(a + 1, b + 1);
  }

  /** Two spellings tried in order. */
  lemma FirstTruthy2(row: Row, a: string, b: string)
    ensures FirstTruthy(row, [a, b]) ==
      if Truthy(row, a) then Some(row[a]) else if Truthy(row, b) then Some(row[b]) else None
  {
    assert [a, b][1..] == [b];
    assert [b][1..] == [];
  }

  /** Three spellings tried in order. */
  lemma FirstTruthy3(row: Row, a: string, b: string, c: string)
    ensures FirstTruthy(row, [a, b, c]) ==
      if Truthy(row, a) then Some(row[a]) else if Truthy(row, b) then Some(row[b])
      else if Truthy(row, c) then Some(row[c]) else None
  {
    assert [a, b, c][1..] == [b, c];
    FirstTruthy2(row, b, c);
  }

  /** The `map` callback: row at 0-based position `index` to a record. */
  function NormalizeRow(row: Row, index: nat, parseFloat: ParseFloat): EquipmentRecord
  {
    EquipmentRecord(
      RecordId(index),
      ResolveText(row, NameKeys),
      ResolveText(row, TypeKeys),
      ResolveNumber(row, FlowrateKeys, parseFloat),
      ResolveNumber(row, PressureKeys, parseFloat),
      ResolveNumber(row, TemperatureKeys, parseFloat))
  }

  /**
   * Field resolution: the name comes from the first truthy spelling among
   * `Equipment Name`, `equipment_name`, `EquipmentName`, the type from `Type`
   * then `type`, each defaulting to the empty string; a metric is the parsed
   * first truthy spelling, and 0 when there is none or it does not parse.
   */
  lemma NormalizeRowFields(row: Row, index: nat, parseFloat: ParseFloat)
    ensures var r := NormalizeRow(row, index, parseFloat);
      && r.id == RecordId(index)
      && r.equipmentName == (
           if Truthy(row, "Equipment Name") then row["Equipment Name"]
           else if Truthy(row, "equipment_name") then row["equipment_name"]
           else if Truthy(row, "EquipmentName") then row["EquipmentName"]
           else "")
      && r.equipmentType == (
           if Truthy(row, "Type") then row["Type"] else if Truthy(row, "type") then row["type"] else "")
      && r.flowrate == (
           if Truthy(row, "Flowrate") then parseFloat(row["Flowrate"]).GetOr(0.0)
           else if Truthy(row, "flowrate") then parseFloat(row["flowrate"]).GetOr(0.0)
           else 0.0)
      && r.pressure == (
           if Truthy(row, "Pressure") then parseFloat(row["Pressure"]).GetOr(0.0)
           else if Truthy(row, "pressure") then parseFloat(row["pressure"]).GetOr(0.0)
           else 0.0)
      && r.temperature == (
           if Truthy(row, "Temperature") then parseFloat(row["Temperature"]).GetOr(0.0)
           else if Truthy(row, "temperature") then parseFloat(row["temperature"]).GetOr(0.0)
           else 0.0)
  {
    FirstTruthy3(row, "Equipment Name", "equipment_name", "EquipmentName");
    FirstTruthy2(row, "Type", "type");
    FirstTruthy2(row, "Flowrate", "flowrate");
    FirstTruthy2(row, "Pressure", "pressure");
    FirstTruthy2(row, "Temperature", "temperature");
  }

  // ---------------------------------------------------------------------------
  // Map, then filter
  // ---------------------------------------------------------------------------

  /** `results.data.map(...)`: every row mapped, ids from the unfiltered position. */
  function MapRows(rows: seq<Row>, parseFloat: ParseFloat): (ms: seq<EquipmentRecord>)
    ensures |ms| == |rows|
    ensures forall i :: 0 <= i < |rows| ==> ms[i] == NormalizeRow(rows[i], i, parseFloat)
  {
    seq(|rows|, i requires 0 <= i < |rows| => NormalizeRow(rows[i], i, parseFloat))
  }

  /** `.filter(item => item.equipmentName)`: keeps the records whose name is not the empty string. */
  function KeepNamed(ms: seq<EquipmentRecord>): (r: seq<EquipmentRecord>)
    ensures |r| <= |ms|
    ensures forall k :: 0 <= k < |r| ==> r[k].equipmentName != "" && r[k] in ms
  {
    if ms == [] then []
    else
      var last := ms[|ms| - 1];
      var rest := KeepNamed(ms[..|ms| - 1]);
      if last.equipmentName != "" then rest + [last] else rest
  }

  /** The positions `KeepNamed` keeps, in order. */
  ghost function KeptIndices(ms: seq<EquipmentRecord>): seq<nat>
  {
    if ms == [] then []
    else
      var rest := KeptIndices(ms[..|ms| - 1]);
      if ms[|ms| - 1].equipmentName != "" then rest + [|ms| - 1] else rest
  }

  /** `idx` lists the positions of `ms` that `out` keeps: strictly increasing, exactly the named ones. */
  ghost predicate SelectsNamed(ms: seq<EquipmentRecord>, out: seq<EquipmentRecord>, idx: seq<nat>)
  {
    && |idx| == |out|
    && (forall k :: 0 <= k < |idx| ==> idx[k] < |ms| && out[k] == ms[idx[k]])
    && (forall k, l :: 0 <= k < l < |idx| ==> idx[k] < idx[l])
    && (forall i :: 0 <= i < |ms| ==> (i in idx <==> ms[i].equipmentName != ""))
  }

  lemma {:induction false} KeepNamedSelects(ms: seq<EquipmentRecord>)
    ensures SelectsNamed(ms, KeepNamed(ms), KeptIndices(ms))
    ensures forall k :: 0 <= k < |KeptIndices(ms)| ==> KeptIndices(ms)[k] < |ms|
  {
    if ms != [] {
      var init := ms[..|ms| - 1];
      KeepNamedSelects(init);
      var out, idx := KeepNamed(ms), KeptIndices(ms);
      var out0, idx0 := KeepNamed(init), KeptIndices(init);
      forall i | 0 <= i < |ms|
        ensures i in idx <==> ms[i].equipmentName != ""
      {
        if i < |ms| - 1 {
          assert ms[i] == init[i];
          assert i in idx <==> i in idx0;
        }
      }
    }
  }

  /** The record mapping and name filter of `parseCSVFile`. */
  function NormalizeRows(rows: seq<Row>, parseFloat: ParseFloat): seq<EquipmentRecord>
  {
    KeepNamed(MapRows(rows, parseFloat))
  }

  /**
   * `idx` records, for each output record, the 0-based position of the row it
   * came from: positions strictly increase (input order is kept), each record
   * is that row normalised with that position's id, and a row survives exactly
   * when its resolved name is not the empty string.
   */
  ghost predicate SurvivorIndices(rows: seq<Row>, out: seq<EquipmentRecord>, idx: seq<nat>, parseFloat: ParseFloat)
  {
    && |idx| == |out|
    && (forall k :: 0 <= k < |idx| ==> idx[k] < |rows| && out[k] == NormalizeRow(rows[idx[k]], idx[k], parseFloat))
    && (forall k, l :: 0 <= k < l < |idx| ==> idx[k] < idx[l])
    && (forall i :: 0 <= i < |rows| ==> (i in idx <==> ResolveText(rows[i], NameKeys) != ""))
  }

  lemma NormalizeRowsSelects(rows: seq<Row>, parseFloat: ParseFloat)
    ensures exists idx :: SurvivorIndices(rows, NormalizeRows(rows, parseFloat), idx, parseFloat)
  {
    var ms := MapRows(rows, parseFloat);
    KeepNamedSelects(ms);
    assert SurvivorIndices(rows, NormalizeRows(rows, parseFloat), KeptIndices(ms), parseFloat);
  }

  /** Every kept record has a non-empty name, and the kept records carry pairwise distinct ids. */
  lemma NormalizedNamesAndIds(rows: seq<Row>, parseFloat: ParseFloat)
    ensures forall k :: 0 <= k < |NormalizeRows(rows, parseFloat)| ==> NormalizeRows(rows, parseFloat)[k].equipmentName != ""
    ensures forall k, l :: 0 <= k < l < |NormalizeRows(rows, parseFloat)| ==>
      NormalizeRows(rows, parseFloat)[k].id != NormalizeRows(rows, parseFloat)[l].id
  {
    var out := NormalizeRows(rows, parseFloat);
    NormalizeRowsSelects(rows, parseFloat);
    var idx :| SurvivorIndices(rows, out, idx, parseFloat);
    forall k, l | 0 <= k < l < |out|
      ensures out[k].id != out[l].id
    {
      RecordIdDistinct(idx[k], idx[l]);
    }
  }

  /** A row whose only cell is its name. */
  lemma NameOnlyRow(name: string, index: nat, parseFloat: ParseFloat)
    ensures NormalizeRow(map["Equipment Name" := name], index, parseFloat) ==
      EquipmentRecord(RecordId(index), name, "", 0.0, 0.0, 0.0)
  {
    NormalizeRowFields(map["Equipment Name" := name], index, parseFloat);
  }

  /** Only the exact empty string is dropped: a whitespace-only name survives. */
  lemma WhitespaceNameKept(parseFloat: ParseFloat)
    ensures NormalizeRows([map["Equipment Name" := "  "]], parseFloat) ==
      [EquipmentRecord("eq-1", "  ", "", 0.0, 0.0, 0.0)]
  {
    var rows := [map["Equipment Name" := "  "]];
    NameOnlyRow("  ", 0, parseFloat);
    assert NatToString(1) == "1";
    var rec := EquipmentRecord("eq-1", "  ", "", 0.0, 0.0, 0.0);
    var ms := MapRows(rows, parseFloat);
    assert RecordId(0) == "eq-1";
    assert ms[0] == NormalizeRow(map["Equipment Name" := "  "], 0, parseFloat);
    assert ms[0] == rec;
    assert ms == [rec];
    assert ms[..0] == [];
    assert KeepNamed(ms) == KeepNamed([]) + [rec];
  }

  /** Ids come from the position before filtering: a dropped first row leaves the survivor with `eq-2`. */
  lemma IdsSkipDroppedRows(parseFloat: ParseFloat)
    ensures NormalizeRows([map["Equipment Name" := ""], map["Equipment Name" := "Pump A"]], parseFloat) ==
      [EquipmentRecord("eq-2", "Pump A", "", 0.0, 0.0, 0.0)]
  {
    var rows := [map["Equipment Name" := ""], map["Equipment Name" := "Pump A"]];
    NameOnlyRow("", 0, parseFloat);
    NameOnlyRow("Pump A", 1, parseFloat);
    assert NatToString(2) == "2";
    var dropped := EquipmentRecord(RecordId(0), "", "", 0.0, 0.0, 0.0);
    var rec := EquipmentRecord("eq-2", "Pump A", "", 0.0, 0.0, 0.0);
    var ms := MapRows(rows, parseFloat);
    assert RecordId(1) == "eq-2";
    assert ms[1] == NormalizeRow(map["Equipment Name" := "Pump A"], 1, parseFloat);
    assert ms[0] == NormalizeRow(map["Equipment Name" := ""], 0, parseFloat);
    assert ms == [dropped, rec];
    assert ms[..1] == [dropped];
    assert [dropped][..0] == [];
    assert KeepNamed([dropped]) == [];
    assert KeepNamed(ms) == KeepNamed([dropped]) + [rec];
  }

  // ---------------------------------------------------------------------------
  // Summary
  // ---------------------------------------------------------------------------

  datatype Metric = Flowrate | Pressure | Temperature

  function MetricOf(r: EquipmentRecord, m: Metric): real
  {
    match m
    case Flowrate => r.flowrate
    case Pressure => r.pressure
    case Temperature => r.temperature
  }

  /** `data.map(d => d.flowrate)` and its siblings. */
  function Values(data: seq<EquipmentRecord>, m: Metric): (xs: seq<real>)
    ensures |xs| == |data|
    ensures forall i :: 0 <= i < |data| ==> xs[i] == MetricOf(data[i], m)
  {
    seq(|data|, i requires 0 <= i < |data| => MetricOf(data[i], m))
  }

  /** `xs.reduce((a, b) => a + b, 0)`, folded left to right. */
  function Sum(xs: seq<real>): real
  {
    if xs == [] then 0.0 else Sum(xs[..|xs| - 1]) + xs[|xs| - 1]
  }

  function Min(a: real, b: real): real { if a <= b then a else b }
  function Max(a: real, b: real): real { if a >= b then a else b }

  /** `Math.min(...xs)` on a non-empty list: the least element, and one of them. */
  function MinOf(xs: seq<real>): (r: real)
    requires xs != []
    ensures r in xs
    ensures forall i :: 0 <= i < |xs| ==> r <= xs[i]
  {
    if |xs| == 1 then xs[0]
    else
      var m := MinOf(xs[..|xs| - 1]);
      assert m in xs;
      Min(m, xs[|xs| - 1])
  }

  /** `Math.max(...xs)` on a non-empty list: the greatest element, and one of them. */
  function MaxOf(xs: seq<real>): (r: real)
    requires xs != []
    ensures r in xs
    ensures forall i :: 0 <= i < |xs| ==> xs[i] <= r
  {
    if |xs| == 1 then xs[0]
    else
      var m := MaxOf(xs[..|xs| - 1]);
      assert m in xs;
      Max(m, xs[|xs| - 1])
  }

  /** How many records have exactly type `t`. */
  function Count(data: seq<EquipmentRecord>, t: string): (n: nat)
    ensures n <= |data|
  {
    if data == [] then 0
    else Count(data[..|data| - 1], t) + (if data[|data| - 1].equipmentType == t then 1 else 0)
  }

  function TypesIn(data: seq<EquipmentRecord>): set<string>
  {
    set i | 0 <= i < |data| :: data[i].equipmentType
  }

  /** The type histogram: every type that occurs, mapped to its number of occurrences. */
  function TypeCounts(data: seq<EquipmentRecord>): map<string, nat>
  {
    map t | t in TypesIn(data) :: Count(data, t)
  }

  /** The summary `calculateSummary` returns, for an empty list the all-zero one. */
  function SummaryOf(data: seq<EquipmentRecord>): (s: DataSummary)
    ensures s.totalCount == |data|
    ensures s.typeDistribution.Keys == TypesIn(data)
    ensures forall t :: t in s.typeDistribution ==> s.typeDistribution[t] == Count(data, t) && s.typeDistribution[t] > 0
    ensures |data| == 0 ==> s == DataSummary(0, 0.0, 0.0, 0.0, map[], 0.0, 0.0, 0.0, 0.0, 0.0, 0.0)
  {
    CountPositive(data);
    if |data| == 0 then
      DataSummary(0, 0.0, 0.0, 0.0, map[], 0.0, 0.0, 0.0, 0.0, 0.0, 0.0)
    else
      var n := |data| as real;
      var fs, ps, ts := Values(data, Flowrate), Values(data, Pressure), Values(data, Temperature);
      DataSummary(
        |data|,
        Sum(fs) / n, Sum(ps) / n, Sum(ts) / n,
        TypeCounts(data),
        MinOf(fs), MaxOf(fs), MinOf(ps), MaxOf(ps), MinOf(ts), MaxOf(ts))
  }

  lemma {:induction false} CountPositive(data: seq<EquipmentRecord>)
    ensures forall t :: t in TypesIn(data) ==> Count(data, t) > 0
  {
    if data != [] {
      var init := data[..|data| - 1];
      CountPositive(init);
      forall t | t in TypesIn(data)
        ensures Count(data, t) > 0
      {
        var i :| 0 <= i < |data| && data[i].equipmentType == t;
        if i < |data| - 1 {
          assert init[i] == data[i];
          assert t in TypesIn(init);
        }
      }
    }
  }

  /** Average, minimum and maximum of one metric in a non-empty summary. */
  function Stats(s: DataSummary, m: Metric): (real, real, real)
  {
    match m
    case Flowrate => (s.minFlowrate, s.avgFlowrate, s.maxFlowrate)
    case Pressure => (s.minPressure, s.avgPressure, s.maxPressure)
    case Temperature => (s.minTemperature, s.avgTemperature, s.maxTemperature)
  }

  lemma {:induction false} SumBounds(xs: seq<real>, lo: real, hi: real)
    requires forall i :: 0 <= i < |xs| ==> lo <= xs[i] <= hi
    ensures |xs| as real * lo <= Sum(xs) <= |xs| as real * hi
  {
    if xs != [] {
      SumBounds(xs[..|xs| - 1], lo, hi);
    }
  }

  lemma MeanBetween(total: real, n: real, lo: real, hi: real)
    requires n > 0.0
    requires n * lo <= total <= n * hi
    ensures lo <= total / n <= hi
  {
    var avg := total / n;
    assert (avg - lo) * n == total - n * lo;
    assert (hi - avg) * n == n * hi - total;
  }

  /**
   * For a non-empty list, each metric's minimum and maximum are values some
   * record has, every record lies between them, and the mean lies between them.
   */
  lemma SummaryBounds(data: seq<EquipmentRecord>, m: Metric)
    requires |data| > 0
    ensures Stats(SummaryOf(data), m).0 <= Stats(SummaryOf(data), m).1 <= Stats(SummaryOf(data), m).2
    ensures exists i :: 0 <= i < |data| && MetricOf(data[i], m) == Stats(SummaryOf(data), m).0
    ensures exists i :: 0 <= i < |data| && MetricOf(data[i], m) == Stats(SummaryOf(data), m).2
    ensures forall i :: 0 <= i < |data| ==>
      Stats(SummaryOf(data), m).0 <= MetricOf(data[i], m) <= Stats(SummaryOf(data), m).2
  {
    var xs := Values(data, m);
    var lo, hi := MinOf(xs), MaxOf(xs);
    SumBounds(xs, lo, hi);
    MeanBetween(Sum(xs), |data| as real, lo, hi);
    assert Stats(SummaryOf(data), m) == (lo, Sum(xs) / |data| as real, hi);
    var a :| 0 <= a < |xs| && xs[a] == lo;
    var b :| 0 <= b < |xs| && xs[b] == hi;
  }

  /** The histogram's counts add up to the total: every record is counted under exactly one type. */
  ghost function SumOver(m: map<string, nat>, ks: seq<string>): nat
  {
    if ks == [] then 0 else (if ks[0] in m then m[ks[0]] else 0) + SumOver(m, ks[1..])
  }

  /** The keys of a set, listed once each (in an arbitrary order). */
  ghost function SetToSeq(s: set<string>): (ks: seq<string>)
    ensures forall k :: k in ks <==> k in s
    ensures forall i, j :: 0 <= i < j < |ks| ==> ks[i] != ks[j]
    decreases s
  {
    if s == {} then []
    else
      var k :| k in s;
      [k] + SetToSeq(s - {k})
  }

  /** Sum of the values of a histogram. */
  ghost function SumValues(m: map<string, nat>): nat
  {
    SumOver(m, SetToSeq(m.Keys))
  }

  /** Number of records whose type is one of `ks`. */
  function CountIn(data: seq<EquipmentRecord>, ks: seq<string>): nat
  {
    if data == [] then 0
    else CountIn(data[..|data| - 1], ks) + (if data[|data| - 1].equipmentType in ks then 1 else 0)
  }

  lemma {:induction false} CountInCons(data: seq<EquipmentRecord>, k: string, rest: seq<string>)
    requires k !in rest
    ensures CountIn(data, [k] + rest) == Count(data, k) + CountIn(data, rest)
  {
    if data != [] {
      CountInCons(data[..|data| - 1], k, rest);
    }
  }

  lemma {:induction false} CountInAll(data: seq<EquipmentRecord>, ks: seq<string>)
    requires forall i :: 0 <= i < |data| ==> data[i].equipmentType in ks
    ensures CountIn(data, ks) == |data|
  {
    if data != [] {
      CountInAll(data[..|data| - 1], ks);
    }
  }

  lemma {:induction false} SumOverCounts(data: seq<EquipmentRecord>, ks: seq<string>)
    requires forall i, j :: 0 <= i < j < |ks| ==> ks[i] != ks[j]
    requires forall k :: k in ks ==> k in TypesIn(data)
    ensures SumOver(TypeCounts(data), ks) == CountIn(data, ks)
  {
    if ks == [] {
      CountInEmpty(data);
    } else {
      assert ks[0] !in ks[1..];
      SumOverCounts(data, ks[1..]);
      assert ks == [ks[0]] + ks[1..];
      CountInCons(data, ks[0], ks[1..]);
    }
  }

  lemma {:induction false} CountInEmpty(data: seq<EquipmentRecord>)
    ensures CountIn(data, []) == 0
  {
    if data != [] {
      CountInEmpty(data[..|data| - 1]);
    }
  }

  /** The histogram's counts sum to `totalCount` (also for the empty list). */
  lemma DistributionSumsToTotal(data: seq<EquipmentRecord>)
    ensures SumValues(SummaryOf(data).typeDistribution) == SummaryOf(data).totalCount
  {
    var s := SummaryOf(data);
    var ks := SetToSeq(s.typeDistribution.Keys);
    if |data| == 0 {
      assert ks == [];
    } else {
      SumOverCounts(data, ks);
      CountInAll(data, ks);
    }
  }

  lemma TypeCountsSnoc(p: seq<EquipmentRecord>, r: EquipmentRecord)
    ensures var m := TypeCounts(p); var t := r.equipmentType;
      TypeCounts(p + [r]) == m[t := (if t in m then m[t] else 0) + 1]
  {
    var q := p + [r];
    var m := TypeCounts(p);
    var t := r.equipmentType;
    var m' := m[t := (if t in m then m[t] else 0) + 1];
    assert q[..|q| - 1] == p;
    assert TypesIn(q) == TypesIn(p) + {t} by {
      forall x | x in TypesIn(q) ensures x in TypesIn(p) + {t} {
        var i :| 0 <= i < |q| && q[i].equipmentType == x;
        if i < |p| { assert p[i] == q[i]; }
      }
      forall x | x in TypesIn(p) ensures x in TypesIn(q) {
        var i :| 0 <= i < |p| && p[i].equipmentType == x;
        assert q[i] == p[i];
      }
    }
    CountPositive(p);
    forall x | x in TypesIn(q)
      ensures TypeCounts(q)[x] == m'[x]
    {
      assert Count(q, x) == Count(p, x) + (if x == t then 1 else 0);
      if x != t || t in m {
        assert x in TypesIn(p);
      } else {
        assert x !in TypesIn(p);
        assert Count(p, x) == 0 by { CountAbsent(p, x); }
      }
    }
  }

  lemma {:induction false} CountAbsent(p: seq<EquipmentRecord>, x: string)
    requires x !in TypesIn(p)
    ensures Count(p, x) == 0
  {
    if p != [] {
      var init := p[..|p| - 1];
      assert p[|p| - 1].equipmentType in TypesIn(p);
      forall y | y in TypesIn(init) ensures y in TypesIn(p) {
        var i :| 0 <= i < |init| && init[i].equipmentType == y;
        assert p[i] == init[i];
      }
      CountAbsent(init, x);
    }
  }

  /** `calculateSummary`: the histogram is built by bumping one counter per record, as the source's `forEach` does. */
  method CalculateSummary(data: seq<EquipmentRecord>) returns (s: DataSummary)
    ensures s == SummaryOf(data)
  {
    if |data| == 0 {
      return DataSummary(0, 0.0, 0.0, 0.0, map[], 0.0, 0.0, 0.0, 0.0, 0.0, 0.0);
    }
    var typeDistribution: map<string, nat> := map[];
    for i := 0 to |data|
      invariant typeDistribution == TypeCounts(data[..i])
    {
      var t := data[i].equipmentType;
      assert data[..i + 1] == data[..i] + [data[i]];
      TypeCountsSnoc(data[..i], data[i]);
      typeDistribution := typeDistribution[t := (if t in typeDistribution then typeDistribution[t] else 0) + 1];
    }
    assert data[..|data|] == data;
    var n := |data| as real;
    var fs, ps, ts := Values(data, Flowrate), Values(data, Pressure), Values(data, Temperature);
    s := DataSummary(
      |data|,
      Sum(fs) / n, Sum(ps) / n, Sum(ts) / n,
      typeDistribution,
      MinOf(fs), MaxOf(fs), MinOf(ps), MaxOf(ps), MinOf(ts), MaxOf(ts));
  }

  // ---------------------------------------------------------------------------
  // parseCSVFile from the tokenizer's callback onward
  // ---------------------------------------------------------------------------

  /** What the tokenizer hands back: the split rows, or the error it reports. */
  datatype TokenizerResult = Rows(rows: seq<Row>) | TokenizerError(err: Thrown)

  /** `parseCSVFile`: rejects with the tokenizer's error, otherwise resolves with the records and their summary. */
  method ParseCsvFile(result: TokenizerResult, parseFloat: ParseFloat) returns (r: Result<ParsedCsv, Thrown>)
    ensures result.TokenizerError? ==> r == Failure(result.err)
    ensures result.Rows? ==> (r.Success? &&
      r.value.data == NormalizeRows(result.rows, parseFloat) &&
      r.value.summary == SummaryOf(r.value.data))
  {
    match result
    case TokenizerError(err) =>
      r := Failure(err);
    case Rows(rows) =>
      var data := NormalizeRows(rows, parseFloat);
      var summary := CalculateSummary(data);
      r := Success(ParsedCsv(data, summary));
  }

  /** The example rows: a named pump and a nameless one. */
  function PumpRows(): seq<Row>
  {
    [map["Equipment Name" := "Pump A", "Type" := "Pump", "Flowrate" := "100", "Pressure" := "5", "Temperature" := "20"],
     map["Equipment Name" := "", "Type" := "Pump", "Flowrate" := "50"]]
  }

  lemma PumpRowNormalized(parseFloat: ParseFloat)
    requires parseFloat("100") == Some(100.0) && parseFloat("5") == Some(5.0) && parseFloat("20") == Some(20.0)
    ensures NormalizeRow(PumpRows()[0], 0, parseFloat) == EquipmentRecord("eq-1", "Pump A", "Pump", 100.0, 5.0, 20.0)
  {
    var row := PumpRows()[0];
    assert Truthy(row, "Equipment Name") && row["Equipment Name"] == "Pump A";
    assert Truthy(row, "Type") && row["Type"] == "Pump";
    assert Truthy(row, "Flowrate") && row["Flowrate"] == "100";
    assert Truthy(row, "Pressure") && row["Pressure"] == "5";
    assert Truthy(row, "Temperature") && row["Temperature"] == "20";
    NormalizeRowFields(row, 0, parseFloat);
    assert NatToString(1) == "1";
  }

  lemma NamelessRowNormalized(parseFloat: ParseFloat)
    ensures NormalizeRow(PumpRows()[1], 1, parseFloat).equipmentName == ""
  {
    var row := PumpRows()[1];
    assert !Truthy(row, "Equipment Name");
    assert "equipment_name" !in row && "EquipmentName" !in row;
    NormalizeRowFields(row, 1, parseFloat);
  }

  /** Of two rows, only the first named: the result is that row alone. */
  lemma FirstOfTwoRows(rows: seq<Row>, parseFloat: ParseFloat)
    requires |rows| == 2
    requires NormalizeRow(rows[0], 0, parseFloat).equipmentName != ""
    requires NormalizeRow(rows[1], 1, parseFloat).equipmentName == ""
    ensures NormalizeRows(rows, parseFloat) == [NormalizeRow(rows[0], 0, parseFloat)]
  {
    var ms := MapRows(rows, parseFloat);
    var a := ms[0];
    assert ms[..1] == [a];
    assert [a][..0] == [];
    assert KeepNamed([a]) == [a];
    assert KeepNamed(ms) == KeepNamed(ms[..1]);
  }

  /** The nameless row is dropped and the named one keeps id `eq-1`. */
  lemma PumpExampleRecords(parseFloat: ParseFloat)
    requires parseFloat("100") == Some(100.0) && parseFloat("5") == Some(5.0) && parseFloat("20") == Some(20.0)
    ensures NormalizeRows(PumpRows(), parseFloat) == [EquipmentRecord("eq-1", "Pump A", "Pump", 100.0, 5.0, 20.0)]
  {
    PumpRowNormalized(parseFloat);
    NamelessRowNormalized(parseFloat);
    FirstOfTwoRows(PumpRows(), parseFloat);
  }

  /** A single record's summary: count 1, its values as mean, minimum and maximum, its type counted once. */
  lemma SingleRecordSummary(r: EquipmentRecord)
    ensures SummaryOf([r]) == DataSummary(1, r.flowrate, r.pressure, r.temperature, map[r.equipmentType := 1],
      r.flowrate, r.flowrate, r.pressure, r.pressure, r.temperature, r.temperature)
  {
    var data := [r];
    assert Values(data, Flowrate) == [r.flowrate];
    assert Values(data, Pressure) == [r.pressure];
    assert Values(data, Temperature) == [r.temperature];
    assert [r.flowrate][..0] == [] && [r.pressure][..0] == [] && [r.temperature][..0] == [];
    assert r.equipmentType in TypesIn(data) by { assert data[0].equipmentType == r.equipmentType; }
    assert TypesIn(data) == {r.equipmentType};
    assert data[..0] == [];
    assert Count(data, r.equipmentType) == 1;
    assert TypeCounts(data) == map[r.equipmentType := 1];
    var fs := Values(data, Flowrate);
    assert Sum(fs) == r.flowrate;
    assert MinOf(fs) == r.flowrate && MaxOf(fs) == r.flowrate;
    assert Sum(Values(data, Pressure)) == r.pressure;
    assert Sum(Values(data, Temperature)) == r.temperature;
  }

  /**
   * The end-to-end example: a named pump row and a nameless row give exactly
   * one record, and a summary with count 1, the pump's values as mean, min and
   * max, and histogram {Pump: 1}.
   */
  lemma PumpExample(parseFloat: ParseFloat)
    requires parseFloat("100") == Some(100.0) && parseFloat("5") == Some(5.0) && parseFloat("20") == Some(20.0)
    ensures SummaryOf(NormalizeRows(PumpRows(), parseFloat)) ==
      DataSummary(1, 100.0, 5.0, 20.0, map["Pump" := 1], 100.0, 100.0, 5.0, 5.0, 20.0, 20.0)
  {
    PumpExampleRecords(parseFloat);
    SingleRecordSummary(EquipmentRecord("eq-1", "Pump A", "Pump", 100.0, 5.0, 20.0));
  }

  // ---------------------------------------------------------------------------
  // Demo data
  // ---------------------------------------------------------------------------

  const SampleTypes: seq<string> := ["Pump", "Reactor", "Heat Exchanger", "Distillation Column", "Compressor", "Separator"]
  const SamplePrefixes: seq<string> := ["Primary", "Secondary", "Auxiliary", "Main", "Backup"]
  const SampleSize: nat := 25

  /** The five `Math.random()` readings one generated record consumes, in call order. */
  datatype Draw = Draw(typeRoll: real, prefixRoll: real, flowrateRoll: real, pressureRoll: real, temperatureRoll: real)

  predicate IsRoll(x: real) { 0.0 <= x < 1.0 }

  predicate IsDraw(d: Draw)
  {
    IsRoll(d.typeRoll) && IsRoll(d.prefixRoll) && IsRoll(d.flowrateRoll) && IsRoll(d.pressureRoll) && IsRoll(d.temperatureRoll)
  }

  /** `Math.floor(roll * n)`: an index into a list of `n` choices. */
  function Pick(roll: real, n: nat): (k: nat)
    requires IsRoll(roll) && n > 0
    ensures k < n
  {
    assert roll * n as real < n as real by {
      assert (1.0 - roll) * n as real > 0.0;
    }
    (roll * n as real).Floor
  }

  /** `Math.round(x * 100) / 100` in exact arithmetic (`Math.round` rounds halves upward). */
  function Round2(x: real): real
  {
    (x * 100.0 + 0.5).Floor as real / 100.0
  }

  /** Rounding to cents stays within bounds that are themselves whole cents, and yields whole cents. */
  lemma Round2Within(x: real, lo: int, hi: int)
    requires lo as real <= x * 100.0 <= hi as real
    ensures lo as real / 100.0 <= Round2(x) <= hi as real / 100.0
    ensures (Round2(x) * 100.0).Floor as real == Round2(x) * 100.0
  {
    var f := (x * 100.0 + 0.5).Floor;
    assert lo <= f <= hi;
    assert Round2(x) * 100.0 == f as real;
  }

  function SampleRecord(i: nat, d: Draw): EquipmentRecord
    requires IsDraw(d)
  {
    var t := SampleTypes[Pick(d.typeRoll, |SampleTypes|)];
    var p := SamplePrefixes[Pick(d.prefixRoll, |SamplePrefixes|)];
    EquipmentRecord(
      RecordId(i),
      p + " " + t + " " + Pad3(i + 1),
      t,
      Round2(d.flowrateRoll * 1000.0 + 100.0),
      Round2(d.pressureRoll * 50.0 + 1.0),
      Round2(d.temperatureRoll * 300.0 + 20.0))
  }

  /** `generateSampleData`, with the random readings supplied in `draws`. */
  function SampleData(draws: seq<Draw>): (r: seq<EquipmentRecord>)
    requires |draws| == SampleSize
    requires forall i :: 0 <= i < |draws| ==> IsDraw(draws[i])
    ensures |r| == SampleSize
  {
    seq(SampleSize, i requires 0 <= i < SampleSize => SampleRecord(i, draws[i]))
  }

  /** Shape of each generated record: id, name built from prefix, type and padded index, known type, value ranges. */
  lemma SampleShape(draws: seq<Draw>, i: nat)
    requires |draws| == SampleSize
    requires forall j :: 0 <= j < |draws| ==> IsDraw(draws[j])
    requires i < SampleSize
    ensures var r := SampleData(draws)[i];
      && r.id == RecordId(i)
      && r.equipmentType in SampleTypes
      && (exists p :: p in SamplePrefixes && r.equipmentName == p + " " + r.equipmentType + " " + Pad3(i + 1))
      && 100.0 <= r.flowrate <= 1100.0
      && 1.0 <= r.pressure <= 51.0
      && 20.0 <= r.temperature <= 320.0
      && (r.flowrate * 100.0).Floor as real == r.flowrate * 100.0
      && (r.pressure * 100.0).Floor as real == r.pressure * 100.0
      && (r.temperature * 100.0).Floor as real == r.temperature * 100.0
  {
    var d := draws[i];
    Round2Within(d.flowrateRoll * 1000.0 + 100.0, 10000, 110000);
    Round2Within(d.pressureRoll * 50.0 + 1.0, 100, 5100);
    Round2Within(d.temperatureRoll * 300.0 + 20.0, 2000, 32000);
    var p := SamplePrefixes[Pick(d.prefixRoll, |SamplePrefixes|)];
    assert p in SamplePrefixes;
  }

  /** Generated names are pairwise distinct, whatever the random readings: they end in distinct padded indices. */
  lemma SampleNamesDistinct(draws: seq<Draw>)
    requires |draws| == SampleSize
    requires forall j :: 0 <= j < |draws| ==> IsDraw(draws[j])
    ensures forall i, j :: 0 <= i < j < SampleSize ==> SampleData(draws)[i].equipmentName != SampleData(draws)[j].equipmentName
    ensures forall i, j :: 0 <= i < j < SampleSize ==> SampleData(draws)[i].id != SampleData(draws)[j].id
  {
    var r := SampleData(draws);
    forall i, j | 0 <= i < j < SampleSize
      ensures r[i].equipmentName != r[j].equipmentName && r[i].id != r[j].id
    {
      var a, b := r[i].equipmentName, r[j].equipmentName;
      Pad3Value(i + 1);
      Pad3Value(j + 1);
      assert a[|a| - 3..] == Pad3(i + 1);
      assert b[|b| - 3..] == Pad3(j + 1);
      Pad3Distinct(i + 1, j + 1);
      RecordIdDistinct(i, j);
    }
  }
}
