/**
 * The server's upload, summary and history endpoints. The ORM table of
 * datasets is a sequence ordered newest first (the model's default ordering
 * on descending upload time); pandas is abstracted to what the views read of
 * a data frame: its column headers, its row count, and per column the
 * statistics (or the exception computing them raises) and the value counts.
 *
 * `str.lower` is a parameter; its Unicode behaviour is not modelled.
 */
module BackendViews {
  import opened Wrappers
  import opened Strings
  import opened Sequences

  /** Python `str.lower`. */
  type Lower = string -> string

  const Required: seq<string> := ["type", "flowrate", "pressure", "temperature"]

  const MaxDatasets: nat := 5

  /** How many of the newest datasets the summary endpoint looks through. */
  const SummaryScan: nat := 10

  // ---------------------------------------------------------------------------
  // Data frames and summaries
  // ---------------------------------------------------------------------------

  /** `float(col.mean())`, `float(col.min())`, `float(col.max())` of a non-empty column. */
  datatype NumericStats = NumericStats(mean: real, min: real, max: real)

  /**
   * One column: its header, its statistics or the message of the exception
   * computing them raises (a text column), and `value_counts().to_dict()`.
   */
  datatype Column = Column(header: string, stats: Result<NumericStats, string>, valueCounts: map<string, nat>)

  datatype DataFrame = DataFrame(columns: seq<Column>, rowCount: nat)

  function Headers(df: DataFrame): (hs: seq<string>)
    ensures |hs| == |df.columns|
    ensures forall i :: 0 <= i < |hs| ==> hs[i] == df.columns[i].header
  {
    seq(|df.columns|, i requires 0 <= i < |df.columns| => df.columns[i].header)
  }

  /** The summary dictionary the server stores and sends; `None` is JSON `null`. */
  datatype ServerSummary = ServerSummary(
    totalCount: nat,
    avgFlowrate: Option<real>,
    avgPressure: Option<real>,
    avgTemperature: Option<real>,
    typeDistribution: map<string, nat>,
    minFlowrate: Option<real>,
    maxFlowrate: Option<real>,
    minPressure: Option<real>,
    maxPressure: Option<real>,
    minTemperature: Option<real>,
    maxTemperature: Option<real>)

  // ---------------------------------------------------------------------------
  // The required-column check of the upload
  // ---------------------------------------------------------------------------

  /** `[c.strip().lower() for c in df.columns]`. */
  function NormalizedHeaders(headers: seq<string>, lower: Lower): (cols: seq<string>)
    ensures |cols| == |headers|
    ensures forall i :: 0 <= i < |headers| ==> cols[i] == lower(Strip(headers[i]))
  {
    seq(|headers|, i requires 0 <= i < |headers| => lower(Strip(headers[i])))
  }

  /** `any(r == c or r in c for c in cols)`, scanning the columns in order. */
  predicate Present(r: string, cols: seq<string>)
  {
    cols != [] && (r == cols[0] || Contains(cols[0], r) || Present(r, cols[1..]))
  }

  /**
   * A name is present iff some normalised column contains it; the equality
   * test is subsumed by the substring test.
   */
  lemma {:induction false} PresentIffContained(r: string, cols: seq<string>)
    ensures Present(r, cols) <==> exists i :: 0 <= i < |cols| && Contains(cols[i], r)
  {
    if cols != [] {
      PresentIffContained(r, cols[1..]);
      ContainsTrivial(cols[0]);
      if exists i :: 0 <= i < |cols[1..]| && Contains(cols[1..][i], r) {
        var i :| 0 <= i < |cols[1..]| && Contains(cols[1..][i], r);
        assert cols[i + 1] == cols[1..][i];
      }
      if exists i :: 0 <= i < |cols| && Contains(cols[i], r) {
        var i :| 0 <= i < |cols| && Contains(cols[i], r);
        if i > 0 {
          assert cols[1..][i - 1] == cols[i];
        }
      }
    }
  }

  /** The comprehension's condition. */
  function Absent(cols: seq<string>): string -> bool
  {
    r => !Present(r, cols)
  }

  /** `[r for r in required if not any(...)]`. */
  function MissingColumns(cols: seq<string>): seq<string>
  {
    Filter(Required, Absent(cols))
  }

  lemma FilterFour<T>(w: T, x: T, y: T, z: T, p: T -> bool)
    ensures Filter([w, x, y, z], p) ==
      (if p(w) then [w] else []) + (if p(x) then [x] else []) + (if p(y) then [y] else []) + (if p(z) then [z] else [])
  {
    var a, b, c, d := [w], [x], [y], [z];
    FilterConcat(a, b + (c + d), p);
    FilterConcat(b, c + d, p);
    FilterConcat(c, d, p);
    FilterSingle(w, p);
    FilterSingle(x, p);
    FilterSingle(y, p);
    FilterSingle(z, p);
    calc {
      Filter([w, x, y, z], p);
      { assert [w, x, y, z] == a + (b + (c + d)); }
      Filter(a + (b + (c + d)), p);
      Filter(a, p) + (Filter(b, p) + (Filter(c, p) + Filter(d, p)));
    }
  }

  /** The missing names, in the order of `Required`. */
  lemma MissingColumnsInOrder(cols: seq<string>)
    ensures MissingColumns(cols) ==
      (if Present("type", cols) then [] else ["type"]) + (if Present("flowrate", cols) then [] else ["flowrate"]) +
      (if Present("pressure", cols) then [] else ["pressure"]) + (if Present("temperature", cols) then [] else ["temperature"])
  {
    FilterFour("type", "flowrate", "pressure", "temperature", Absent(cols));
  }

  /** A required name is reported missing iff no normalised header equals or contains it. */
  lemma MissingColumnsExactly(cols: seq<string>, r: string)
    ensures r in MissingColumns(cols) <==> r in Required && !Present(r, cols)
  {
    MissingColumnsInOrder(cols);
  }

  // ---------------------------------------------------------------------------
  // find_col and get_summary
  // ---------------------------------------------------------------------------

  /** The first position from `from` on whose header equals `key` ignoring case. */
  function FindColumnFrom(headers: seq<string>, key: string, lower: Lower, from: nat): (r: Option<nat>)
    requires from <= |headers|
    ensures r.Some? ==>
      && from <= r.value < |headers| && lower(headers[r.value]) == lower(key)
      && forall j :: from <= j < r.value ==> lower(headers[j]) != lower(key)
    ensures r.None? ==> forall j :: from <= j < |headers| ==> lower(headers[j]) != lower(key)
    decreases |headers| - from
  {
    if from == |headers| then None
    else if lower(headers[from]) == lower(key) then Some(from)
    else FindColumnFrom(headers, key, lower, from + 1)
  }

  /** `find_col(key)`: the first header equal to `key` once both are lowercased (headers are not stripped here). */
  function FindColumn(headers: seq<string>, key: string, lower: Lower): (r: Option<nat>)
    ensures r.Some? ==>
      && r.value < |headers| && lower(headers[r.value]) == lower(key)
      && forall j :: 0 <= j < r.value ==> lower(headers[j]) != lower(key)
    ensures r.None? ==> forall j :: 0 <= j < |headers| ==> lower(headers[j]) != lower(key)
  {
    FindColumnFrom(headers, key, lower, 0)
  }

  /**
   * The upload check and `find_col` read headers differently: a header with
   * a unit suffix satisfies the required-column check (a substring test) but
   * is not the column `get_summary` looks up (an equality test).
   */
  lemma UnitSuffixAcceptedButUnread(lower: Lower)
    requires lower("Flowrate (m3/h)") == "flowrate (m3/h)" && lower("Flowrate") == "flowrate"
    ensures Present("flowrate", NormalizedHeaders(["Flowrate (m3/h)"], lower))
    ensures FindColumn(["Flowrate (m3/h)"], "Flowrate", lower) == None
  {
    StripUnchanged("Flowrate (m3/h)");
    assert "flowrate (m3/h)"[..|"flowrate"|] == "flowrate";
    assert Contains("flowrate (m3/h)", "flowrate");
  }

  /** The loop of `find_col`: returns at the first header that matches. */
  method FindCol(headers: seq<string>, key: string, lower: Lower) returns (r: Option<nat>)
    ensures r == FindColumn(headers, key, lower)
  {
    var i := 0;
    while i < |headers|
      invariant 0 <= i <= |headers|
      invariant FindColumn(headers, key, lower) == FindColumnFrom(headers, key, lower, i)
    {
      if lower(headers[i]) == lower(key) {
        return Some(i);
      }
      i := i + 1;
    }
    return None;
  }

  /**
   * The statistics of the column found at `at`: none when no column was found
   * or the frame has no rows (`Series.empty`), otherwise the column's
   * statistics or the exception computing them raises.
   */
  function StatsAt(df: DataFrame, at: Option<nat>): (r: Result<Option<NumericStats>, string>)
    requires at.Some? ==> at.value < |df.columns|
    ensures (r.Success? && r.value.None?) <==> (at.None? || df.rowCount == 0)
    ensures r.Failure? <==> at.Some? && df.rowCount > 0 && df.columns[at.value].stats.Failure?
  {
    match at
    case None => Success(None)
    case Some(i) =>
      if df.rowCount == 0 then Success(None)
      else
        match df.columns[i].stats
        case Success(s) => Success(Some(s))
        case Failure(e) => Failure(e)
  }

  /** The statistics of the column `find_col(key)` returns. */
  function ColumnStats(df: DataFrame, key: string, lower: Lower): Result<Option<NumericStats>, string>
  {
    StatsAt(df, FindColumn(Headers(df), key, lower))
  }

  function Mean(s: Option<NumericStats>): Option<real> { if s.Some? then Some(s.value.mean) else None }
  function Least(s: Option<NumericStats>): Option<real> { if s.Some? then Some(s.value.min) else None }
  function Greatest(s: Option<NumericStats>): Option<real> { if s.Some? then Some(s.value.max) else None }

  /** The dictionary `get_summary` builds, or the message of the first exception raised while building it. */
  function SummaryOfFrame(df: DataFrame, lower: Lower): Result<ServerSummary, string>
  {
    var flow := ColumnStats(df, "Flowrate", lower);
    var pressure := ColumnStats(df, "Pressure", lower);
    var temp := ColumnStats(df, "Temperature", lower);
    if flow.Failure? then Failure(flow.error)
    else if pressure.Failure? then Failure(pressure.error)
    else if temp.Failure? then Failure(temp.error)
    else
      var typ := FindColumn(Headers(df), "Type", lower);
      var f, p, t := flow.value, pressure.value, temp.value;
      Success(ServerSummary(
        df.rowCount,
        Mean(f), Mean(p), Mean(t),
        if typ.Some? then df.columns[typ.value].valueCounts else map[],
        Least(f), Greatest(f), Least(p), Greatest(p), Least(t), Greatest(t)))
  }

  /**
   * The summary's shape: the count is the row count; a metric whose column is
   * absent or whose frame is empty has `null` average, minimum and maximum; a
   * frame without a Type column has an empty distribution; and building fails
   * only when a present, non-empty metric column cannot be averaged.
   */
  lemma SummaryOfFrameShape(df: DataFrame, lower: Lower)
    ensures SummaryOfFrame(df, lower).Failure? <==>
      ColumnStats(df, "Flowrate", lower).Failure? || ColumnStats(df, "Pressure", lower).Failure? ||
      ColumnStats(df, "Temperature", lower).Failure?
    ensures SummaryOfFrame(df, lower).Success? ==>
      var s := SummaryOfFrame(df, lower).value;
      && s.totalCount == df.rowCount
      && (FindColumn(Headers(df), "Type", lower).None? ==> s.typeDistribution == map[])
      && (s.avgFlowrate.None? <==> (FindColumn(Headers(df), "Flowrate", lower).None? || df.rowCount == 0))
      && (s.avgFlowrate.None? <==> s.minFlowrate.None? && s.maxFlowrate.None?)
      && (s.avgPressure.None? <==> (FindColumn(Headers(df), "Pressure", lower).None? || df.rowCount == 0))
      && (s.avgPressure.None? <==> s.minPressure.None? && s.maxPressure.None?)
      && (s.avgTemperature.None? <==> (FindColumn(Headers(df), "Temperature", lower).None? || df.rowCount == 0))
      && (s.avgTemperature.None? <==> s.minTemperature.None? && s.maxTemperature.None?)
  {
  }

  /** `get_summary`, looking each column up with the `find_col` loop. */
  method GetSummary(df: DataFrame, lower: Lower) returns (r: Result<ServerSummary, string>)
    ensures r == SummaryOfFrame(df, lower)
  {
    var headers := Headers(df);
    var flowAt := FindCol(headers, "Flowrate", lower);
    var pressureAt := FindCol(headers, "Pressure", lower);
    var tempAt := FindCol(headers, "Temperature", lower);
    var typeAt := FindCol(headers, "Type", lower);
    var flow := StatsAt(df, flowAt);
    var pressure := StatsAt(df, pressureAt);
    var temp := StatsAt(df, tempAt);
    if flow.Failure? {
      return Failure(flow.error);
    }
    if pressure.Failure? {
      return Failure(pressure.error);
    }
    if temp.Failure? {
      return Failure(temp.error);
    }
    var f, p, t := flow.value, pressure.value, temp.value;
    r := Success(ServerSummary(
      df.rowCount,
      Mean(f), Mean(p), Mean(t),
      if typeAt.Some? then df.columns[typeAt.value].valueCounts else map[],
      Least(f), Greatest(f), Least(p), Greatest(p), Least(t), Greatest(t)));
  }

  // ---------------------------------------------------------------------------
  // The dataset table and the endpoints
  // ---------------------------------------------------------------------------

  /** One stored upload; `uploadedAt` is the server clock reading when it was created. */
  datatype Dataset = Dataset(id: nat, fileName: string, uploadedAt: int, recordCount: nat, summary: ServerSummary)

  /** The multipart file: its name, and what decoding and `pd.read_csv` make of its content. */
  datatype UploadedFile = UploadedFile(name: string, content: Result<DataFrame, string>)

  datatype UploadResponse =
    | Created(dataset: Dataset)
    | BadRequest(error: string)
    | ServerError(error: string)

  datatype SummaryResponse =
    | SummaryBody(summary: ServerSummary)
    | NotFound(error: string)
    | Unhandled

  /** Newest first: upload times never increase along the sequence. */
  predicate NewestFirst(ds: seq<Dataset>)
  {
    forall i, j :: 0 <= i < j < |ds| ==> ds[i].uploadedAt >= ds[j].uploadedAt
  }

  predicate DistinctIds(ds: seq<Dataset>)
  {
    forall i, j :: 0 <= i < j < |ds| ==> ds[i].id != ds[j].id
  }

  /** `obj.delete()`: the row with that primary key removed. */
  function Delete(ds: seq<Dataset>, id: nat): seq<Dataset>
  {
    Filter(ds, OtherThan(id))
  }

  function OtherThan(id: nat): Dataset -> bool
  {
    (d: Dataset) => d.id != id
  }

  /** Deleting `x` from `keep + [x] + rest`, where no other element shares its id, leaves `keep + rest`. */
  lemma DeleteOne(keep: seq<Dataset>, x: Dataset, rest: seq<Dataset>)
    requires forall i :: 0 <= i < |keep| ==> keep[i].id != x.id
    requires forall i :: 0 <= i < |rest| ==> rest[i].id != x.id
    ensures Delete(keep + [x] + rest, x.id) == keep + rest
  {
    var p := OtherThan(x.id);
    FilterConcat(keep + [x], rest, p);
    FilterConcat(keep, [x], p);
    FilterSingle(x, p);
    FilterKeepsAll(keep, p);
    FilterKeepsAll(rest, p);
    calc {
      Filter(keep + [x] + rest, p);
      Filter(keep + [x], p) + Filter(rest, p);
      (Filter(keep, p) + Filter([x], p)) + Filter(rest, p);
      { assert keep + [] == keep; }
      keep + rest;
    }
  }

  /** One turn of the deletion loop: the next surplus dataset goes, and nothing else. */
  lemma DeleteStep(keep: seq<Dataset>, surplus: seq<Dataset>, i: nat)
    requires DistinctIds(keep + surplus)
    requires i < |surplus|
    ensures Delete(keep + surplus[i..], surplus[i].id) == keep + surplus[i + 1..]
  {
    var all, x, later := keep + surplus, surplus[i], surplus[i + 1..];
    assert x == all[|keep| + i];
    forall j | 0 <= j < |keep| ensures keep[j].id != x.id {
      assert keep[j] == all[j];
    }
    forall j | 0 <= j < |later| ensures later[j].id != x.id {
      assert later[j] == all[|keep| + i + 1 + j];
    }
    DeleteOne(keep, x, later);
    assert surplus[i..] == [x] + later;
    assert keep + surplus[i..] == keep + [x] + later;
  }

  /** The keep-newest rule keeps the newest datasets: none it keeps is older than one it drops. */
  lemma RetainedAreNewest(ds: seq<Dataset>)
    requires NewestFirst(ds)
    ensures NewestFirst(Take(ds, MaxDatasets))
    ensures forall i, j :: 0 <= i < |Take(ds, MaxDatasets)| <= j < |ds| ==>
      Take(ds, MaxDatasets)[i].uploadedAt >= ds[j].uploadedAt
  {
  }

  /** `EquipmentDataset.objects.filter(id=pk).first()`. */
  function FindById(ds: seq<Dataset>, pk: int): (r: Option<Dataset>)
    ensures r.Some? ==> r.value in ds && r.value.id == pk
    ensures r.None? ==> forall i :: 0 <= i < |ds| ==> ds[i].id != pk
  {
    if ds == [] then None
    else if ds[0].id == pk then Some(ds[0])
    else FindById(ds[1..], pk)
  }

  /** The summary endpoint's test of a candidate: its summary has a non-null average flow rate. */
  predicate HasFlowrate(d: Dataset)
  {
    d.summary.avgFlowrate.Some?
  }

  /** What an accepted upload stores. */
  datatype Accepted = Accepted(fileName: string, recordCount: nat, summary: ServerSummary)

  function MissingMessage(missing: seq<string>, headers: seq<string>): string
  {
    "Missing required columns: " + Join(missing, ", ") + ". Found columns: " + Join(headers, ", ")
  }

  /**
   * The checks of `UploadCSVView.post` in order: a file with a non-empty name
   * (an unnamed upload is falsy), the `.csv` suffix, a parseable content, the
   * required columns, and a summary that can be computed.
   */
  function CheckUpload(file: Option<UploadedFile>, lower: Lower): Result<Accepted, UploadResponse>
  {
    if file.None? || file.value.name == "" then Failure(BadRequest("No file uploaded"))
    else if !EndsWith(file.value.name, ".csv") then Failure(BadRequest("Only CSV files are allowed"))
    else
      match file.value.content
      case Failure(e) => Failure(BadRequest("Failed to parse CSV: " + e))
      case Success(df) =>
        var missing := MissingColumns(NormalizedHeaders(Headers(df), lower));
        if missing != [] then Failure(BadRequest(MissingMessage(missing, Headers(df))))
        else
          match SummaryOfFrame(df, lower)
          case Failure(e) => Failure(ServerError("Upload failed: " + e))
          case Success(s) => Success(Accepted(file.value.name, df.rowCount, s))
  }

  /**
   * An upload is accepted only with a named `.csv` file (suffix compared
   * case-sensitively) whose frame has every required column, and what is
   * stored is the file's name, its row count and its frame's summary. The
   * rejections carry the view's messages.
   */
  lemma CheckUploadAccepts(file: Option<UploadedFile>, lower: Lower)
    ensures CheckUpload(file, lower).Success? <==>
      && file.Some? && file.value.name != "" && EndsWith(file.value.name, ".csv")
      && file.value.content.Success?
      && MissingColumns(NormalizedHeaders(Headers(file.value.content.value), lower)) == []
      && SummaryOfFrame(file.value.content.value, lower).Success?
    ensures CheckUpload(file, lower).Success? ==>
      var df := file.value.content.value;
      CheckUpload(file, lower).value == Accepted(file.value.name, df.rowCount, SummaryOfFrame(df, lower).value)
    ensures (file.None? || file.value.name == "") ==> CheckUpload(file, lower) == Failure(BadRequest("No file uploaded"))
    ensures file.Some? && file.value.name != "" && !EndsWith(file.value.name, ".csv") ==>
      CheckUpload(file, lower) == Failure(BadRequest("Only CSV files are allowed"))
  {
  }

  /** Only the final suffix counts, and case matters: `DATA.CSV` is refused. */
  lemma UpperCaseSuffixRefused(content: Result<DataFrame, string>, lower: Lower)
    ensures CheckUpload(Some(UploadedFile("DATA.CSV", content)), lower) == Failure(BadRequest("Only CSV files are allowed"))
  {
    assert "DATA.CSV"[4..] != ".csv" by { assert "DATA.CSV"[5] == 'C'; }
  }

  /** The checks of the upload view up to the point where it creates a row, with `get_summary`'s lookups done by the `find_col` loop. */
  method ValidateUpload(file: Option<UploadedFile>, lower: Lower) returns (r: Result<Accepted, UploadResponse>)
    ensures r == CheckUpload(file, lower)
  {
    if file.None? || file.value.name == "" {
      return Failure(BadRequest("No file uploaded"));
    }
    var f := file.value;
    if !EndsWith(f.name, ".csv") {
      return Failure(BadRequest("Only CSV files are allowed"));
    }
    if f.content.Failure? {
      return Failure(BadRequest("Failed to parse CSV: " + f.content.error));
    }
    var df := f.content.value;
    var missing := MissingColumns(NormalizedHeaders(Headers(df), lower));
    if missing != [] {
      return Failure(BadRequest(MissingMessage(missing, Headers(df))));
    }
    var summary := GetSummary(df, lower);
    if summary.Failure? {
      return Failure(ServerError("Upload failed: " + summary.error));
    }
    return Success(Accepted(f.name, df.rowCount, summary.value));
  }

  /** The whole table of datasets, and the next primary key the database hands out. */
  class DatasetStore {
    var datasets: seq<Dataset>
    var nextId: nat

    ghost predicate Valid()
      reads this
    {
      && NewestFirst(datasets)
      && DistinctIds(datasets)
      && (forall i :: 0 <= i < |datasets| ==> datasets[i].id < nextId)
    }

    constructor ()
      ensures Valid()
      ensures datasets == [] && nextId == 1
    {
      datasets, nextId := [], 1;
    }

    /** The surplus-deletion loop: each dataset beyond the fifth is deleted by primary key, one at a time. */
    method DeleteSurplus()
      requires Valid()
      modifies this`datasets
      ensures Valid()
      ensures datasets == Take(old(datasets), MaxDatasets)
    {
      if |datasets| > MaxDatasets {
        var keep := datasets[..MaxDatasets];
        var surplus := datasets[MaxDatasets..];
        assert keep + surplus == datasets;
        var i := 0;
        while i < |surplus|
          invariant 0 <= i <= |surplus|
          invariant datasets == keep + surplus[i..]
        {
          DeleteStep(keep, surplus, i);
          datasets := Delete(datasets, surplus[i].id);
          i := i + 1;
        }
        assert datasets == keep;
      }
    }

    /**
     * `UploadCSVView.post`. A rejected upload leaves the table unchanged. An
     * accepted one creates a dataset stamped `now` with the next key, and
     * afterwards only the five newest datasets remain. The server clock is
     * taken not to run backwards.
     */
    method Upload(file: Option<UploadedFile>, lower: Lower, now: int) returns (resp: UploadResponse)
      requires Valid()
      requires datasets != [] ==> datasets[0].uploadedAt <= now
      modifies this
      ensures Valid()
      ensures CheckUpload(file, lower).Failure? ==>
        resp == CheckUpload(file, lower).error && datasets == old(datasets) && nextId == old(nextId)
      ensures CheckUpload(file, lower).Success? ==>
        var a := CheckUpload(file, lower).value;
        var d := Dataset(old(nextId), a.fileName, now, a.recordCount, a.summary);
        && resp == Created(d)
        && datasets == Take([d] + old(datasets), MaxDatasets)
        && nextId == old(nextId) + 1
    {
      var checked := ValidateUpload(file, lower);
      if checked.Failure? {
        return checked.error;
      }
      var d := Commit(checked.value, now);
      resp := Created(d);
    }

    /** The accepted branch of the upload view: create the row, then delete the surplus. */
    method Commit(a: Accepted, now: int) returns (d: Dataset)
      requires Valid()
      requires datasets != [] ==> datasets[0].uploadedAt <= now
      modifies this
      ensures Valid()
      ensures d == Dataset(old(nextId), a.fileName, now, a.recordCount, a.summary)
      ensures datasets == Take([d] + old(datasets), MaxDatasets)
      ensures nextId == old(nextId) + 1
    {
      d := Dataset(nextId, a.fileName, now, a.recordCount, a.summary);
      Create(d);
      DeleteSurplus();
    }

    /** `EquipmentDataset.objects.create(...)`: the new row is the newest and takes the next key. */
    method Create(d: Dataset)
      requires Valid()
      requires d.id == nextId
      requires datasets != [] ==> datasets[0].uploadedAt <= d.uploadedAt
      modifies this
      ensures Valid()
      ensures datasets == [d] + old(datasets) && nextId == old(nextId) + 1
    {
      datasets := [d] + datasets;
      nextId := nextId + 1;
    }

    /**
     * `SummaryView.get`. A non-empty `id` is looked up by primary key (a key
     * that is not an integer raises, which the view does not catch). Without
     * one, the first of the ten newest datasets with a non-null average flow
     * rate is chosen, else the newest dataset, else "No data".
     */
    method Summary(idParam: Option<string>, toPk: string -> Option<int>) returns (r: SummaryResponse)
      ensures idParam.Some? && idParam.value != "" ==>
        r == match toPk(idParam.value)
             case None => Unhandled
             case Some(pk) =>
               match FindById(datasets, pk)
               case None => NotFound("Dataset not found")
               case Some(d) => SummaryBody(d.summary)
      ensures (idParam.None? || idParam.value == "") ==>
        if exists i :: 0 <= i < MinNat(|datasets|, SummaryScan) && HasFlowrate(datasets[i]) then
          exists i :: 0 <= i < MinNat(|datasets|, SummaryScan) && HasFlowrate(datasets[i])
            && r == SummaryBody(datasets[i].summary)
            && forall j :: 0 <= j < i ==> !HasFlowrate(datasets[j])
        else if datasets == [] then r == NotFound("No data")
        else r == SummaryBody(datasets[0].summary)
    {
      if idParam.Some? && idParam.value != "" {
        var pk := toPk(idParam.value);
        if pk.None? {
          return Unhandled;
        }
        var dataset := FindById(datasets, pk.value);
        if dataset.None? {
          return NotFound("Dataset not found");
        }
        return SummaryBody(dataset.value.summary);
      }
      var toCheck := Take(datasets, SummaryScan);
      var i := 0;
      while i < |toCheck|
        invariant 0 <= i <= |toCheck|
        invariant forall j :: 0 <= j < i ==> !HasFlowrate(datasets[j])
      {
        if HasFlowrate(toCheck[i]) {
          return SummaryBody(toCheck[i].summary);
        }
        i := i + 1;
      }
      if datasets == [] {
        return NotFound("No data");
      }
      return SummaryBody(datasets[0].summary);
    }

    /** `HistoryView.get`: at most five datasets, the newest, newest first. */
    function History(): (r: seq<Dataset>)
      requires Valid()
      reads this
      ensures |r| <= MaxDatasets && |r| <= |datasets|
      ensures |r| == MaxDatasets || r == datasets
      ensures NewestFirst(r)
      ensures forall i :: 0 <= i < |r| ==> r[i] == datasets[i]
    {
      Take(datasets, MaxDatasets)
    }
  }
}
