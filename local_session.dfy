/**
 * The browser-only session hook: five state cells (data, summary, upload
 * history, loading flag, error) and the operations that change them. The
 * history is a newest-first ledger capped at five entries.
 *
 * The tokenizer's outcome, the clock readings (`Date.now()`, `new Date()`)
 * and the random readings of the demo generator are parameters. Each
 * operation runs to completion before the next one starts.
 */
module LocalSession {
  import opened Wrappers
  import opened Strings
  import opened EquipmentTypes
  import opened CsvParser
  import opened Sequences

  const MaxHistory: nat := 5

  const SampleFileName: string := "sample_equipment_data.csv"

  // ---------------------------------------------------------------------------
  // The history ledger
  // ---------------------------------------------------------------------------

  /**
   * `[entry, ...prev].slice(0, MAX_HISTORY)`: the new entry first, then the
   * older entries in their order, with only those beyond the cap dropped.
   */
  function Recorded(history: seq<UploadHistory>, entry: UploadHistory): (r: seq<UploadHistory>)
    ensures |r| == MinNat(|history| + 1, MaxHistory)
    ensures r[0] == entry
    ensures r[1..] == history[..MinNat(|history|, MaxHistory - 1)]
  {
    ([entry] + history)[..MinNat(|history| + 1, MaxHistory)]
  }

  /** Recording `entries` one after another, first to last. */
  function RecordAll(history: seq<UploadHistory>, entries: seq<UploadHistory>): seq<UploadHistory>
    decreases |entries|
  {
    if entries == [] then history else RecordAll(Recorded(history, entries[0]), entries[1..])
  }

  /**
   * After any sequence of recordings the ledger holds the most recently
   * recorded entries, newest first, followed by what it held before, cut to
   * five entries: older entries are evicted first and never come back.
   */
  lemma {:induction false} RecordAllKeepsNewest(history: seq<UploadHistory>, entries: seq<UploadHistory>)
    requires |history| <= MaxHistory
    ensures RecordAll(history, entries) == Take(Reverse(entries) + history, MaxHistory)
    decreases |entries|
  {
    if entries == [] {
      assert Reverse(entries) + history == history;
    } else {
      var e := entries[0];
      RecordAllKeepsNewest(Recorded(history, e), entries[1..]);
      assert Recorded(history, e) == Take([e] + history, MaxHistory);
      TakeOfTake(Reverse(entries[1..]), [e] + history, MaxHistory);
      assert Reverse(entries) == Reverse(entries[1..]) + [e];
      assert Reverse(entries[1..]) + ([e] + history) == Reverse(entries) + history;
    }
  }

  function FindEntry(history: seq<UploadHistory>, id: string): (r: Option<UploadHistory>)
    ensures r.None? <==> forall i :: 0 <= i < |history| ==> history[i].id != id
    ensures r.Some? ==> exists i :: (0 <= i < |history| && history[i] == r.value && r.value.id == id &&
      forall j :: 0 <= j < i ==> history[j].id != id)
  {
    if history == [] then None
    else if history[0].id == id then Some(history[0])
    else
      var r := FindEntry(history[1..], id);
      if r.Some? then
        var i :| 0 <= i < |history[1..]| && history[1..][i] == r.value && r.value.id == id &&
          forall j :: 0 <= j < i ==> history[1..][j].id != id;
        assert history[i + 1] == history[1..][i];
        r
      else
        r
  }

  /** The summary shown after selecting `id`: the first matching entry's, or the current one. */
  function SelectFromHistory(history: seq<UploadHistory>, id: string, current: Option<DataSummary>): Option<DataSummary>
  {
    match FindEntry(history, id)
    case Some(e) => Some(e.summary)
    case None => current
  }

  /** Selecting the same entry twice shows the same summary as selecting it once. */
  lemma SelectIdempotent(history: seq<UploadHistory>, id: string, current: Option<DataSummary>)
    ensures SelectFromHistory(history, id, SelectFromHistory(history, id, current)) == SelectFromHistory(history, id, current)
  {
  }

  /** `upload-${Date.now()}`. */
  function HistoryId(now: nat): string
  {
    "upload-" + NatToString(now)
  }

  // ---------------------------------------------------------------------------
  // The hook's state
  // ---------------------------------------------------------------------------

  class Session {
    var data: seq<EquipmentRecord>
    var summary: Option<DataSummary>
    var uploadHistory: seq<UploadHistory>
    var isLoading: bool
    var error: Option<string>

    /** The ledger never holds more than `MaxHistory` entries. */
    ghost predicate Valid()
      reads this
    {
      |uploadHistory| <= MaxHistory
    }

    constructor ()
      ensures Valid()
      ensures data == [] && summary == None && uploadHistory == [] && !isLoading && error == None
    {
      data, summary, uploadHistory, isLoading, error := [], None, [], false, None;
    }

    /** The synchronous start of `processFile` and `loadSampleData`: loading on, error cleared. */
    method BeginLoading()
      modifies this
      ensures isLoading && error == None
      ensures data == old(data) && summary == old(summary) && uploadHistory == old(uploadHistory)
    {
      isLoading := true;
      error := None;
    }

    /**
     * The success path shared by `processFile` and `loadSampleData`: the
     * records and summary are replaced, `entry` is recorded, loading ends.
     */
    method Show(records: seq<EquipmentRecord>, s: DataSummary, entry: UploadHistory)
      requires Valid()
      modifies this
      ensures Valid()
      ensures !isLoading && error == old(error)
      ensures data == records && summary == Some(s)
      ensures uploadHistory == Recorded(old(uploadHistory), entry)
    {
      data, summary := records, Some(s);
      uploadHistory := Recorded(uploadHistory, entry);
      isLoading := false;
    }

    /**
     * `processFile`: on success the records and summary are replaced and a new
     * entry is recorded; on failure only the error is set. Loading ends off on
     * both paths.
     */
    method ProcessFile(fileName: string, tokenized: TokenizerResult, parseFloat: ParseFloat, now: nat, uploadedAt: int)
      requires Valid()
      modifies this
      ensures Valid()
      ensures !isLoading
      ensures tokenized.TokenizerError? ==>
        && data == old(data) && summary == old(summary) && uploadHistory == old(uploadHistory)
        && error == Some(MessageOr(tokenized.err, "Failed to process file"))
      ensures tokenized.Rows? ==>
        var d := NormalizeRows(tokenized.rows, parseFloat);
        && data == d
        && summary == Some(SummaryOf(d))
        && error == None
        && uploadHistory == Recorded(old(uploadHistory), UploadHistory(HistoryId(now), fileName, uploadedAt, |d|, SummaryOf(d)))
    {
      BeginLoading();
      var result := ParseCsvFile(tokenized, parseFloat);
      match result {
        case Success(parsed) =>
          Show(parsed.data, parsed.summary, UploadHistory(HistoryId(now), fileName, uploadedAt, |parsed.data|, parsed.summary));
        case Failure(err) =>
          error := Some(MessageOr(err, "Failed to process file"));
          isLoading := false;
      }
    }

    /**
     * The timer callback of `loadSampleData`: 25 generated records, their
     * summary, and a recorded entry for the sample file. The error cell is
     * not touched here.
     */
    method SampleTimerFired(draws: seq<Draw>, now: nat, uploadedAt: int)
      requires Valid()
      requires |draws| == SampleSize
      requires forall i :: 0 <= i < |draws| ==> IsDraw(draws[i])
      modifies this
      ensures Valid()
      ensures !isLoading && error == old(error)
      ensures data == SampleData(draws)
      ensures summary == Some(SummaryOf(data))
      ensures uploadHistory == Recorded(old(uploadHistory), UploadHistory(HistoryId(now), SampleFileName, uploadedAt, SampleSize, SummaryOf(data)))
    {
      var sampleData := SampleData(draws);
      var sampleSummary := CalculateSummary(sampleData);
      Show(sampleData, sampleSummary, UploadHistory(HistoryId(now), SampleFileName, uploadedAt, |sampleData|, sampleSummary));
    }

    /**
     * `loadSampleData` with its timer firing before any other operation:
     * loading on and error cleared, then the callback's effect.
     */
    method LoadSampleData(draws: seq<Draw>, now: nat, uploadedAt: int)
      requires Valid()
      requires |draws| == SampleSize
      requires forall i :: 0 <= i < |draws| ==> IsDraw(draws[i])
      modifies this
      ensures Valid()
      ensures !isLoading && error == None
      ensures data == SampleData(draws)
      ensures summary == Some(SummaryOf(data))
      ensures uploadHistory == Recorded(old(uploadHistory), UploadHistory(HistoryId(now), SampleFileName, uploadedAt, SampleSize, SummaryOf(data)))
    {
      BeginLoading();
      SampleTimerFired(draws, now, uploadedAt);
    }

    /** `loadFromHistory`: shows the first matching entry's summary; an unknown id changes nothing. */
    method LoadFromHistory(historyId: string)
      requires Valid()
      modifies this`summary
      ensures Valid()
      ensures summary == SelectFromHistory(uploadHistory, historyId, old(summary))
      ensures FindEntry(uploadHistory, historyId).None? ==> summary == old(summary)
    {
      var entry := FindEntry(uploadHistory, historyId);
      if entry.Some? {
        summary := Some(entry.value.summary);
      }
    }

    /** `clearData`: records, summary and error reset; the history is kept. */
    method ClearData()
      requires Valid()
      modifies this`data, this`summary, this`error
      ensures Valid()
      ensures data == [] && summary == None && error == None
    {
      data := [];
      summary := None;
      error := None;
    }
  }

  /** Selecting a history entry twice leaves the session as selecting it once does. */
  method SelectTwice(s: Session, historyId: string)
    requires s.Valid()
    modifies s
    ensures s.Valid()
    ensures s.summary == SelectFromHistory(s.uploadHistory, historyId, old(s.summary))
    ensures s.data == old(s.data) && s.uploadHistory == old(s.uploadHistory)
    ensures s.isLoading == old(s.isLoading) && s.error == old(s.error)
  {
    s.LoadFromHistory(historyId);
    var once := s.summary;
    s.LoadFromHistory(historyId);
    SelectIdempotent(s.uploadHistory, historyId, old(s.summary));
    assert s.summary == once;
  }
}
