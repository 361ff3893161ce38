/**
 * The server-backed session hook of the Django frontend: the same five state
 * cells as the browser-only hook, but every change of summary and history
 * comes from the API. The operations that call the API are guarded by the
 * bearer token from the authentication context: without it `processFile`
 * only reports 'Not authenticated', and `loadSummary`, `loadHistory` and
 * `generatePDF` do nothing. `loadFromHistory`, `loadSampleData` and
 * `clearData` take no token.
 *
 * The outcomes of the HTTP calls (`uploadCSV`, `getSummary`, `getHistory`,
 * `downloadPDF`), the date parser behind `new Date(...)` and the labels
 * `String(Math.random())` produces are parameters. Each operation runs to
 * completion before the next one starts.
 */
module ServerSession {
  import opened Wrappers
  import opened Strings
  import opened EquipmentTypes
  import opened BackendViews

  /** `!token` is false exactly for a non-empty string. */
  predicate Authenticated(token: Option<string>)
  {
    token.Some? && token.value != ""
  }

  /** One element of the `/history/` response as the hook reads it. */
  datatype ServerItem = ServerItem(id: Option<nat>, fileName: string, uploadedAt: string, recordCount: nat, summary: ServerSummary)

  /** One entry of the hook's history; `uploadedAt` is `None` for an invalid date. */
  datatype ServerHistory = ServerHistory(id: string, fileName: string, uploadedAt: Option<int>, recordCount: nat, summary: ServerSummary)

  /** The body of a successful `/upload/` response as the hook reads it: only its `summary`. */
  datatype UploadAck = UploadAck(summary: Option<ServerSummary>)

  /** `new Date(text)` as a time value, `None` when the text is not a date. */
  type ParseDate = string -> Option<int>

  /** The body the upload view sends back for a created dataset carries that dataset's summary. */
  function AckOf(resp: UploadResponse): (r: Option<UploadAck>)
    ensures r.Some? <==> resp.Created?
    ensures resp.Created? ==> r.value.summary == Some(resp.dataset.summary)
  {
    match resp
    case Created(d) => Some(UploadAck(Some(d.summary)))
    case _ => None
  }

  /** The element the history view serializes for a dataset, with its creation time written as `stamp`. */
  function ItemOf(d: Dataset, stamp: string): (r: ServerItem)
    ensures r.id == Some(d.id) && r.fileName == d.fileName && r.recordCount == d.recordCount && r.summary == d.summary
  {
    ServerItem(Some(d.id), d.fileName, stamp, d.recordCount, d.summary)
  }

  /** `item.id?.toString() ?? String(Math.random())`. */
  function EntryId(id: Option<nat>, fallback: string): (r: string)
    ensures id.Some? ==> r == NatToString(id.value)
    ensures id.None? ==> r == fallback
  {
    match id
    case Some(n) => NatToString(n)
    case None => fallback
  }

  /**
   * `result.map(...)`: one entry per item, in the same order, with the
   * server's fields renamed; `labels[i]` stands for the random label the
   * i-th item gets when it has no id.
   */
  function MapHistory(items: seq<ServerItem>, labels: seq<string>, parseDate: ParseDate): (r: seq<ServerHistory>)
    requires |labels| == |items|
    ensures |r| == |items|
    ensures forall i :: 0 <= i < |r| ==>
      && r[i].id == EntryId(items[i].id, labels[i])
      && r[i].fileName == items[i].fileName
      && r[i].uploadedAt == parseDate(items[i].uploadedAt)
      && r[i].recordCount == items[i].recordCount
      && r[i].summary == items[i].summary
  {
    if items == [] then []
    else
      [ServerHistory(EntryId(items[0].id, labels[0]), items[0].fileName, parseDate(items[0].uploadedAt),
                     items[0].recordCount, items[0].summary)]
      + MapHistory(items[1..], labels[1..], parseDate)
  }

  /** Items that carry pairwise different ids become entries with pairwise different ids. */
  lemma MapHistoryIdsDistinct(items: seq<ServerItem>, labels: seq<string>, parseDate: ParseDate)
    requires |labels| == |items|
    requires forall i :: 0 <= i < |items| ==> items[i].id.Some?
    requires forall i, j :: 0 <= i < j < |items| ==> items[i].id != items[j].id
    ensures forall i, j :: 0 <= i < j < |items| ==>
      MapHistory(items, labels, parseDate)[i].id != MapHistory(items, labels, parseDate)[j].id
  {
    var r := MapHistory(items, labels, parseDate);
    forall i, j | 0 <= i < j < |items| ensures r[i].id != r[j].id {
      NatToStringDistinct(items[i].id.value, items[j].id.value);
    }
  }

  /**
   * The history the server sends back for a consistent dataset table, once
   * mapped, lists the datasets in the table's order under their keys, and
   * so has distinct entry ids.
   */
  lemma ServedHistoryIdsDistinct(ds: seq<Dataset>, stamps: seq<string>, labels: seq<string>, parseDate: ParseDate)
    requires DistinctIds(ds)
    requires |stamps| == |ds| && |labels| == |ds|
    ensures var items := seq(|ds|, i requires 0 <= i < |ds| => ItemOf(ds[i], stamps[i]));
      var r := MapHistory(items, labels, parseDate);
      && |r| == |ds|
      && (forall i :: 0 <= i < |r| ==> r[i].id == NatToString(ds[i].id) && r[i].fileName == ds[i].fileName)
      && (forall i, j :: 0 <= i < j < |r| ==> r[i].id != r[j].id)
  {
    var items := seq(|ds|, i requires 0 <= i < |ds| => ItemOf(ds[i], stamps[i]));
    MapHistoryIdsDistinct(items, labels, parseDate);
  }

  // ---------------------------------------------------------------------------
  // The hook's state
  // ---------------------------------------------------------------------------

  class ServerSession {
    var data: seq<EquipmentRecord>
    var summary: Option<ServerSummary>
    var uploadHistory: seq<ServerHistory>
    var isLoading: bool
    var error: Option<string>

    /** No operation of this hook ever fills `data`: it stays the initial empty list. */
    ghost predicate Valid()
      reads this
    {
      data == []
    }

    constructor ()
      ensures Valid()
      ensures summary == None && uploadHistory == [] && !isLoading && error == None
    {
      data, summary, uploadHistory, isLoading, error := [], None, [], false, None;
    }

    /**
     * `loadHistory`: without a token nothing happens. Otherwise a served
     * list replaces the history wholesale; a failed request keeps the old
     * history and sets the error. The loading flag is not touched.
     */
    method LoadHistory(token: Option<string>, fetched: Result<seq<ServerItem>, Thrown>,
                       labels: seq<string>, parseDate: ParseDate)
      requires Valid()
      requires fetched.Success? ==> |labels| == |fetched.value|
      modifies this`uploadHistory, this`error
      ensures Valid()
      ensures !Authenticated(token) ==> uploadHistory == old(uploadHistory) && error == old(error)
      ensures Authenticated(token) && fetched.Success? ==>
        uploadHistory == MapHistory(fetched.value, labels, parseDate) && error == old(error)
      ensures Authenticated(token) && fetched.Failure? ==>
        uploadHistory == old(uploadHistory) && error == Some(MessageOr(fetched.error, "Failed to load history"))
    {
      if !Authenticated(token) {
        return;
      }
      match fetched {
        case Success(items) =>
          uploadHistory := MapHistory(items, labels, parseDate);
        case Failure(err) =>
          error := Some(MessageOr(err, "Failed to load history"));
      }
    }

    /**
     * `processFile`: without a token only the error is set. Otherwise loading
     * is switched on and the error cleared; an accepted upload replaces the
     * summary with the one in the response (or none) and reloads the
     * history, whose own failure is reported as its own error; a failed
     * upload sets the error and keeps summary and history. Loading ends off
     * on every path that switched it on.
     */
    method ProcessFile(token: Option<string>, upload: Result<UploadAck, Thrown>,
                       fetched: Result<seq<ServerItem>, Thrown>, labels: seq<string>, parseDate: ParseDate)
      requires Valid()
      requires fetched.Success? ==> |labels| == |fetched.value|
      modifies this
      ensures Valid()
      ensures !Authenticated(token) ==>
        && error == Some("Not authenticated")
        && isLoading == old(isLoading) && summary == old(summary) && uploadHistory == old(uploadHistory)
      ensures Authenticated(token) ==> !isLoading
      ensures Authenticated(token) && upload.Failure? ==>
        && error == Some(MessageOr(upload.error, "Failed to upload file"))
        && summary == old(summary) && uploadHistory == old(uploadHistory)
      ensures Authenticated(token) && upload.Success? ==>
        && summary == upload.value.summary
        && (fetched.Success? ==> uploadHistory == MapHistory(fetched.value, labels, parseDate) && error == None)
        && (fetched.Failure? ==>
              uploadHistory == old(uploadHistory) && error == Some(MessageOr(fetched.error, "Failed to load history")))
    {
      if !Authenticated(token) {
        error := Some("Not authenticated");
        return;
      }
      isLoading := true;
      error := None;
      match upload {
        case Success(ack) =>
          summary := ack.summary;
          LoadHistory(token, fetched, labels, parseDate);
        case Failure(err) =>
          error := Some(MessageOr(err, "Failed to upload file"));
      }
      isLoading := false;
    }

    /**
     * `loadSummary`: without a token nothing happens. Otherwise the served
     * summary (or none) replaces the current one, or a failed request sets
     * the error. The error is not cleared first, and loading ends off.
     */
    method LoadSummary(token: Option<string>, fetched: Result<Option<ServerSummary>, Thrown>)
      requires Valid()
      modifies this`summary, this`error, this`isLoading
      ensures Valid()
      ensures !Authenticated(token) ==> summary == old(summary) && error == old(error) && isLoading == old(isLoading)
      ensures Authenticated(token) ==> !isLoading
      ensures Authenticated(token) && fetched.Success? ==> summary == fetched.value && error == old(error)
      ensures Authenticated(token) && fetched.Failure? ==>
        summary == old(summary) && error == Some(MessageOr(fetched.error, "Failed to load summary"))
    {
      if !Authenticated(token) {
        return;
      }
      isLoading := true;
      match fetched {
        case Success(s) =>
          summary := s;
        case Failure(err) =>
          error := Some(MessageOr(err, "Failed to load summary"));
      }
      isLoading := false;
    }

    /** `loadFromHistory`: the entry's summary is shown; nothing else changes. */
    method LoadFromHistory(item: ServerHistory)
      requires Valid()
      modifies this`summary
      ensures Valid()
      ensures summary == Some(item.summary)
    {
      summary := Some(item.summary);
    }

    /**
     * `generatePDF`: without a token nothing happens. A served report is
     * handed to the browser as a download and leaves the state alone; a
     * failed request sets the error.
     */
    method GeneratePdf(token: Option<string>, download: Result<(), Thrown>)
      requires Valid()
      modifies this`error
      ensures Valid()
      ensures Authenticated(token) && download.Failure? ==>
        error == Some(MessageOr(download.error, "Failed to download PDF"))
      ensures !(Authenticated(token) && download.Failure?) ==> error == old(error)
    {
      if Authenticated(token) && download.Failure? {
        error := Some(MessageOr(download.error, "Failed to download PDF"));
      }
    }

    /** `loadSampleData`: this variant only reports that sample data is not available. */
    method LoadSampleData()
      requires Valid()
      modifies this`error
      ensures Valid()
      ensures error == Some("Sample data loading not implemented with API")
    {
      error := Some("Sample data loading not implemented with API");
    }

    /** `clearData`: data, summary and error reset; the history is kept. */
    method ClearData()
      requires Valid()
      modifies this`data, this`summary, this`error
      ensures Valid()
      ensures data == [] && summary == None && error == None
    {
      data := [];
      summary := None;
      error := None;
    }
  }

  /**
   * An accepted upload seen end to end: the dataset table takes the file,
   * its response travels back, and the session shows the summary the server
   * stored for the new dataset.
   */
  method UploadEndToEnd(store: DatasetStore, session: ServerSession, token: Option<string>,
                        file: Option<UploadedFile>, lower: Lower, now: int,
                        fetched: Result<seq<ServerItem>, Thrown>, labels: seq<string>, parseDate: ParseDate)
    requires store.Valid() && session.Valid()
    requires store.datasets != [] ==> store.datasets[0].uploadedAt <= now
    requires Authenticated(token)
    requires fetched.Success? ==> |labels| == |fetched.value|
    requires CheckUpload(file, lower).Success?
    modifies store, session
    ensures store.Valid() && session.Valid()
    ensures session.summary == Some(CheckUpload(file, lower).value.summary)
    ensures store.datasets != [] && store.datasets[0].summary == CheckUpload(file, lower).value.summary
  {
    var resp := store.Upload(file, lower, now);
    var ack := AckOf(resp);
    session.ProcessFile(token, Success(ack.value), fetched, labels, parseDate);
  }
}
