# Chemical equipment visualizer: a Dafny model of its data pipeline

The repository has two front ends and a Django server for uploading CSV files
of chemical equipment parameters: flow rate, pressure and temperature per named
piece of equipment. The front ends show summaries and keep a short upload
history. This project models the parts of it that hold real logic:

- **CSV normalisation and summary** (`chemical1/src/lib/csvParser.ts`, module
  `CsvParser`).
  - Rows are key/value maps. Each field takes the first truthy spelling of its key.
  - Numeric fields fall back to `0`.
  - Rows whose name is the empty string are dropped. Ids are `eq-<n>`, numbered by position in the unfiltered rows.
  - The summary has the count, mean, minimum and maximum of each metric, and the type distribution.
  - The 25-record demo generator is modelled, with its random readings passed in.
- **The browser-only session hook** (`chemical1/src/hooks/useEquipmentData.ts`,
  module `LocalSession`).
  - It is a class with five state cells.
  - The upload history is a newest-first ledger capped at five entries.
  - It supports loading a file, loading sample data, selecting a history entry and clearing.
- **The server-backed session hook** (`djangobackend/frontend/src/hooks/useEquipmentData.ts`,
  module `ServerSession`).
  - It holds the same cells. `processFile`, `loadSummary`, `loadHistory` and `generatePDF` are guarded by the token; `loadFromHistory`, `loadSampleData` and `clearData` are not.
  - Summary and history come from the server, and the record list stays empty.
- **The equipment table** (`djangobackend/frontend/src/components/EquipmentTable.tsx`,
  module `EquipmentTable`).
  - A case-insensitive search filter.
  - Sorting on a copy: numeric keys by difference, text keys through `localeCompare`.
  - Pages of ten.
  - The sort toggle, the search that resets the page, and the clamped previous/next buttons.
- **The server views** (`djangobackend/backend/equipment/views.py`, module
  `BackendViews`).
  - The upload checks: a file is present, the name ends in `.csv`, the content parses, the required columns are present, and the summary can be built.
  - `find_col` and `get_summary`.
  - The dataset table, ordered newest first, and the loop that keeps only the five newest datasets.
  - Selection in the summary endpoint, and the history endpoint.

Shared helpers live in `Wrappers` (`Option`, `Result`), `Strings` (decimal
rendering, `padStart`, substring search, `endswith`, `strip`, `join`),
`Sequences` (slicing, filtering) and `Sorting` (the sort used by the table).
`EquipmentTypes` holds the front-end record, summary and history types.

Library behaviour is a parameter of the operations that use it:
- `parseFloat`, `toLowerCase` / `str.lower`, `localeCompare` and `new Date(...)`;
- the random readings and the clock;
- the outcomes of the HTTP calls and of the CSV tokenizers (papaparse, `pd.read_csv`).

Three behaviours of the code are worth knowing:
- Names made only of whitespace are **kept**. Only the empty string is dropped (`WhitespaceNameKept`).
- Record ids are numbered by position in the **unfiltered** rows, so they can skip numbers (`IdsSkipDroppedRows`).
- `clearData` keeps the upload history in both hooks.

One behaviour of the server is worth knowing. The upload check accepts a header
that merely *contains* a required name, such as `Flowrate (m3/h)`. `find_col`
needs an exact case-insensitive match, so such a file is accepted but gets
`null` statistics for that metric (`UnitSuffixAcceptedButUnread`).

## Model

| member | source | states |
|---|---|---|
| Strings.NatToString | chemical1/src/lib/csvParser.ts:12 | `String(n)` is a non-empty string of decimal digits with no leading zero |
| Strings.DigitsValueOfNatToString | chemical1/src/lib/csvParser.ts:12 | reading the rendered digits back gives the number |
| Strings.NatToStringDistinct | chemical1/src/lib/csvParser.ts:12 | distinct numbers render differently |
| Strings.PadStart | chemical1/src/lib/csvParser.ts:85 | `padStart` gives length max(len, width), ends with the input and is filled with the pad character in front |
| Strings.Pad3Value | chemical1/src/lib/csvParser.ts:85 | below 1000, `String(n).padStart(3,'0')` has three digits and denotes n |
| Strings.Pad3Distinct | chemical1/src/lib/csvParser.ts:85 | padded sample numbers below 1000 are pairwise distinct |
| Strings.ContainsAt | djangobackend/frontend/src/components/EquipmentTable.tsx:31-32 | `includes` / `in` holds iff the substring occurs at some offset |
| Strings.ContainsTrivial | djangobackend/frontend/src/components/EquipmentTable.tsx:31-32 | every string contains itself and the empty string |
| Strings.StripSpec | djangobackend/backend/equipment/views.py:54 | `strip()` keeps the middle, drops only whitespace (ASCII and Unicode, as `str.isspace`) around it and leaves no whitespace at either end |
| Strings.StripUnchanged | djangobackend/backend/equipment/views.py:54 | a header with no surrounding whitespace is unchanged by `strip()` |
| Strings.StripNoBreakSpace | djangobackend/backend/equipment/views.py:54 | a leading no-break space is stripped: `"\u00a0Type"` becomes `"Type"` |
| Sequences.Take | chemical1/src/hooks/useEquipmentData.ts:35 | `slice(0, n)` is the prefix of length min(len, n) |
| Sequences.TakeOfTake | chemical1/src/hooks/useEquipmentData.ts:33-36 | cutting to n after cutting to n is cutting once |
| Sequences.Filter | djangobackend/frontend/src/components/EquipmentTable.tsx:30-33 | `filter` keeps only elements satisfying the predicate and never grows |
| Sequences.FilterMembers | djangobackend/frontend/src/components/EquipmentTable.tsx:30-33 | every kept element comes from the input, and every satisfying input element is kept |
| Sequences.FilterConcat | djangobackend/frontend/src/components/EquipmentTable.tsx:30-33 | filtering a concatenation is concatenating the filtered parts, so order is preserved |
| Sorting.Sort | djangobackend/frontend/src/components/EquipmentTable.tsx:35 | sorting a copy yields a permutation of the rows |
| Sorting.InsertSorted | djangobackend/frontend/src/components/EquipmentTable.tsx:39-41 | with a difference comparator, inserting into sorted rows keeps them sorted |
| Sorting.SortSorted | djangobackend/frontend/src/components/EquipmentTable.tsx:39-41 | with a difference comparator, the result is non-decreasing in the key |
| CsvParser.FirstTruthy | chemical1/src/lib/csvParser.ts:13-17 | `a \|\| b \|\| c` picks the first truthy spelling, and is none iff every spelling is falsy |
| CsvParser.FirstTruthy2 | chemical1/src/lib/csvParser.ts:14 | the two-key resolution as a case split |
| CsvParser.FirstTruthy3 | chemical1/src/lib/csvParser.ts:13 | the three-key resolution as a case split |
| CsvParser.RecordIdDistinct | chemical1/src/lib/csvParser.ts:12 | `eq-${index+1}` ids of distinct indices differ |
| CsvParser.NormalizeRowFields | chemical1/src/lib/csvParser.ts:11-17 | each field is the first truthy key's value, and an unparseable or missing number is 0 |
| CsvParser.MapRows | chemical1/src/lib/csvParser.ts:11-17 | one normalised record per row, in order, numbered by row index |
| CsvParser.KeepNamed | chemical1/src/lib/csvParser.ts:18 | survivors have non-empty names and come from the input |
| CsvParser.KeepNamedSelects | chemical1/src/lib/csvParser.ts:18 | survivors are exactly the named records, in input order, at increasing indices |
| CsvParser.NormalizeRowsSelects | chemical1/src/lib/csvParser.ts:11-18 | the output is the named rows' records, in order, each keeping its unfiltered index in its id |
| CsvParser.NormalizedNamesAndIds | chemical1/src/lib/csvParser.ts:11-18 | every output name is non-empty and the ids are pairwise distinct |
| CsvParser.NameOnlyRow | chemical1/src/lib/csvParser.ts:13-17 | a row with only a name gets empty type and zero metrics |
| CsvParser.WhitespaceNameKept | chemical1/src/lib/csvParser.ts:11-18 | a whitespace-only name survives the filter |
| CsvParser.IdsSkipDroppedRows | chemical1/src/lib/csvParser.ts:11-18 | a dropped row still consumes its number: the survivor is `eq-2` |
| CsvParser.Values | chemical1/src/lib/csvParser.ts:50-52 | the metric column has one value per record, in order |
| CsvParser.MinOf | chemical1/src/lib/csvParser.ts:65-69 | `Math.min(...xs)` is an element no greater than any other |
| CsvParser.MaxOf | chemical1/src/lib/csvParser.ts:66-70 | `Math.max(...xs)` is an element no smaller than any other |
| CsvParser.Count | chemical1/src/lib/csvParser.ts:54-57 | a type's count is at most the number of records |
| CsvParser.SummaryOf | chemical1/src/lib/csvParser.ts:33-71 | the total is the length; the distribution has exactly the occurring types, each with its positive count; empty input gives the zero summary |
| CsvParser.CountPositive | chemical1/src/lib/csvParser.ts:54-57 | every occurring type has a positive count |
| CsvParser.SumBounds | chemical1/src/lib/csvParser.ts:61-63 | a sum lies between n·lo and n·hi |
| CsvParser.MeanBetween | chemical1/src/lib/csvParser.ts:61-63 | the mean lies between the bounds |
| CsvParser.SummaryBounds | chemical1/src/lib/csvParser.ts:59-71 | for non-empty data, min ≤ mean ≤ max, min and max are attained and bound every value |
| CsvParser.DistributionSumsToTotal | chemical1/src/lib/csvParser.ts:54-60 | the distribution's counts add up to totalCount |
| CsvParser.TypeCountsSnoc | chemical1/src/lib/csvParser.ts:55-57 | one more record increments its type's count (from 0 when new) |
| CsvParser.CalculateSummary | chemical1/src/lib/csvParser.ts:33-72 | the loop-based computation equals the summary specification |
| CsvParser.ParseCsvFile | chemical1/src/lib/csvParser.ts:4-31 | a tokenizer error is passed on; otherwise the result is the normalised rows and their summary |
| CsvParser.PumpRowNormalized | chemical1/src/lib/csvParser.ts:11-17 | a pump row normalises to `eq-1`, "Pump A", "Pump", 100, 5, 20 |
| CsvParser.NamelessRowNormalized | chemical1/src/lib/csvParser.ts:13 | a row without a name key gets the empty name |
| CsvParser.FirstOfTwoRows | chemical1/src/lib/csvParser.ts:18 | of a named and an unnamed row, only the first survives |
| CsvParser.PumpExampleRecords | chemical1/src/lib/csvParser.ts:11-18 | the two-row example yields the single pump record |
| CsvParser.SingleRecordSummary | chemical1/src/lib/csvParser.ts:59-71 | one record's summary has its values as mean, min and max and a single type count |
| CsvParser.PumpExample | chemical1/src/lib/csvParser.ts:11-20 | the example file's summary, end to end |
| CsvParser.Pick | chemical1/src/lib/csvParser.ts:80-81 | `floor(random·n)` is a valid index |
| CsvParser.Round2Within | chemical1/src/lib/csvParser.ts:87-89 | rounding to cents stays within the bounds and has two decimals |
| CsvParser.SampleData | chemical1/src/lib/csvParser.ts:79 | the generator makes 25 records |
| CsvParser.SampleShape | chemical1/src/lib/csvParser.ts:79-91 | each sample record has id `eq-(i+1)`, a listed type, a prefixed padded name and metrics in their ranges with two decimals |
| CsvParser.SampleNamesDistinct | chemical1/src/lib/csvParser.ts:84-85 | sample names and ids are pairwise distinct |
| LocalSession.Recorded | chemical1/src/hooks/useEquipmentData.ts:33-36 | the ledger holds the new entry, then the old entries in order, cut to five |
| LocalSession.RecordAllKeepsNewest | chemical1/src/hooks/useEquipmentData.ts:33-36 | after any run of recordings the ledger is the five most recent, newest first; evicted entries never return |
| LocalSession.FindEntry | chemical1/src/hooks/useEquipmentData.ts:74 | `find` returns the first entry with the id, or none iff no entry has it |
| LocalSession.SelectIdempotent | chemical1/src/hooks/useEquipmentData.ts:73-78 | selecting the same id twice shows what selecting once shows |
| LocalSession.Session.constructor | chemical1/src/hooks/useEquipmentData.ts:8-12 | empty data, no summary, empty history, not loading, no error |
| LocalSession.Session.BeginLoading | chemical1/src/hooks/useEquipmentData.ts:15-16 | loading on, error cleared, nothing else changes |
| LocalSession.Session.Show | chemical1/src/hooks/useEquipmentData.ts:21-36 | data and summary replaced, entry recorded, loading off, history bound kept |
| LocalSession.Session.ProcessFile | chemical1/src/hooks/useEquipmentData.ts:14-43 | success replaces data and summary and records `upload-<now>` with the file name and count; failure sets the message (or 'Failed to process file') and keeps everything else; loading ends off |
| LocalSession.Session.SampleTimerFired | chemical1/src/hooks/useEquipmentData.ts:49-70 | the timer shows 25 sample records and their summary and records 'sample_equipment_data.csv' with count 25 |
| LocalSession.Session.LoadSampleData | chemical1/src/hooks/useEquipmentData.ts:45-71 | loading and error reset, then the timer's effect |
| LocalSession.Session.LoadFromHistory | chemical1/src/hooks/useEquipmentData.ts:73-78 | the first matching entry's summary is shown; an unknown id changes nothing; only the summary may change |
| LocalSession.Session.ClearData | chemical1/src/hooks/useEquipmentData.ts:80-84 | data, summary and error reset; history kept |
| LocalSession.SelectTwice | chemical1/src/hooks/useEquipmentData.ts:73-78 | two selections of the same id leave the state that one selection leaves; data, history, loading flag and error are untouched |
| EquipmentTable.FilteredDataExactly | djangobackend/frontend/src/components/EquipmentTable.tsx:30-33 | kept rows are exactly the matching rows, in order |
| EquipmentTable.EmptyQueryKeepsAll | djangobackend/frontend/src/components/EquipmentTable.tsx:30-33 | an empty search keeps every row |
| EquipmentTable.SortedData | djangobackend/frontend/src/components/EquipmentTable.tsx:35-48 | the sorted rows are a permutation of the filtered rows |
| EquipmentTable.NumericSortOrder | djangobackend/frontend/src/components/EquipmentTable.tsx:35-41 | on a numeric key the rows are non-decreasing ascending and non-increasing descending |
| EquipmentTable.TotalPages | djangobackend/frontend/src/components/EquipmentTable.tsx:50 | `ceil(n/10)`: the least page count whose pages hold n rows |
| EquipmentTable.PageOf | djangobackend/frontend/src/components/EquipmentTable.tsx:51-52 | a page is at most ten consecutive rows from (page−1)·10, full when enough rows remain |
| EquipmentTable.PagesFromSuffix | djangobackend/frontend/src/components/EquipmentTable.tsx:50-52 | pages from p to the last concatenate to the rows from p's start |
| EquipmentTable.PagesCoverRows | djangobackend/frontend/src/components/EquipmentTable.tsx:50-52 | pages 1..totalPages concatenate back to the rows |
| EquipmentTable.PaginatedData | djangobackend/frontend/src/components/EquipmentTable.tsx:30-52 | the shown rows are at most ten matching rows of the data |
| EquipmentTable.TableState.constructor | djangobackend/frontend/src/components/EquipmentTable.tsx:16-19 | initial key `equipmentName`, ascending, page 1, empty search |
| EquipmentTable.TableState.HandleSort | djangobackend/frontend/src/components/EquipmentTable.tsx:21-28 | same key flips the direction; another key is selected ascending |
| EquipmentTable.TableState.OnSearchChange | djangobackend/frontend/src/components/EquipmentTable.tsx:85-88 | a new search resets the page to 1 |
| EquipmentTable.TableState.PrevPage | djangobackend/frontend/src/components/EquipmentTable.tsx:130 | `max(1, p−1)` |
| EquipmentTable.TableState.NextPage | djangobackend/frontend/src/components/EquipmentTable.tsx:137 | `min(totalPages, p+1)`, never beyond the last page |
| EquipmentTable.TableState.Shown | djangobackend/frontend/src/components/EquipmentTable.tsx:30-52 | the body shows at most ten rows matching the current search |
| EquipmentTable.SortToggleTwice | djangobackend/frontend/src/components/EquipmentTable.tsx:21-28 | clicking the current key twice restores the direction |
| BackendViews.NormalizedHeaders | djangobackend/backend/equipment/views.py:54 | one stripped, lowercased name per header |
| BackendViews.PresentIffContained | djangobackend/backend/equipment/views.py:56 | `any(r == c or r in c)` holds iff some column contains r |
| BackendViews.MissingColumnsInOrder | djangobackend/backend/equipment/views.py:55-56 | the missing list is the absent required names in the order type, flowrate, pressure, temperature |
| BackendViews.MissingColumnsExactly | djangobackend/backend/equipment/views.py:55-57 | a name is reported missing iff it is required and no column equals or contains it |
| BackendViews.FindColumnFrom | djangobackend/backend/equipment/views.py:89-93 | the first header from a position on that equals the key once lowercased |
| BackendViews.FindColumn | djangobackend/backend/equipment/views.py:89-93 | `find_col` finds the first case-insensitively equal header, or none iff there is none |
| BackendViews.FindCol | djangobackend/backend/equipment/views.py:89-93 | the loop returns that first match |
| BackendViews.UnitSuffixAcceptedButUnread | djangobackend/backend/equipment/views.py:54-93 | `Flowrate (m3/h)` passes the column check, but `find_col('Flowrate')` does not find it |
| BackendViews.StatsAt | djangobackend/backend/equipment/views.py:100-111 | statistics are null iff the column is absent or the frame is empty; computing them fails iff present, non-empty and not numeric |
| BackendViews.SummaryOfFrameShape | djangobackend/backend/equipment/views.py:95-112 | the count is the row count; null averages go with null min/max; no Type column gives `{}`; failure iff a metric fails |
| BackendViews.GetSummary | djangobackend/backend/equipment/views.py:87-113 | `get_summary` with its `find_col` loops computes the summary specification |
| BackendViews.DeleteOne | djangobackend/backend/equipment/views.py:72-73 | deleting a row by its unique key removes just that row |
| BackendViews.DeleteStep | djangobackend/backend/equipment/views.py:72-73 | each turn of the deletion loop removes the next surplus row |
| BackendViews.RetainedAreNewest | djangobackend/backend/equipment/views.py:70-73 | the kept datasets are newest first and none is older than a dropped one |
| BackendViews.FindById | djangobackend/backend/equipment/views.py:122 | `filter(id=pk).first()` returns a row with that key, or none iff there is none |
| BackendViews.CheckUploadAccepts | djangobackend/backend/equipment/views.py:27-85 | an upload is accepted iff named, `.csv`, parsed, no required column missing and summarisable; a missing file or a wrong suffix gets its error |
| BackendViews.UpperCaseSuffixRefused | djangobackend/backend/equipment/views.py:35-36 | `DATA.CSV` is refused: the suffix test is case-sensitive |
| BackendViews.ValidateUpload | djangobackend/backend/equipment/views.py:27-61 | the view's checks in order give the upload decision |
| BackendViews.DatasetStore.constructor | djangobackend/backend/equipment/models.py:10-11 | an empty table is consistent |
| BackendViews.DatasetStore.DeleteSurplus | djangobackend/backend/equipment/views.py:70-73 | afterwards only the five newest datasets remain and the table stays consistent |
| BackendViews.DatasetStore.Create | djangobackend/backend/equipment/views.py:64-68 | the new row comes first with the next key |
| BackendViews.DatasetStore.Commit | djangobackend/backend/equipment/views.py:64-73 | create, then keep the newest five |
| BackendViews.DatasetStore.Upload | djangobackend/backend/equipment/views.py:27-85 | a refused upload returns its error and changes nothing; an accepted one returns the new dataset, now first among at most five |
| BackendViews.DatasetStore.Summary | djangobackend/backend/equipment/views.py:118-137 | lookup by key (404 when absent), else the first of the ten newest with an average flow rate, else the newest, else 'No data' |
| BackendViews.DatasetStore.History | djangobackend/backend/equipment/views.py:141-144 | at most five datasets, the newest, newest first |
| ServerSession.AckOf | djangobackend/backend/equipment/views.py:76-82 | a created dataset's response carries its summary |
| ServerSession.ItemOf | djangobackend/backend/equipment/views.py:141-144 | a served history item carries the dataset's key, name, count and summary |
| ServerSession.EntryId | djangobackend/frontend/src/hooks/useEquipmentData.ts:50 | the item's id as decimal text, else the random label |
| ServerSession.MapHistory | djangobackend/frontend/src/hooks/useEquipmentData.ts:49-55 | one entry per item in order, with the fields renamed |
| ServerSession.MapHistoryIdsDistinct | djangobackend/frontend/src/hooks/useEquipmentData.ts:49-55 | items with distinct ids map to entries with distinct ids |
| ServerSession.ServedHistoryIdsDistinct | djangobackend/frontend/src/hooks/useEquipmentData.ts:48-55 | the mapped history of a consistent dataset table has distinct ids, in table order |
| ServerSession.ServerSession.constructor | djangobackend/frontend/src/hooks/useEquipmentData.ts:8-12 | empty data, no summary, empty history, not loading, no error |
| ServerSession.ServerSession.LoadHistory | djangobackend/frontend/src/hooks/useEquipmentData.ts:45-59 | no token: no-op; served items replace the history; failure keeps it and sets the error |
| ServerSession.ServerSession.ProcessFile | djangobackend/frontend/src/hooks/useEquipmentData.ts:14-30 | no token: only 'Not authenticated'; success takes the response summary and reloads history; failure sets the message and keeps summary and history; loading ends off |
| ServerSession.ServerSession.LoadSummary | djangobackend/frontend/src/hooks/useEquipmentData.ts:32-43 | no token: no-op; the served summary (or null) replaces the current one; failure sets the error; loading ends off |
| ServerSession.ServerSession.LoadFromHistory | djangobackend/frontend/src/hooks/useEquipmentData.ts:61-63 | only the summary changes, to the entry's |
| ServerSession.ServerSession.GeneratePdf | djangobackend/frontend/src/hooks/useEquipmentData.ts:65-80 | only a failed download with a token sets the error |
| ServerSession.ServerSession.LoadSampleData | djangobackend/frontend/src/hooks/useEquipmentData.ts:82-84 | only the fixed 'not implemented' error is set |
| ServerSession.ServerSession.ClearData | djangobackend/frontend/src/hooks/useEquipmentData.ts:86-90 | data, summary and error reset; history kept |
| ServerSession.UploadEndToEnd | djangobackend/frontend/src/hooks/useEquipmentData.ts:14-30 | an accepted upload leaves the hook showing the summary the server stored for the new, newest dataset |

## Left out

- CsvParser.SummaryOf: type names inherited from `Object.prototype` are not modelled. The histogram is a plain object, so `typeDistribution[t] \|\| 0` reads an inherited member for `constructor`, `toString`, `valueOf`, `hasOwnProperty` and the like (the count becomes a string), and an assignment to `__proto__` stores nothing. The model counts every type name as an ordinary key.
- CsvParser.CalculateSummary: the same inherited type names are not modelled; its loop counts every type name as an ordinary key.
- CsvParser.TypeCountsSnoc: "from 0 when new" holds for ordinary type names only; inherited `Object.prototype` names are not modelled.
- CsvParser.DistributionSumsToTotal: holds for ordinary type names only. A record typed `__proto__` is never stored in the source's histogram, so there the counts add up to less than `totalCount`; inherited `Object.prototype` names are not modelled.
- CSV tokenizing is a parameter. Papaparse (header mode, empty lines skipped) and `pd.read_csv`, with UTF-8 decoding, are given as their outcome: rows, or the error raised.
- The `catch` branch in `parseCSVFile` that reports 'Failed to parse CSV file' (chemical1/src/lib/csvParser.ts:22-23) is not modelled. Normalisation and summary cannot throw in the model. In the source, the realistic way to reach that branch is a file with so many rows that `Math.min(...values)` / `Math.max(...values)` in `calculateSummary` exceed the engine's limit on call arguments and throw a `RangeError`; `CsvParser.MinOf` and `CsvParser.MaxOf` have no such limit.
- Floating point is modelled with exact reals:
  - NaN and infinities are not modelled; `parseFloat(...) || 0` is a parser that may fail, falling back to 0.
  - Summation order and rounding drift are not modelled.
  - `Math.round` is floor(x + 0.5).
- pandas statistics are abstract. Each column carries its `mean`/`min`/`max`, or the exception computing them raises, and its `value_counts`.
- Library behaviour is abstract: `toLowerCase`, `str.lower`, `localeCompare` and `new Date(...)` are parameters.
  - No property is proved about the order of text sort keys; only that the result is a permutation.
- `Array.prototype.sort` is modelled by a stable insertion sort driven by the same comparator.
- Randomness, clocks and timers are parameters:
  - `Math.random` (a sequence of draws; for history ids, one label per item) and `Date.now()` / `new Date()`.
  - `setTimeout` fires right after `loadSampleData` starts, with nothing in between.
- Concurrency is not modelled: every hook operation runs to completion before the next, so overlapping uploads and React's stale closures are out of scope.
- LocalSession.Session.ProcessFile: of the `File`, only its name is read.
- BackendViews.DatasetStore.Upload: requires that the server clock does not run backwards (the newest stored time is at most `now`). The table is a sequence kept in the model's `-uploaded_at` ordering, and that needs the new row to be the newest. On a tie (the newest stored time equals `now`) the model orders the newly inserted row first, so it is the one kept by the cut to five. The database orders equal `uploaded_at` values arbitrarily, so in the source a tied new row need not come first and may be among the rows `[5:]` deletes.
- BackendViews.DatasetStore.Upload: in the model the outer `except` (views.py:84-85) is reached only by a failure while building the summary. In the source it also catches errors raised while parsing the request: `request.FILES` (views.py:30) is read with `MultiPartParser` alone, so a non-empty body that is not multipart (`UnsupportedMediaType`) or a malformed multipart body (`ParseError`) is answered with a 500 'Upload failed: …' rather than a 4xx. These request-parsing errors and database errors are not modelled; the model's input is the already parsed `request.FILES.get('file')`.
- BackendViews.DatasetStore.Summary: a key that is not an integer raises inside the view and becomes `Unhandled`. The `dataset.summary` truthiness test is always true, because a stored summary dictionary always has its keys.
- EquipmentTable.TableState.NextPage: requires more than one page, because the buttons are rendered only then (EquipmentTable.tsx:123).
- `EquipmentDatasetSerializer` is not part of this model. `ItemOf` takes the served fields to be the dataset's id, file name, upload time, record count and summary.
- ServerSession.MapHistory: a response that is not a list (where `map` would throw) is not modelled. The server returns a list.
- The HTTP clients (`chemical1/src/lib/api.ts`, `equipmentApi.ts`) are not modelled; their outcomes are parameters. How a non-2xx response becomes an exception message is not modelled either.
- Authentication is not modelled: both `AuthContext` files, `core/authentication.py`, `RegisterView` and `LoginView`. The token is a parameter.
- The other views are not modelled: `DataView`, `PDFReportView`, `LoadSampleDataView` and `HealthCheckView`. Neither are migrations, admin, URLs and deployment scripts.
- `generatePDF`'s browser download steps (object URL, anchor click) are not modelled; they leave the hook's state alone.
- Presentation components are not modelled: charts, summary cards, the history list, the uploader, the header, sign-up and the PDF layout.
