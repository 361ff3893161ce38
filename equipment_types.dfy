/**
 * The shapes shared by the browser-only front end: one equipment row, the
 * summary over a set of rows, one upload-history entry, and the parse result.
 * Numbers are modelled as exact reals.
 */
module EquipmentTypes {

  /** One normalised row. The source field `type` is called `equipmentType` here (`type` is a Dafny keyword). */
  datatype EquipmentRecord = EquipmentRecord(
    id: string,
    equipmentName: string,
    equipmentType: string,
    flowrate: real,
    pressure: real,
    temperature: real)

  /** Aggregate statistics over a set of records. */
  datatype DataSummary = DataSummary(
    totalCount: nat,
    avgFlowrate: real,
    avgPressure: real,
    avgTemperature: real,
    typeDistribution: map<string, nat>,
    minFlowrate: real,
    maxFlowrate: real,
    minPressure: real,
    maxPressure: real,
    minTemperature: real,
    maxTemperature: real)

  /** One entry of the upload history; `uploadedAt` is the clock reading in milliseconds. */
  datatype UploadHistory = UploadHistory(
    id: string,
    fileName: string,
    uploadedAt: int,
    recordCount: nat,
    summary: DataSummary)

  datatype ParsedCsv = ParsedCsv(data: seq<EquipmentRecord>, summary: DataSummary)

  /** What a `catch` clause receives: an `Error` carrying a message, or some other thrown value. */
  datatype Thrown = ErrorValue(message: string) | OtherValue

  /** `err instanceof Error ? err.message : fallback`. */
  function MessageOr(err: Thrown, fallback: string): string
  {
    match err
    case ErrorValue(m) => m
    case OtherValue => fallback
  }
}
