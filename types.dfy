/** The records the importer passes between its steps (types.ts). */
module Types {

  /** One parsed CSV data line: header name to cell text. */
  type CsvRow = map<string, string>

  /** Connection settings for the forum's REST API. */
  datatype XFConfig = XFConfig(
    baseUrl: string,
    apiKey: string,
    categoryId: int,
    userId: int,           // the user the API acts as (`XF-Api-User`)
    allowCorsProxy: bool,  // route requests through a CORS proxy
    proxyUrl: string)      // custom proxy prefix; empty means the default one

  /** Destination fields of a resource. `Price` and `Currency` exist in the enumeration but are
      never part of a mapping. */
  datatype XFField = Title | TagLine | Description | Version | ExternalUrl | Price | Currency

  /** The name the API uses for each destination field. */
  function WireName(f: XFField): string {
    match f
    case Title => "title"
    case TagLine => "tag_line"
    case Description => "description"
    case Version => "version_string"
    case ExternalUrl => "external_purchase_url"
    case Price => "price"
    case Currency => "currency"
  }

  /** The fields a mapping has a column for. */
  predicate IsMapped(f: XFField) {
    !f.Price? && !f.Currency?
  }

  /** Destination field to CSV header name; the empty string means "not mapped". */
  datatype FieldMapping = FieldMapping(
    title: string,
    tagLine: string,
    description: string,
    version: string,
    externalUrl: string)

  /** The header a field is mapped to; `Price` and `Currency` read as unmapped. */
  function Get(m: FieldMapping, f: XFField): string {
    match f
    case Title => m.title
    case TagLine => m.tagLine
    case Description => m.description
    case Version => m.version
    case ExternalUrl => m.externalUrl
    case Price => ""
    case Currency => ""
  }

  datatype LogStatus = LogSuccess | LogError | LogPending | LogInfo

  /** The optional detail line of a log entry. The validation error's detail is the row
      serialised as JSON; the model keeps the row itself. */
  datatype LogDetails = NoDetails | Text(text: string) | RowDump(row: CsvRow)

  /** A line of the import log. The random id and the timestamp are not modelled. */
  datatype LogEntry = LogEntry(status: LogStatus, message: string, details: LogDetails)

  datatype ImportStats = ImportStats(total: nat, success: nat, failed: nat, processed: nat)
}
