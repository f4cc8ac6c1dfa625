# A Dafny model of the XenForo resource importer

The importer is a browser wizard that takes a CSV file of resources and creates a resource on a
XenForo forum for each row. It posts to the forum's REST API. It works in steps:

- **Connection.** The user enters the forum address, an API key, a category and a user. The
  form can test the connection. An edit throws away the outcome of an earlier test.
- **Upload.** The CSV text is split into non-blank lines. Each line is tokenised by a regular
  expression loop. Each data line becomes a row keyed by the trimmed header names.
- **Mapping.** Each destination field (title, tag line, description, version, download link)
  gets a CSV column. On opening, the step guesses the mapping from the header names. The
  import may go on only when the title and the description are mapped.
- **Import.** Every row, in order, is checked and given a tag line. The tag line is the mapped
  one, or one from an AI generator, or the start of the description. The row is then encoded
  as a form payload and posted. The outcome is counted and logged.

The model has one module per source file:

| module | file | holds |
|---|---|---|
| `Wrappers` | — | `Option` |
| `Text` | — | the JavaScript string primitives the code relies on: `trim`, `startsWith`, `includes`, `substring`, `join`, `toString` and `parseInt` |
| `Types` | `types.ts` | the records passed between the steps |
| `CsvParser` | `utils/csvParser.ts` | `parseCSV` and its `parseLine` loop |
| `CsvRoundTrip` | — | lemmas: fields written by its `WriteLine` tokenise back to themselves, and a leading comma drops the first field |
| `StepMap` | `components/StepMap.tsx` | the auto-guess, `handleChange` and `isValid` |
| `XfService` | `services/xfService.ts` | `getEndpoint`, `getHeaders`, and the classification inside `testConnection` and `postResource` |
| `StepRun` | `components/StepRun.tsx` | the import loop in the class `ImportSession`, and `progressPercent` |
| `StepConfig` | `components/StepConfig.tsx` | the form in the class `ConfigForm`, the URL check and `isValid` |

Imperative code is modelled as methods, with loop invariants where the source loops. Each is
proved against a function that specifies it:

- `ParseLine` and `ParseCsv` against `Fields` and `Parse`;
- `AutoGuess` against `Guessed`;
- `GetHeaders`, without a loop, whose contract states the exact header map;
- `BuildParams`, without a loop, against `Payload`;
- `RunImport` against `Results`.

Component state is modelled as classes (`ImportSession`, `ConfigForm`), whose methods update
their fields. Network I/O, the AI generator and `encodeURIComponent` are function-typed
parameters:

- `respond(i, payload)` is what the request for row `i` produced: a thrown message, or a status
  and a body that is JSON or not.
- `generate(i, title, description)` is the generator's answer, or `None` when it throws.
- `pageIsHttps` is the page protocol.

`parseLine` follows the regular expression `(?:,|\n|^)("(?:(?:"")*[^"]*)*"|[^",\n]*|(?:\n|$))`
with the JavaScript `exec` semantics:

- The alternation tries `,` before `^`.
- Inside the loop, a match always starts at the first comma at or after `lastIndex`.
- The quoted alternative closes on a lone quote. With backtracking, at the end of the text it
  closes at the last doubled quote.

So a line that begins with a comma loses its empty first field: `,a` tokenises to `["a"]`,
not `["", "a"]` (`CsvRoundTrip.CommaThenField`). The model follows the code here.

The tokeniser is not an RFC 4180 reader. Besides the leading comma, it departs from one in
these ways, all of which the model reproduces:

- An unquoted field is trimmed, so white space at its ends is lost unless it is quoted.
- Text after a closing quote is dropped: `"a"x,b` gives `["a", "b"]`.
- A quote that never closes gives an empty field: `"abc,d` gives `["", "d"]`.
- White space before an opening quote empties the field: `a, "b" ,c` gives `["a", "", "c"]`.
- The text is split into lines first, so a quoted line break splits the record.

`CsvRoundTrip.WriteLine` therefore quotes every field with a quote, a comma, a line feed or
white space at its ends, and quotes an empty first field.

## Model

| member | source | states |
|---|---|---|
| Text.TrimStart | utils/csvParser.ts:21 | the result is a suffix of the input |
| Text.TrimEnd | utils/csvParser.ts:21 | the result is a prefix of the input |
| Text.TrimStartShape | utils/csvParser.ts:21 | what is removed is all white space; what is kept does not begin with white space |
| Text.TrimEndShape | utils/csvParser.ts:21 | what is removed is all white space; what is kept does not end with white space |
| Text.Trim | utils/csvParser.ts:21 | the trimmed string is no longer than the input |
| Text.TrimShape | utils/csvParser.ts:21 | the result is a slice with no white space at either end; it is empty iff the input is blank; a string with no white space at its ends is unchanged |
| Text.TrimIdempotent | utils/csvParser.ts:21 | trimming twice equals trimming once |
| Text.TrimAround | utils/csvParser.ts:21 | `trim` removes exactly the white space around a text that neither begins nor ends with white space |
| Text.Prefix | components/StepRun.tsx:81 | `substring(0, n)` has length min(n, length) and is a prefix of the input, counting characters (see Left out) |
| Text.NatToString | components/StepRun.tsx:53 | the numeral is non-empty and all digits, with a leading 0 only for zero |
| Text.IntToString | components/StepRun.tsx:86 | the numeral begins with `-` exactly for negative numbers, and otherwise with a digit |
| Text.DigitRun | components/StepConfig.tsx:25 | `parseInt` reads the longest prefix of digits of the radix, stopping at the first non-digit |
| Text.ParseInt | components/StepConfig.tsx:25 | `parseInt`: skip leading white space, read an optional sign and a decimal or `0x` magnitude, `NaN` without digits; ParseIntToString states that it reads a numeral back |
| Text.NatToStringValue | components/StepConfig.tsx:25 | the digits of a decimal numeral denote the number it was written from |
| Text.ParseDecimal | components/StepConfig.tsx:25 | the unsigned part of `parseInt` reads a decimal numeral back as its number |
| Text.ParseIntToString | components/StepConfig.tsx:25 | `parseInt(String(n)) \|\| 0 === n` for every integer, so a number field reads back what it shows (unbounded integers: see Left out) |
| CsvParser.FirstNewline | utils/csvParser.ts:4 | finds the first line feed: it is one, and none comes before it |
| CsvParser.DropCarriageReturn | utils/csvParser.ts:4 | the piece before a line feed is the line, or the line and one carriage return, and a trailing carriage return is always dropped |
| CsvParser.SplitLines | utils/csvParser.ts:4 | `split(/\r?\n/)` gives one piece more than there are line feeds |
| CsvParser.SplitLinesNoNewline | utils/csvParser.ts:4 | no piece holds a line feed |
| CsvParser.SplitJoinLines | utils/csvParser.ts:4 | lines joined with line feeds split back into the same lines, when none holds a line feed and none but the last ends in a carriage return |
| CsvParser.SplitLinesAt | utils/csvParser.ts:4 | both `\n` and `\r\n` end the first piece, which is the text before the separator (`\r` dropped), and the rest splits on its own |
| CsvParser.SplitJoinCrLf | utils/csvParser.ts:4 | lines joined with `\r\n` split back into the same lines, whatever they end with, when none holds a line feed |
| CsvParser.KeepNonBlank | utils/csvParser.ts:4 | the kept lines are exactly the non-blank input lines, never more of them than given |
| CsvParser.KeepNonBlankAppend | utils/csvParser.ts:4 | filtering two runs of lines filters each in turn, so the kept lines keep their order |
| CsvParser.KeepNonBlankOne | utils/csvParser.ts:4 | a single line is kept exactly when it is not blank |
| CsvParser.KeepNonBlankAll | utils/csvParser.ts:4 | lines that are all non-blank are all kept, in order |
| CsvParser.NonBlankLinesShape | utils/csvParser.ts:4 | every line parsed is non-blank and holds no line feed |
| CsvParser.Unescape | utils/csvParser.ts:23 | replacing `""` by `"` never lengthens the text |
| CsvParser.CleanField | utils/csvParser.ts:21-24 | the pushed value is never longer than the matched group; its two cases are CleanFieldUnquoted and CleanFieldQuoted |
| CsvParser.CleanFieldUnquoted | utils/csvParser.ts:21-24 | a group with no quote gives its trimmed text, with no white space at its ends, empty exactly when the group is blank |
| CsvParser.CleanFieldQuoted | utils/csvParser.ts:21-24 | a quoted field with white space around it gives the inside of its quotes with doubled quotes undone, not trimmed |
| CsvParser.QuoteClose | utils/csvParser.ts:11 | the quoted alternative closes inside the text, no earlier than the last doubled quote seen |
| CsvParser.QuoteCloseShape | utils/csvParser.ts:11 | the quoted alternative closes on a quote; it fails only when no quote follows |
| CsvParser.PlainEnd | utils/csvParser.ts:11 | the unquoted alternative ends within the text |
| CsvParser.PlainEndShape | utils/csvParser.ts:11 | the unquoted alternative takes every character up to the first quote, comma or line feed |
| CsvParser.GroupEnd | utils/csvParser.ts:11 | the capture group ends within the text |
| CsvParser.GroupEndShape | utils/csvParser.ts:11 | an unquoted group holds no quote or separator; a group that starts on a quote either closes on a quote or is empty |
| CsvParser.NextSep | utils/csvParser.ts:11 | the search for the next separator stays within the text |
| CsvParser.NextSepFirst | utils/csvParser.ts:11 | the position found is a separator, and no separator comes before it |
| CsvParser.Exec | utils/csvParser.ts:11-14 | a match lies at or after `lastIndex`, with its group inside it |
| CsvParser.ExecFinds | utils/csvParser.ts:11-14 | `exec` matches at index 0 at the start, else at the first separator at or after `lastIndex`; it fails exactly when `lastIndex` is past the end or no separator follows |
| CsvParser.Groups | utils/csvParser.ts:11-27 | the groups of the `exec` loop: at least one from the start of a line, and at most one per position left |
| CsvParser.GroupsAtSep | utils/csvParser.ts:11-18 | standing on a separator, the loop takes the group right after it |
| CsvParser.GroupsAtStart | utils/csvParser.ts:11-18 | on a line that does not begin with a separator, the first group starts at index 0 |
| CsvParser.CleanAll | utils/csvParser.ts:19-26 | one pushed value per matched group |
| CsvParser.Fields | utils/csvParser.ts:10-30 | `parseLine` never returns an empty list |
| CsvParser.ParseLine | utils/csvParser.ts:10-30 | the `exec` loop returns exactly the cleaned groups of the matches, so never an empty list |
| CsvParser.HeaderNames | utils/csvParser.ts:32 | one trimmed header per field of the first line |
| CsvParser.TrimAll | utils/csvParser.ts:32 | one trimmed name per name |
| CsvParser.ZipRow | utils/csvParser.ts:39-42 | the row of one data line; its keys and values are stated by ZipRowKeys and ZipRowLastWins |
| CsvParser.ZipRowKeys | utils/csvParser.ts:39-42 | a row's keys are exactly the header names |
| CsvParser.ZipRowLastWins | utils/csvParser.ts:40-42 | under a repeated header, the cell of its last column wins; a missing cell is `''` |
| CsvParser.ZipRowDistinct | utils/csvParser.ts:40-42 | with distinct headers every cell lands under its own header, and extra cells are dropped |
| CsvParser.BuildRow | utils/csvParser.ts:39-42 | the `forEach` builds the row of the zip of headers and cells |
| CsvParser.DataRows | utils/csvParser.ts:35-44 | one row per data line |
| CsvParser.Parse | utils/csvParser.ts:3-47 | fewer than two non-blank lines give no rows; otherwise one row per data line |
| CsvParser.ParseRows | utils/csvParser.ts:32-44 | row i is keyed by the trimmed header names and holds the cells of non-blank line i+1, in file order |
| CsvParser.ParseCsv | utils/csvParser.ts:3-47 | the loop over the data lines returns exactly `Parse(content)` |
| CsvRoundTrip.UnescapeEscape | utils/csvParser.ts:23 | undoubling quotes inverts doubling them |
| CsvRoundTrip.QuoteCloseEscaped | utils/csvParser.ts:11 | the quoted alternative closes exactly on the closing quote of a quoted field |
| CsvRoundTrip.QuotedGroupEnd | utils/csvParser.ts:11 | a quoted field followed by a comma or the end is one whole group |
| CsvRoundTrip.PlainGroupEnd | utils/csvParser.ts:11 | a bare field followed by a comma or the end is one whole group |
| CsvRoundTrip.CleanCell | utils/csvParser.ts:21-24 | cleaning a written field gives the field back |
| CsvRoundTrip.CellGroup | utils/csvParser.ts:11 | the group for a written field spans the field |
| CsvRoundTrip.CellGroupsAtSep | utils/csvParser.ts:11-18 | on the comma before a written field, the loop takes the field as its group |
| CsvRoundTrip.TailGroups | utils/csvParser.ts:11-27 | after the first field, the loop takes exactly the written fields |
| CsvRoundTrip.CleanCells | utils/csvParser.ts:19-26 | cleaning the written fields gives the fields |
| CsvRoundTrip.FirstStep | utils/csvParser.ts:11-18 | the first turn over a written line takes the first field |
| CsvRoundTrip.ParseWriteLine | utils/csvParser.ts:10-30 | any non-empty list of fields, written as a line, tokenises back to itself |
| CsvRoundTrip.LeadingEmptyFieldDropped | utils/csvParser.ts:11-18 | a line that begins with a comma loses its empty first field |
| CsvRoundTrip.CommaThenField | utils/csvParser.ts:11-18 | `,a` tokenises to `["a"]` |
| StepMap.Lower | components/StepMap.tsx:28 | lower-casing keeps the length, turns each ASCII capital into its small letter and the Kelvin sign into `k`, keeps every other character, and leaves no ASCII capital |
| StepMap.GuessIgnoresCase | components/StepMap.tsx:28-33 | two headers that differ only in ASCII case are guessed for the same field |
| StepMap.GuessCapitals | components/StepMap.tsx:28-33 | `TITLE`, `Tag` and `URL` are guessed as title, tag line and link |
| StepMap.Guess | components/StepMap.tsx:28-33 | the field a header is guessed for; GuessShape and GuessPrecedence state it |
| StepMap.GuessShape | components/StepMap.tsx:28-33 | a guess is always one of the five mapped fields, and only a non-empty header is guessed |
| StepMap.GuessPrecedence | components/StepMap.tsx:29-33 | the first test wins: a header containing `name` is a title even if it mentions a version or a link; a version guess excludes `title` and `desc`, a link guess excludes `ver` |
| StepMap.LastGuessFinds | components/StepMap.tsx:27-34 | the last header guessed for a field, with no later one guessed for it; nothing found iff no header is guessed for it |
| StepMap.Guessed | components/StepMap.tsx:25-34 | the mapping after the auto-guess; GuessedFields states what each field holds |
| StepMap.AutoGuess | components/StepMap.tsx:25-38 | the `forEach` yields the mapping where each field holds its last guessed header, or its old value |
| StepMap.GuessedFields | components/StepMap.tsx:26-34 | a changed field holds one of the headers, guessed for that field and not overridden later; a field no header is guessed for keeps its value |
| StepMap.GuessedValid | components/StepMap.tsx:25-46 | headers holding a title column and a description column make the guessed mapping valid |
| StepMap.HandleChange | components/StepMap.tsx:40-44 | the chosen field takes the header and every other field is unchanged |
| StepMap.IsValid | components/StepMap.tsx:46 | `isValid`; ValidityOfRequired and ValidityIgnoresOptional state it |
| StepMap.ValidityIgnoresOptional | components/StepMap.tsx:46 | changing the tag line, the version or the link never changes validity |
| StepMap.ValidityOfRequired | components/StepMap.tsx:46 | clearing the title or the description invalidates; setting one when the other is set validates |
| XfService.StripTrailingSlashes | services/xfService.ts:14 | `replace(/\/+$/, '')` gives a prefix of the address |
| XfService.StripTrailingSlashesShape | services/xfService.ts:14 | only slashes are removed, and the result does not end with one |
| XfService.StripTrailingSlashesIdempotent | services/xfService.ts:14 | stripping twice strips nothing more |
| XfService.Endpoint | services/xfService.ts:13-21 | the request URL; EndpointShape states its direct and proxied forms |
| XfService.EndpointShape | services/xfService.ts:13-21 | direct, the endpoint is the stripped address and the path; through the proxy, the proxy prefix (default `https://corsproxy.io/?`) and the encoded URL |
| XfService.GetHeaders | services/xfService.ts:24-43 | always the key and `Accept`; `X-Requested-With` exactly when not proxied; `XF-Api-User` exactly when the user id is positive, as its numeral |
| XfService.PostHeaders | services/xfService.ts:125-128 | the request headers plus the form content type |
| XfService.TestConnection | services/xfService.ts:45-106 | `testConnection`; TestConnectionSuccess, TestConnectionBlocked and TestConnectionFailures state its result for every outcome |
| XfService.TestConnectionSuccess | services/xfService.ts:45-106 | a test succeeds iff the call is allowed and gets an ok JSON answer with a category; then it carries that category's title, and only then |
| XfService.TestConnectionBlocked | services/xfService.ts:48-105 | a proxied 403/503/429 is `PROXY_BLOCKED`; `Failed to fetch` is `PROXY_BLOCKED` or `CORS_ERROR`; an http forum from an https page is refused before any request |
| XfService.TestConnectionFailures | services/xfService.ts:69-95 | a non-JSON body, a 404 and a 401/403 each give their own message; any other failing JSON answer gives `Lỗi API (<status>): ` and the first error's message; an ok answer without a category gives the unexpected-reply message |
| XfService.FirstErrorMessage | services/xfService.ts:87 | never empty: the first error's message when there is a non-empty one, else `Lỗi không xác định` |
| XfService.PostResource | services/xfService.ts:108-175 | `postResource`; PostResourceResult and PostResourceErrors state its results |
| XfService.PostResourceResult | services/xfService.ts:108-175 | a post succeeds iff the call is allowed and gets an ok JSON answer, carrying its resource; every failure carries a non-empty error list |
| XfService.PostResourceErrors | services/xfService.ts:114-174 | which error each failure carries: `mixed_content`, `network_error`, `invalid_response`, the server's own list, or `http_error` |
| StepRun.ChooseTagLineOrder | components/StepRun.tsx:62-82 | the mapped tag line first; else, with AI on, the generator's answer, or `''` when it threw; else the first min(90, length) characters of the description |
| StepRun.ChooseTagLine | components/StepRun.tsx:62-82 | the tag line sent for a row; its rules are stated by ChooseTagLineOrder |
| StepRun.PayloadShape | components/StepRun.tsx:85-100 | category, title, tag line, description and version, in that order, with version `1.0.0` by default; the link and `is_fileless=1` follow exactly when the row has a link |
| StepRun.Payload | components/StepRun.tsx:85-100 | the payload of a row; its fields and their order are stated by PayloadShape |
| StepRun.BuildParams | components/StepRun.tsx:85-100 | the successive appends build exactly the payload |
| StepRun.JoinStart | components/StepRun.tsx:113 | a joined list begins with its first element |
| StepRun.ErrorDetail | components/StepRun.tsx:110-112 | the log detail of a failed post; ErrorDetailCons states it for every list, FailedPostDetail how it begins |
| StepRun.ErrorDetailCons | components/StepRun.tsx:110-112 | every error appears as `[code] message`, in order, separated by ` \| `: one error is its own text, a longer list its first error's text, the separator and the rest |
| StepRun.FailedPostDetail | components/StepRun.tsx:110-116 | a failed post's detail is never `Unknown Error`: it begins with the first error's `[code]` |
| StepRun.HandleRow | components/StepRun.tsx:44-119 | one loop turn for one row; InvalidRowOutcome and PostedRowOutcome state its outcome |
| StepRun.InvalidRowOutcome | components/StepRun.tsx:51-57 | a row without a title or description fails with a `Row i+1:` error carrying the row, and nothing is posted |
| StepRun.PostedRowOutcome | components/StepRun.tsx:59-119 | any other row is posted with exactly the payload of its title, description and the tag line ChooseTagLine picks (the generator asked only when no tag line is mapped and AI is on); it succeeds exactly when the post does; a success logs `Success: <title>` with `ID: <resource_id>`, a failure `Failed: <title>` with the error detail |
| StepRun.Results | components/StepRun.tsx:44-123 | one result per row |
| StepRun.ResultsAt | components/StepRun.tsx:44-45 | result i is that of handling row i, with index i |
| StepRun.SuccessesPlusFailures | components/StepRun.tsx:52-56 | every row is counted once, as a success or as a failure |
| StepRun.SentCount | components/StepRun.tsx:104 | at most one post per row, and at least one per success |
| StepRun.ResultsSucceedOnlyWhenSent | components/StepRun.tsx:104-109 | a row succeeds only if it was posted |
| StepRun.ImportTotals | components/StepRun.tsx:39-128 | after the loop, success + failed = the number of rows, and posts lie between the successes and the rows |
| StepRun.ProgressPercent | components/StepRun.tsx:130 | the percentage lies in 0..100, is 0 with no rows, and is processed/total·100 rounded half up |
| StepRun.RoundHalfUp | components/StepRun.tsx:130 | adding half the divisor before dividing rounds to the nearest percentage, halves up, within 0..100 |
| StepRun.ProgressMonotone | components/StepRun.tsx:130 | the percentage never goes down as rows are processed, and is 100 once all are |
| StepRun.ImportSession.constructor | components/StepRun.tsx:14-17 | no logs, stats `{total: rows, 0, 0, 0}`, not running, AI on |
| StepRun.ImportSession.SetUseAI | components/StepRun.tsx:147 | the checkbox sets `useAI` and nothing else |
| StepRun.ImportSession.Record | components/StepRun.tsx:106-119 | one log line is added, the counter of the outcome goes up and is copied into the stats, and `processed` is i+1 |
| StepRun.ImportSession.ImportRow | components/StepRun.tsx:44-123 | one turn of the loop does exactly what handling row i says to the log, the posts, the counters and the stats |
| StepRun.ImportSession.RunImport | components/StepRun.tsx:39-128 | every row is handled once, in order; the stats end as `{rows, successes, failures, rows}`; the log gets one line per row then `Process finished.`; one payload is posted per valid row |
| StepConfig.Set | components/StepConfig.tsx:27-30 | a setting given a value of its type takes it, and every other setting is copied |
| StepConfig.Edited | components/StepConfig.tsx:27-30 | the named setting takes the event's value and every other setting is copied |
| StepConfig.NewValue | components/StepConfig.tsx:20-25 | the value an edit stores; EditNumberReadsBack and EditNumberValidity state the number coercion |
| StepConfig.EditNumberReadsBack | components/StepConfig.tsx:25 | a number field holding the numeral of n stores n |
| StepConfig.EditNumberValidity | components/StepConfig.tsx:22-30 | a non-number or a non-positive number in the category or user field invalidates the settings |
| StepConfig.UrlFormatProperties | components/StepConfig.tsx:64 | the URL check ignores ASCII case, and a valid non-empty address stays valid whatever follows it |
| StepConfig.UrlFormatShape | components/StepConfig.tsx:64 | a valid non-empty address is at least 7 characters long and begins with `h` or `H` |
| StepConfig.IsUrlFormatValid | components/StepConfig.tsx:64 | `isUrlFormatValid`; UrlFormatProperties and UrlFormatShape state it |
| StepConfig.IsValid | components/StepConfig.tsx:65 | `isValid`; EditNumberValidity and ValidAllowsTest state it |
| StepConfig.TestAllowed | components/StepConfig.tsx:41 | the guard of `handleTest`; ValidAllowsTest and ButtonsGuard state it |
| StepConfig.ValidAllowsTest | components/StepConfig.tsx:42-65 | valid settings pass the test's guard, and the converse fails |
| StepConfig.ButtonsGuard | components/StepConfig.tsx:241-251 | both buttons are disabled during a test; an enabled Test button passes the guard |
| StepConfig.ErrorCodeOf | components/StepConfig.tsx:55-59 | a test leaves an error code iff it failed with exactly `PROXY_BLOCKED` or `CORS_ERROR`, and the code is that message |
| StepConfig.CategoryNameOf | components/StepConfig.tsx:51-54 | the name kept is the one a success carries, `''` when it carries none, and a non-empty name comes only from a success |
| StepConfig.TestErrorCodes | components/StepConfig.tsx:55-59 | a proxied 403/503/429 leaves `PROXY_BLOCKED`; `Failed to fetch` leaves `PROXY_BLOCKED` or `CORS_ERROR`; a success leaves no code |
| StepConfig.ConfigForm.constructor | components/StepConfig.tsx:13-16 | the form starts idle with no message, code or category |
| StepConfig.ConfigForm.HandleChange | components/StepConfig.tsx:18-39 | the settings become the edited ones, and any test feedback is reset to idle and cleared |
| StepConfig.ConfigForm.StartTest | components/StepConfig.tsx:42-47 | nothing changes unless address, key and category are set; otherwise the form shows it is connecting, with no code or name |
| StepConfig.ConfigForm.CompleteTest | components/StepConfig.tsx:49-60 | the status follows the result and the message is its message; a code or name is written only when the result has one |
| StepConfig.ConfigForm.HandleTest | components/StepConfig.tsx:41-61 | a full test leaves the status, message, code and name of the connection test's result, or changes nothing when the guard fails |
| StepConfig.ProxyBlockedShowsNothing | components/StepConfig.tsx:175-203 | after a proxied 403, neither the CORS banner nor the status box is shown |
| StepConfig.IntendedFeedbackAlways | components/StepConfig.tsx:175-203 | with the corrected condition, every finished or running test shows feedback, and an idle form shows none |

## Left out

- Network I/O: `fetch`, `response.text()`, `JSON.parse` and `window.location` are inputs, not code. The inputs are the thrown message, the status and body, and the page protocol.
- A JSON answer that is not an object, and fields of unexpected types, are not modelled. A parsed body is a record of optional `errors`, `category` and `resource`.
- `encodeURIComponent` is a parameter. The AI generator (services/geminiService.ts) is an oracle that returns a tag line or throws.
- The file upload (components/StepUpload.tsx) and the wizard navigation (App.tsx) are not part of this model. JSX rendering, styling, the guide toggle and the log auto-scroll are also left out, apart from the two feedback conditions in the finding below.
- The 500 ms pause between rows and the interleaving of asynchronous state updates are not modelled; the loop runs sequentially. `ConfigForm.StartTest` and `CompleteTest` are separate methods, so an edit between them can be expressed.
- Log ids (`Math.random`) and timestamps (`new Date()`) are left out, as are the `currentAction` and `isAiProcessing` status texts.
- A validation error's log detail is `JSON.stringify(row)`. The model keeps the row itself.
- A CSV row is a `map`. Header names that collide with `Object.prototype` members are not modelled.
- `toLowerCase` in the auto-guess covers ASCII capitals and the Kelvin sign (U+212A, which lower-cases to `k`). The only other character whose lower case holds an ASCII letter is U+0130, which lower-cases to `i` followed by U+0307. No keyword of the tests ends in `i`, and the U+0307 stops any keyword running on past the `i`, so the keyword tests give the same answer. The lower-cased text is one character per character, whereas JavaScript's is one longer for each U+0130.
- The regular-expression engine's cost on pathological quoted input is not modelled, only the matches it produces.
- A thrown error without a message (`undefined`) is modelled as the empty string.
- StepRun.ProgressPercent: uses exact rounding half up instead of floating-point `Math.round`. It requires processed ≤ total, which the loop keeps, so the `Infinity` case of `processed / 0` is not modelled.
- StepRun.ImportSession.RunImport: requires a session that is not running and has processed nothing. That is the only state in which the Start button is shown.
- StepConfig.ConfigForm.HandleChange: requires an event whose value has its setting's type. The form has only text, url, password and number inputs, for the address, the key, the category and the user, so a checkbox named after a text setting never occurs.
- Text.Prefix: counts characters (Unicode scalar values), where `substring(0, 90)` counts UTF-16 code units. A description with characters outside the Basic Multilingual Plane, such as emoji, before position 90 gives a longer tag line here than in JavaScript, and a cut through a surrogate pair, which would leave a lone surrogate, cannot be represented.
- Text.ParseIntToString: holds for unbounded integers. For JavaScript numbers it holds only for safe integers: `String(n)` switches to exponent notation from 1e21 on (`parseInt("1e+21")` is 1), and integers past 2^53 are not kept exactly.
- StepConfig.IsValid: omits the `userId === undefined` alternative. `userId` is always a number.

## Findings

| source | as written | input that shows it | evidently intended | confidence | as-written member | corrected member |
|---|---|---|---|---|---|---|
| components/StepConfig.tsx:175-203 | `handleTest` (line 58) sets the error code `PROXY_BLOCKED`. The CORS banner renders only for `CORS_ERROR`, and the status box only while the error code is empty. | Proxy enabled, and the forum (or proxy) answers the test with status 403: nothing is shown | the status box (or a guide) shows every outcome other than `CORS_ERROR`, as the service's comment on `PROXY_BLOCKED` says a guide should appear | medium, not executed | StepConfig.ProxyBlockedShowsNothing | StepConfig.IntendedFeedbackAlways |
