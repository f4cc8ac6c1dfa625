/**
 * The import step (components/StepRun.tsx): every data row, in order, is checked for a title
 * and a description, completed with a tag line, turned into a form payload and posted to the
 * forum, and the outcome is counted and logged. The tag-line generator and the forum's answer
 * to each post are inputs: a function of the row's index (and of what it is asked about).
 */
module StepRun {
  import opened Wrappers
  import opened Text
  import opened Types
  import opened XfService

  /** `row[key]` as the import reads it: an absent key is `undefined`, which every use treats
      like the empty string (`!value`, `value || ''`). */
  function Cell(row: CsvRow, key: string): string {
    if key in row then row[key] else ""
  }

  /** The body of a post (`URLSearchParams`): name/value pairs in the order they were appended. */
  type FormData = seq<(string, string)>

  /** The tag line sent for a row: the mapped column's value when there is one; otherwise, with
      the generator on, what it produced (nothing when it failed), and with it off the first 90
      characters of the description. */
  function ChooseTagLine(mapped: string, useAI: bool, generated: Option<string>, description: string): string {
    if mapped != "" then mapped
    else if useAI then generated.GetOr("")
    else Prefix(description, 90)
  }

  /** The order of the tag-line rules: the mapped value; else, with the generator on, its
      answer, or nothing when it threw; else the first 90 characters of the description. */
  lemma ChooseTagLineOrder(mapped: string, useAI: bool, generated: Option<string>, description: string)
    ensures mapped != "" ==> ChooseTagLine(mapped, useAI, generated, description) == mapped
    ensures mapped == "" && useAI && generated.Some? ==>
              ChooseTagLine(mapped, useAI, generated, description) == generated.value
    ensures mapped == "" && useAI && generated.None? ==> ChooseTagLine(mapped, useAI, generated, description) == ""
    ensures mapped == "" && !useAI ==>
              var t := ChooseTagLine(mapped, useAI, generated, description);
              t == description[..|t|] && |t| == (if |description| >= 90 then 90 else |description|)
  {
  }

  /** The version sent for a row: the mapped column's value, or `1.0.0` when the column is not
      mapped or the row has no value in it. */
  function VersionOf(mapping: FieldMapping, row: CsvRow): string {
    if mapping.version != "" && Cell(row, mapping.version) != "" then Cell(row, mapping.version) else "1.0.0"
  }

  /** The row carries a download link: its column is mapped and the row has a value in it. */
  predicate HasExternalUrl(mapping: FieldMapping, row: CsvRow) {
    mapping.externalUrl != "" && Cell(row, mapping.externalUrl) != ""
  }

  /** The payload posted for a row. */
  function Payload(config: XFConfig, mapping: FieldMapping, row: CsvRow, title: string, tagLine: string,
                   description: string): FormData
  {
    [ ("resource_category_id", IntToString(config.categoryId)), ("title", title), ("tag_line", tagLine),
      ("description", description), ("version_string", VersionOf(mapping, row)) ]
    + (if HasExternalUrl(mapping, row)
       then [("external_purchase_url", Cell(row, mapping.externalUrl)), ("is_fileless", "1")]
       else [])
  }

  /** A payload always opens with the category, title, tag line, description and version, in
      that order; the link and `is_fileless=1` follow exactly when the row has a link. */
  lemma PayloadShape(config: XFConfig, mapping: FieldMapping, row: CsvRow, title: string, tagLine: string,
                     description: string)
    ensures var p := Payload(config, mapping, row, title, tagLine, description);
            && (|p| == 5 || |p| == 7)
            && p[0] == ("resource_category_id", IntToString(config.categoryId))
            && p[1] == ("title", title) && p[2] == ("tag_line", tagLine)
            && p[3] == ("description", description)
            && p[4].0 == "version_string"
            && (|p| == 7 <==> mapping.externalUrl != "" && Cell(row, mapping.externalUrl) != "")
            && (|p| == 7 ==> p[5] == ("external_purchase_url", Cell(row, mapping.externalUrl))
                             && p[6] == ("is_fileless", "1"))
    ensures var p := Payload(config, mapping, row, title, tagLine, description);
            (mapping.version == "" || Cell(row, mapping.version) == "" ==> p[4].1 == "1.0.0")
            && (mapping.version != "" && Cell(row, mapping.version) != "" ==> p[4].1 == Cell(row, mapping.version))
  {
  }

  /** Builds the payload by successive appends. */
  method BuildParams(config: XFConfig, mapping: FieldMapping, row: CsvRow, title: string, tagLine: string,
                     description: string) returns (params: FormData)
    ensures params == Payload(config, mapping, row, title, tagLine, description)
  {
    params := [];
    params := params + [("resource_category_id", IntToString(config.categoryId))];
    params := params + [("title", title)];
    params := params + [("tag_line", tagLine)];
    params := params + [("description", description)];
    if mapping.version != "" && Cell(row, mapping.version) != "" {
      params := params + [("version_string", Cell(row, mapping.version))];
    } else {
      params := params + [("version_string", "1.0.0")];
    }
    if mapping.externalUrl != "" && Cell(row, mapping.externalUrl) != "" {
      params := params + [("external_purchase_url", Cell(row, mapping.externalUrl))];
      params := params + [("is_fileless", "1")];
    }
  }

  /** The text of one error in a failed post's detail. */
  function ErrorText(e: XFError): string {
    "[" + e.code + "] " + e.message
  }

  /** The text of a failed post's log detail: each error as `[code] message`, joined with
      ` | `, or `Unknown Error` when the result has no error list. */
  function ErrorDetail(errors: Option<seq<XFError>>): string {
    match errors
    case None => "Unknown Error"
    case Some(es) => Join(seq(|es|, k requires 0 <= k < |es| => ErrorText(es[k])), " | ")
  }

  /** A joined list of strings begins with the first one. */
  lemma {:induction false} JoinStart(parts: seq<string>, sep: string)
    requires |parts| > 0
    ensures |Join(parts, sep)| >= |parts[0]| && Join(parts, sep)[..|parts[0]|] == parts[0]
  {
    if |parts| > 1 {
      assert Join(parts, sep) == parts[0] + (sep + Join(parts[1..], sep));
    }
  }

  /** A failed post always has an error list to report, so its detail is never `Unknown Error`:
      it begins with the first error's `[code]`. */
  lemma FailedPostDetail(config: XFConfig, pageIsHttps: bool, outcome: FetchOutcome)
    requires !PostResource(config, pageIsHttps, outcome).success
    ensures var es := PostResource(config, pageIsHttps, outcome).errors;
            var d := ErrorDetail(es);
            var head := "[" + es.value[0].code + "]";
            d != "Unknown Error" && |d| > |head| && d[..|head|] == head
  {
    PostResourceResult(config, pageIsHttps, outcome);
    var es := PostResource(config, pageIsHttps, outcome).errors.value;
    var parts := seq(|es|, k requires 0 <= k < |es| => ErrorText(es[k]));
    JoinStart(parts, " | ");
    var d := Join(parts, " | ");
    var head := "[" + es[0].code + "]";
    assert parts[0][..|head|] == head;
    assert d[..|head|] == parts[0][..|head|];
    assert d[0] == '[';
  }

  /** Every error appears as `[code] message`, in order, separated by ` | `: a single error is
      its own text, and a longer list is its first error's text, the separator and the rest. */
  lemma ErrorDetailCons(e: XFError, es: seq<XFError>)
    ensures ErrorDetail(Some([e])) == ErrorText(e)
    ensures es != [] ==> ErrorDetail(Some([e] + es)) == ErrorText(e) + " | " + ErrorDetail(Some(es))
  {
    var all := [e] + es;
    var parts := seq(|all|, k requires 0 <= k < |all| => ErrorText(all[k]));
    var rest := seq(|es|, k requires 0 <= k < |es| => ErrorText(es[k]));
    assert parts[1..] == rest;
    assert [e][0] == e;
  }

  /** `result.resource?.resource_id` in a template string. */
  function ResourceIdText(resource: Option<Resource>): string {
    match resource
    case None => "undefined"
    case Some(r) => IntToString(r.resourceId)
  }

  /** The settings the loop runs under. */
  datatype Settings = Settings(config: XFConfig, mapping: FieldMapping, useAI: bool, pageIsHttps: bool)

  /** What handling one row gives: its log line, whether it counts as a success, and the
      payload handed to `postResource`, if any. */
  datatype RowResult = RowResult(entry: LogEntry, succeeded: bool, sent: Option<FormData>)

  function InvalidRowMessage(i: nat): string {
    "Row " + NatToString(i + 1) + ": Thiếu Title hoặc Description"
  }

  /** Handling row `i`. `generate(i, title, description)` is the tag-line generator's answer
      (`None` when it throws) and `respond(i, payload)` what the request for it produced. */
  function HandleRow(s: Settings, generate: (nat, string, string) -> Option<string>,
                     respond: (nat, FormData) -> FetchOutcome, i: nat, row: CsvRow): RowResult
  {
    var title := Cell(row, s.mapping.title);
    var rawDesc := Cell(row, s.mapping.description);
    if title == "" || rawDesc == "" then
      RowResult(LogEntry(LogError, InvalidRowMessage(i), RowDump(row)), false, None)
    else
      var mapped := Cell(row, s.mapping.tagLine);
      var generated := if mapped == "" && s.useAI then generate(i, title, rawDesc) else None;
      var tagLine := ChooseTagLine(mapped, s.useAI, generated, rawDesc);
      var params := Payload(s.config, s.mapping, row, title, tagLine, rawDesc);
      var result := PostResource(s.config, s.pageIsHttps, respond(i, params));
      if result.success then
        RowResult(LogEntry(LogSuccess, "Success: " + title, Text("ID: " + ResourceIdText(result.resource))), true, Some(params))
      else
        RowResult(LogEntry(LogError, "Failed: " + title, Text(ErrorDetail(result.errors))), false, Some(params))
  }

  /** A row without a mapped title or description fails with a `Row i+1` error that carries
      the row, and nothing is posted for it. */
  lemma InvalidRowOutcome(s: Settings, generate: (nat, string, string) -> Option<string>,
                          respond: (nat, FormData) -> FetchOutcome, i: nat, row: CsvRow)
    requires Cell(row, s.mapping.title) == "" || Cell(row, s.mapping.description) == ""
    ensures var r := HandleRow(s, generate, respond, i, row);
            && !r.succeeded && r.sent.None? && r.entry.status == LogError
            && r.entry.details == RowDump(row)
            && var head := "Row " + NatToString(i + 1) + ":";
               |r.entry.message| > |head| && r.entry.message[..|head|] == head
  {
    var m := InvalidRowMessage(i);
    var head := "Row " + NatToString(i + 1) + ":";
    assert m == head + " Thiếu Title hoặc Description";
    assert m[..|head|] == head;
  }

  /** Any other row is posted: the payload carries its title, its description and the tag
      line the rules choose (the generator being asked only when no tag line is mapped and it
      is on), and the row is a success exactly when the post is; a success logs the new
      resource's id, a failure the post's errors. */
  lemma PostedRowOutcome(s: Settings, generate: (nat, string, string) -> Option<string>,
                         respond: (nat, FormData) -> FetchOutcome, i: nat, row: CsvRow)
    requires Cell(row, s.mapping.title) != "" && Cell(row, s.mapping.description) != ""
    ensures var r := HandleRow(s, generate, respond, i, row);
            var title := Cell(row, s.mapping.title);
            && r.sent.Some? && |r.sent.value| >= 5
            && r.sent.value[1] == ("title", title)
            && r.sent.value[3] == ("description", Cell(row, s.mapping.description))
            && r.sent.value[2].0 == "tag_line"
            && (Cell(row, s.mapping.tagLine) != "" ==> r.sent.value[2].1 == Cell(row, s.mapping.tagLine))
            && (r.succeeded <==> PostResource(s.config, s.pageIsHttps, respond(i, r.sent.value)).success)
            && (r.succeeded ==> r.entry.status == LogSuccess && r.entry.message == "Success: " + title)
            && (!r.succeeded ==> r.entry.status == LogError && r.entry.message == "Failed: " + title)
    ensures var r := HandleRow(s, generate, respond, i, row);
            var title := Cell(row, s.mapping.title);
            var desc := Cell(row, s.mapping.description);
            var mapped := Cell(row, s.mapping.tagLine);
            var generated := if mapped == "" && s.useAI then generate(i, title, desc) else None;
            r.sent == Some(Payload(s.config, s.mapping, row, title, ChooseTagLine(mapped, s.useAI, generated, desc), desc))
    ensures var r := HandleRow(s, generate, respond, i, row);
            r.sent.Some? &&
            var result := PostResource(s.config, s.pageIsHttps, respond(i, r.sent.value));
            && (r.succeeded ==> r.entry.details == Text("ID: " + ResourceIdText(result.resource)))
            && (!r.succeeded ==> r.entry.details == Text(ErrorDetail(result.errors)))
  {
    var title := Cell(row, s.mapping.title);
    var rawDesc := Cell(row, s.mapping.description);
    var mapped := Cell(row, s.mapping.tagLine);
    var generated := if mapped == "" && s.useAI then generate(i, title, rawDesc) else None;
    PayloadShape(s.config, s.mapping, row, title, ChooseTagLine(mapped, s.useAI, generated, rawDesc), rawDesc);
  }

  /** The results of handling each of the rows, in order. */
  function Results(s: Settings, generate: (nat, string, string) -> Option<string>,
                   respond: (nat, FormData) -> FetchOutcome, rows: seq<CsvRow>): (rs: seq<RowResult>)
    ensures |rs| == |rows|
  {
    if rows == [] then []
    else Results(s, generate, respond, rows[..|rows| - 1]) + [HandleRow(s, generate, respond, |rows| - 1, rows[|rows| - 1])]
  }

  /** Each result is that of handling its own row. */
  lemma {:induction false} ResultsAt(s: Settings, generate: (nat, string, string) -> Option<string>,
                                     respond: (nat, FormData) -> FetchOutcome, rows: seq<CsvRow>, k: nat)
    requires k < |rows|
    ensures Results(s, generate, respond, rows)[k] == HandleRow(s, generate, respond, k, rows[k])
  {
    if k < |rows| - 1 {
      ResultsAt(s, generate, respond, rows[..|rows| - 1], k);
    }
  }

  lemma ResultsSnoc(s: Settings, generate: (nat, string, string) -> Option<string>,
                    respond: (nat, FormData) -> FetchOutcome, rows: seq<CsvRow>, i: nat)
    requires i < |rows|
    ensures Results(s, generate, respond, rows[..i + 1])
            == Results(s, generate, respond, rows[..i]) + [HandleRow(s, generate, respond, i, rows[i])]
  {
    assert rows[..i + 1][..i] == rows[..i];
  }

  /** The log lines of the results, in order. */
  function Entries(rs: seq<RowResult>): (entries: seq<LogEntry>)
    ensures |entries| == |rs|
  {
    if rs == [] then [] else Entries(rs[..|rs| - 1]) + [rs[|rs| - 1].entry]
  }

  function Successes(rs: seq<RowResult>): nat {
    if rs == [] then 0 else Successes(rs[..|rs| - 1]) + (if rs[|rs| - 1].succeeded then 1 else 0)
  }

  function Failures(rs: seq<RowResult>): nat {
    if rs == [] then 0 else Failures(rs[..|rs| - 1]) + (if rs[|rs| - 1].succeeded then 0 else 1)
  }

  /** The payloads handed to `postResource`, in order. */
  function Sent(rs: seq<RowResult>): seq<FormData> {
    if rs == [] then [] else Sent(rs[..|rs| - 1]) + (if rs[|rs| - 1].sent.Some? then [rs[|rs| - 1].sent.value] else [])
  }

  /** Every row is counted exactly once: as a success or as a failure. */
  lemma {:induction false} SuccessesPlusFailures(rs: seq<RowResult>)
    ensures Successes(rs) + Failures(rs) == |rs|
  {
    if rs != [] {
      SuccessesPlusFailures(rs[..|rs| - 1]);
    }
  }

  /** Every success went through a post. */
  predicate SucceedOnlyWhenSent(rs: seq<RowResult>) {
    forall k :: 0 <= k < |rs| ==> (rs[k].succeeded ==> rs[k].sent.Some?)
  }

  /** A payload is handed on for every successful row and for no row without one; so at most
      one per row, and at least one per success. */
  lemma {:induction false} SentCount(rs: seq<RowResult>)
    requires SucceedOnlyWhenSent(rs)
    ensures Successes(rs) <= |Sent(rs)| <= |rs|
  {
    if rs != [] {
      SentCount(rs[..|rs| - 1]);
    }
  }

  /** Rows handled by the loop have that property: a success always went through a post. */
  lemma ResultsSucceedOnlyWhenSent(s: Settings, generate: (nat, string, string) -> Option<string>,
                                   respond: (nat, FormData) -> FetchOutcome, rows: seq<CsvRow>)
    ensures SucceedOnlyWhenSent(Results(s, generate, respond, rows))
  {
    var rs := Results(s, generate, respond, rows);
    forall k | 0 <= k < |rs| ensures rs[k].succeeded ==> rs[k].sent.Some? {
      ResultsAt(s, generate, respond, rows, k);
    }
  }

  /** `Math.round(processed / total * 100) || 0`, in exact arithmetic: the percentage rounded
      half up, and 0 when there are no rows. */
  function ProgressPercent(stats: ImportStats): (p: int)
    requires stats.processed <= stats.total
    ensures 0 <= p <= 100
    ensures stats.total == 0 ==> p == 0
    ensures stats.total > 0 ==> 2 * stats.total * p - stats.total <= 200 * stats.processed < 2 * stats.total * p + stats.total
  {
    if stats.total == 0 then 0
    else
      RoundHalfUp(stats.processed, stats.total);
      (200 * stats.processed + stats.total) / (2 * stats.total)
  }

  lemma MulMono(c: int, x: int, y: int)
    requires c >= 0 && x <= y
    ensures c * x <= c * y
  {
    assert c * y - c * x == c * (y - x);
  }

  /** Adding half the divisor before dividing rounds `n / t` (as a percentage) to the nearest
      integer, halves up; a fraction of at most one gives at most 100. */
  lemma RoundHalfUp(n: nat, t: nat)
    requires 0 < t && n <= t
    ensures var q := (200 * n + t) / (2 * t);
            0 <= q <= 100 && 2 * t * q - t <= 200 * n < 2 * t * q + t
  {
    var d := 2 * t;
    var x := 200 * n + t;
    var q := x / d;
    assert x == d * q + x % d && 0 <= x % d < d;
    if q < 0 {
      MulMono(d, q, -1);
    }
    if q > 100 {
      MulMono(d, 101, q);
    }
  }

  /** The percentage never goes down as rows are processed, and is 100 once all are. */
  lemma ProgressMonotone(a: ImportStats, b: ImportStats)
    requires a.total == b.total && a.processed <= b.processed <= b.total
    ensures ProgressPercent(a) <= ProgressPercent(b)
    ensures b.total > 0 && b.processed == b.total ==> ProgressPercent(b) == 100
  {
    var t := a.total;
    var pa := ProgressPercent(a);
    var pb := ProgressPercent(b);
    if t > 0 {
      if pb < pa {
        // 200 * b.processed < 2t * pb + t <= 2t * pa - t <= 200 * a.processed
        MulMono(2 * t, pb + 1, pa);
      }
      if b.processed == t {
        if pb < 100 {
          MulMono(2 * t, pb + 1, 100);
        }
      }
    }
  }

  /** The import step's state: the rows, settings and counters the component holds, with the
      log it shows and the payloads it handed to `postResource`. */
  class ImportSession {
    const config: XFConfig
    const data: seq<CsvRow>
    const mapping: FieldMapping
    var logs: seq<LogEntry>
    var stats: ImportStats
    var isRunning: bool
    var useAI: bool
    var submitted: seq<FormData>

    /** The counters are about the rows of this import, and every processed row is counted
        once. */
    predicate Valid()
      reads this
    {
      stats.total == |data| && stats.success + stats.failed == stats.processed <= stats.total
    }

    constructor(config: XFConfig, data: seq<CsvRow>, mapping: FieldMapping)
      ensures this.config == config && this.data == data && this.mapping == mapping
      ensures logs == [] && stats == ImportStats(|data|, 0, 0, 0) && !isRunning && useAI && submitted == []
      ensures Valid()
    {
      this.config := config;
      this.data := data;
      this.mapping := mapping;
      logs := [];
      stats := ImportStats(|data|, 0, 0, 0);
      isRunning := false;
      useAI := true;
      submitted := [];
    }

    /** The AI checkbox, shown before the import starts. */
    method SetUseAI(checked: bool)
      modifies this
      ensures useAI == checked
      ensures logs == old(logs) && stats == old(stats) && isRunning == old(isRunning) && submitted == old(submitted)
    {
      useAI := checked;
    }

    /** The bookkeeping after a row: its log line is added, the payload it handed on (if any)
        is remembered, and the counter it belongs to goes up and is copied into the stats. */
    method Record(i: nat, entry: LogEntry, succeeded: bool, sent: Option<FormData>, successes: nat, failures: nat)
      returns (successCount: nat, failCount: nat)
      modifies this
      ensures logs == old(logs) + [entry]
      ensures submitted == old(submitted) + (if sent.Some? then [sent.value] else [])
      ensures successCount == successes + (if succeeded then 1 else 0)
      ensures failCount == failures + (if succeeded then 0 else 1)
      ensures stats == (if succeeded then old(stats).(processed := i + 1, success := successCount)
                        else old(stats).(processed := i + 1, failed := failCount))
      ensures isRunning == old(isRunning) && useAI == old(useAI)
    {
      successCount, failCount := successes, failures;
      stats := stats.(processed := i + 1);
      if sent.Some? {
        submitted := submitted + [sent.value];
      }
      logs := logs + [entry];
      if succeeded {
        successCount := successCount + 1;
        stats := stats.(success := successCount);
      } else {
        failCount := failCount + 1;
        stats := stats.(failed := failCount);
      }
    }

    /** One turn of `runImport`'s loop: row `i` is handled, the counters, log and stats are
        updated as `HandleRow` says. */
    method ImportRow(i: nat, pageIsHttps: bool, generate: (nat, string, string) -> Option<string>,
                     respond: (nat, FormData) -> FetchOutcome, successes: nat, failures: nat)
      returns (successCount: nat, failCount: nat)
      requires i < |data|
      modifies this
      ensures var r := HandleRow(Settings(config, mapping, useAI, pageIsHttps), generate, respond, i, data[i]);
              && logs == old(logs) + [r.entry]
              && submitted == old(submitted) + (if r.sent.Some? then [r.sent.value] else [])
              && successCount == successes + (if r.succeeded then 1 else 0)
              && failCount == failures + (if r.succeeded then 0 else 1)
              && stats == (if r.succeeded then old(stats).(processed := i + 1, success := successCount)
                           else old(stats).(processed := i + 1, failed := failCount))
      ensures isRunning == old(isRunning) && useAI == old(useAI)
    {
      ghost var r := HandleRow(Settings(config, mapping, useAI, pageIsHttps), generate, respond, i, data[i]);
      var row := data[i];
      var title := Cell(row, mapping.title);
      var rawDesc := Cell(row, mapping.description);
      if title == "" || rawDesc == "" {
        var entry := LogEntry(LogError, InvalidRowMessage(i), RowDump(row));
        assert r == RowResult(entry, false, None);
        successCount, failCount := Record(i, entry, false, None, successes, failures);
        return;
      }
      var tagLine := Cell(row, mapping.tagLine);
      ghost var mapped := tagLine;
      ghost var generated := if mapped == "" && useAI then generate(i, title, rawDesc) else None;
      var description := rawDesc;
      if useAI {
        if tagLine == "" {
          var answer := generate(i, title, rawDesc);
          // a generator that throws leaves the tag line empty
          if answer.Some? {
            tagLine := answer.value;
          }
        }
      } else if tagLine == "" {
        tagLine := Prefix(description, 90);
      }
      assert tagLine == ChooseTagLine(mapped, useAI, generated, rawDesc);
      var params := BuildParams(config, mapping, row, title, tagLine, description);
      var result := PostResource(config, pageIsHttps, respond(i, params));
      var entry;
      if result.success {
        entry := LogEntry(LogSuccess, "Success: " + title, Text("ID: " + ResourceIdText(result.resource)));
      } else {
        entry := LogEntry(LogError, "Failed: " + title, Text(ErrorDetail(result.errors)));
      }
      assert r == RowResult(entry, result.success, Some(params));
      successCount, failCount := Record(i, entry, result.success, Some(params), successes, failures);
    }

    /** `runImport`, started from the button shown while nothing has been processed: every row
        is handled once, in order; the counters end up partitioning the rows, the log gets one
        line per row and a closing line, and a payload is handed on per row that was posted. */
    method RunImport(pageIsHttps: bool, generate: (nat, string, string) -> Option<string>,
                     respond: (nat, FormData) -> FetchOutcome)
      requires Valid() && !isRunning && stats.processed == 0
      modifies this
      ensures Valid() && !isRunning && useAI == old(useAI)
      ensures var rs := Results(Settings(config, mapping, old(useAI), pageIsHttps), generate, respond, data);
              && stats == ImportStats(|data|, Successes(rs), Failures(rs), |data|)
              && logs == old(logs) + Entries(rs) + [LogEntry(LogInfo, "Process finished.", NoDetails)]
              && submitted == old(submitted) + Sent(rs)
    {
      isRunning := true;
      var successCount := 0;
      var failCount := 0;
      ghost var s := Settings(config, mapping, useAI, pageIsHttps);
      ghost var rs: seq<RowResult> := [];
      ghost var runLogs: seq<LogEntry> := [];
      ghost var runSent: seq<FormData> := [];
      assert data[..0] == [];
      for i := 0 to |data|
        invariant s == Settings(config, mapping, useAI, pageIsHttps) && isRunning
        invariant rs == Results(s, generate, respond, data[..i])
        invariant logs == old(logs) + runLogs && submitted == old(submitted) + runSent
        invariant stats.total == |data| && Accounted(rs, successCount, failCount, stats, runLogs, runSent)
      {
        ghost var r := HandleRow(s, generate, respond, i, data[i]);
        ResultsSnoc(s, generate, respond, data, i);
        ghost var before := (successCount, failCount, stats);
        successCount, failCount := ImportRow(i, pageIsHttps, generate, respond, successCount, failCount);
        AccountedStep(rs, r, before.0, before.1, before.2, runLogs, runSent, successCount, failCount, stats);
        ConcatAssoc(old(logs), runLogs, [r.entry]);
        ConcatAssoc(old(submitted), runSent, if r.sent.Some? then [r.sent.value] else []);
        rs := rs + [r];
        runLogs := runLogs + [r.entry];
        runSent := runSent + (if r.sent.Some? then [r.sent.value] else []);
      }
      assert data[..|data|] == data;
      SuccessesPlusFailures(rs);
      isRunning := false;
      ConcatAssoc(old(logs), runLogs, [LogEntry(LogInfo, "Process finished.", NoDetails)]);
      logs := logs + [LogEntry(LogInfo, "Process finished.", NoDetails)];
    }
  }

  lemma ConcatAssoc<T>(a: seq<T>, b: seq<T>, c: seq<T>)
    ensures (a + b) + c == a + (b + c)
  {
  }

  /** The loop's bookkeeping after the results `rs`: the counters and stats count its
      successes and failures, and the run's log lines and payloads are those of `rs`. */
  ghost predicate Accounted(rs: seq<RowResult>, successCount: nat, failCount: nat, stats: ImportStats,
                            runLogs: seq<LogEntry>, runSent: seq<FormData>)
  {
    && successCount == Successes(rs) && failCount == Failures(rs)
    && stats.success == successCount && stats.failed == failCount && stats.processed == |rs|
    && runLogs == Entries(rs) && runSent == Sent(rs)
  }

  /** Handling one more row keeps the bookkeeping in step. */
  lemma AccountedStep(rs: seq<RowResult>, r: RowResult, successes: nat, failures: nat, stats: ImportStats,
                      runLogs: seq<LogEntry>, runSent: seq<FormData>,
                      successCount: nat, failCount: nat, stats': ImportStats)
    requires Accounted(rs, successes, failures, stats, runLogs, runSent)
    requires successCount == successes + (if r.succeeded then 1 else 0)
    requires failCount == failures + (if r.succeeded then 0 else 1)
    requires stats' == (if r.succeeded then stats.(processed := |rs| + 1, success := successCount)
                        else stats.(processed := |rs| + 1, failed := failCount))
    ensures Accounted(rs + [r], successCount, failCount, stats', runLogs + [r.entry],
                      runSent + (if r.sent.Some? then [r.sent.value] else []))
  {
    ResultsStep(rs, r);
  }

  /** Appending one result extends each of the summaries by that result alone. */
  lemma ResultsStep(rs: seq<RowResult>, r: RowResult)
    ensures Entries(rs + [r]) == Entries(rs) + [r.entry]
    ensures Successes(rs + [r]) == Successes(rs) + (if r.succeeded then 1 else 0)
    ensures Failures(rs + [r]) == Failures(rs) + (if r.succeeded then 0 else 1)
    ensures Sent(rs + [r]) == Sent(rs) + (if r.sent.Some? then [r.sent.value] else [])
  {
    assert (rs + [r])[..|rs|] == rs;
  }

  /** After an import the counters add up to the number of rows, and no more payloads were
      posted than there were rows. */
  lemma ImportTotals(s: Settings, generate: (nat, string, string) -> Option<string>,
                     respond: (nat, FormData) -> FetchOutcome, rows: seq<CsvRow>)
    ensures var rs := Results(s, generate, respond, rows);
            Successes(rs) + Failures(rs) == |rows| && Successes(rs) <= |Sent(rs)| <= |rows|
  {
    var rs := Results(s, generate, respond, rows);
    SuccessesPlusFailures(rs);
    ResultsSucceedOnlyWhenSent(s, generate, respond, rows);
    SentCount(rs);
  }
}
