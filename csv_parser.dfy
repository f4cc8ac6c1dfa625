/**
 * The CSV reader (utils/csvParser.ts): the text is split into non-blank lines, every line
 * is tokenised by a global regular expression, and every data line is zipped against the
 * header line into a row.
 *
 * The tokeniser is modelled by what the expression
 *   (?:,|\n|^)("(?:(?:"")*[^"]*)*"|[^",\n]*|(?:\n|$))
 * matches under JavaScript's backtracking semantics, not by a regular-expression engine:
 *  - a match starts at the first separator (`,` or line feed) at or after `lastIndex`, or at
 *    index 0 through `^`; the separator alternatives are tried before `^`, so a line that
 *    begins with a comma takes that comma as the prefix of its first match and its leading
 *    empty field is lost (`,a` gives `["a"]`);
 *  - the group is a quoted field when the quoted alternative can close, and otherwise the
 *    longest run of characters other than `"`, `,` and line feed (possibly empty);
 *  - the third alternative is never reached, because the second one always matches, so the
 *    group is always defined and every match is pushed.
 */
module CsvParser {
  import opened Wrappers
  import opened Text
  import opened Types

  // ---------------------------------------------------------------------------------------
  // Lines (csvParser.ts:4)

  /** Index of the first line feed in `s`. */
  function FirstNewline(s: string): (k: nat)
    requires '\n' in s
    ensures k < |s| && s[k] == '\n' && '\n' !in s[..k]
  {
    if s[0] == '\n' then 0
    else
      var k := 1 + FirstNewline(s[1..]);
      assert s[..k] == [s[0]] + s[1..][..k - 1];
      k
  }

  /** A piece before a line feed loses one carriage return, the `\r?` of the separator: the
      piece is the line, or the line followed by one carriage return, and a trailing carriage
      return is always dropped. */
  function DropCarriageReturn(piece: string): (line: string)
    ensures piece == line || piece == line + "\r"
    ensures piece != [] && piece[|piece| - 1] == '\r' ==> piece == line + "\r"
  {
    if piece != [] && piece[|piece| - 1] == '\r' then piece[..|piece| - 1] else piece
  }

  /** The number of line feeds in `s`. */
  function NewlineCount(s: string): nat
  {
    if s == [] then 0 else (if s[0] == '\n' then 1 else 0) + NewlineCount(s[1..])
  }

  lemma {:induction false} NewlineCountAppend(a: string, b: string)
    ensures NewlineCount(a + b) == NewlineCount(a) + NewlineCount(b)
  {
    if a == [] {
      assert a + b == b;
    } else {
      assert (a + b)[0] == a[0] && (a + b)[1..] == a[1..] + b;
      NewlineCountAppend(a[1..], b);
    }
  }

  lemma {:induction false} NewlineCountNone(s: string)
    requires '\n' !in s
    ensures NewlineCount(s) == 0
  {
    if s != [] {
      assert forall c :: c in s[1..] ==> c in s;
      NewlineCountNone(s[1..]);
    }
  }

  /** `content.split(/\r?\n/)`: one piece more than there are line feeds. */
  function SplitLines(content: string): (lines: seq<string>)
    ensures |lines| == NewlineCount(content) + 1
    decreases |content|
  {
    if '\n' !in content then
      NewlineCountNone(content);
      [content]
    else
      var k := FirstNewline(content);
      NewlineCountNone(content[..k]);
      assert content == content[..k] + ("\n" + content[k + 1..]);
      NewlineCountAppend(content[..k], "\n" + content[k + 1..]);
      assert ("\n" + content[k + 1..])[1..] == content[k + 1..];
      [DropCarriageReturn(content[..k])] + SplitLines(content[k + 1..])
  }

  /** No piece of the split holds a line feed. */
  lemma {:induction false} SplitLinesNoNewline(content: string)
    ensures forall line :: line in SplitLines(content) ==> '\n' !in line
    decreases |content|
  {
    if '\n' in content {
      var k := FirstNewline(content);
      var piece := DropCarriageReturn(content[..k]);
      assert forall c :: c in piece ==> c in content[..k];
      assert '\n' !in piece;
      SplitLinesNoNewline(content[k + 1..]);
      assert SplitLines(content) == [piece] + SplitLines(content[k + 1..]);
    }
  }

  /** `.filter((line) => line.trim() !== '')`: the kept lines are exactly the non-blank lines
      of the input. */
  function KeepNonBlank(lines: seq<string>): (kept: seq<string>)
    ensures |kept| <= |lines|
    ensures forall line :: line in kept <==> line in lines && !IsBlank(line)
  {
    if lines == [] then []
    else
      var rest := KeepNonBlank(lines[1..]);
      TrimShape(lines[0]);
      assert forall line :: line in lines <==> line == lines[0] || line in lines[1..];
      if Trim(lines[0]) == "" then rest else [lines[0]] + rest
  }

  /** The filter goes line by line: filtering two runs of lines one after the other filters
      each, so the kept lines keep their order. */
  lemma {:induction false} KeepNonBlankAppend(a: seq<string>, b: seq<string>)
    ensures KeepNonBlank(a + b) == KeepNonBlank(a) + KeepNonBlank(b)
  {
    if a == [] {
      assert a + b == b;
    } else {
      assert (a + b)[0] == a[0] && (a + b)[1..] == a[1..] + b;
      KeepNonBlankAppend(a[1..], b);
    }
  }

  /** A single line is kept exactly when it is not blank. */
  lemma KeepNonBlankOne(line: string)
    ensures KeepNonBlank([line]) == if IsBlank(line) then [] else [line]
  {
    var lines := [line];
    assert lines[1..] == [];
    TrimEmptyIffBlank(line);
  }

  /** Filtering lines that are all non-blank keeps them all. */
  lemma {:induction false} KeepNonBlankAll(lines: seq<string>)
    requires forall i :: 0 <= i < |lines| ==> !IsBlank(lines[i])
    ensures KeepNonBlank(lines) == lines
  {
    if lines != [] {
      TrimShape(lines[0]);
      KeepNonBlankAll(lines[1..]);
    }
  }

  /** The lines `parseCSV` works on. */
  function NonBlankLines(content: string): seq<string>
  {
    KeepNonBlank(SplitLines(content))
  }

  /** Every line `parseCSV` works on is non-blank and holds no line feed. */
  lemma NonBlankLinesShape(content: string)
    ensures forall line :: line in NonBlankLines(content) ==> !IsBlank(line) && '\n' !in line
  {
    SplitLinesNoNewline(content);
  }

  /** The first line feed ends the first piece, which loses one carriage return before it. */
  lemma SplitAtFirstNewline(a: string, b: string)
    requires '\n' !in a
    ensures SplitLines(a + "\n" + b) == [DropCarriageReturn(a)] + SplitLines(b)
  {
    var s := a + "\n" + b;
    assert s[..|a|] == a && s[|a|] == '\n' && s[|a| + 1..] == b;
  }

  /** Lines joined with line feeds split back into the same lines, provided no line holds a
      line feed and no line but the last ends in a carriage return. */
  lemma {:induction false} SplitJoinLines(lines: seq<string>)
    requires lines != []
    requires forall i :: 0 <= i < |lines| ==> '\n' !in lines[i]
    requires forall i :: 0 <= i < |lines| - 1 ==> lines[i] == [] || lines[i][|lines[i]| - 1] != '\r'
    ensures SplitLines(Join(lines, "\n")) == lines
  {
    if |lines| == 1 {
      assert Join(lines, "\n") == lines[0];
    } else {
      var tail := Join(lines[1..], "\n");
      assert Join(lines, "\n") == lines[0] + "\n" + tail;
      SplitAtFirstNewline(lines[0], tail);
      assert DropCarriageReturn(lines[0]) == lines[0];
      SplitJoinLines(lines[1..]);
    }
  }

  /** A line feed and a carriage return followed by a line feed both separate lines, and
      neither shows in the piece it ends: the first piece is the text before the separator,
      and the rest splits on its own. */
  lemma SplitLinesAt(a: string, b: string)
    requires '\n' !in a
    ensures SplitLines(a + "\n" + b) == [DropCarriageReturn(a)] + SplitLines(b)
    ensures SplitLines(a + "\r\n" + b) == [a] + SplitLines(b)
  {
    SplitAtFirstNewline(a, b);
    var cr := a + "\r";
    assert '\n' !in cr;
    assert a + "\r\n" + b == cr + "\n" + b;
    SplitAtFirstNewline(cr, b);
    var line := DropCarriageReturn(cr);
    assert cr == line + "\r";
    assert line == cr[..|a|] == a;
  }

  /** Lines joined with a carriage return and a line feed split back into the same lines,
      whatever they end with, provided none holds a line feed. */
  lemma {:induction false} SplitJoinCrLf(lines: seq<string>)
    requires lines != []
    requires forall i :: 0 <= i < |lines| ==> '\n' !in lines[i]
    ensures SplitLines(Join(lines, "\r\n")) == lines
  {
    if |lines| == 1 {
      assert Join(lines, "\r\n") == lines[0];
    } else {
      var tail := Join(lines[1..], "\r\n");
      assert Join(lines, "\r\n") == lines[0] + "\r\n" + tail;
      SplitLinesAt(lines[0], tail);
      SplitJoinCrLf(lines[1..]);
    }
  }

  // ---------------------------------------------------------------------------------------
  // Field values (csvParser.ts:21-24)

  /** `.replace(/""/g, '"')`: every doubled quote, read left to right, becomes one quote. */
  function Unescape(s: string): (r: string)
    ensures |r| <= |s|
  {
    if |s| >= 2 && s[0] == '"' && s[1] == '"' then "\"" + Unescape(s[2..])
    else if s == [] then []
    else [s[0]] + Unescape(s[1..])
  }

  /** `val.slice(1, -1)`. */
  function SliceInner(s: string): (r: string)
    ensures |s| >= 2 ==> r == s[1..|s| - 1]
    ensures |s| < 2 ==> r == []
  {
    if |s| >= 2 then s[1..|s| - 1] else []
  }

  /** What is pushed for a matched group: the trimmed text, and when it is wrapped in quotes,
      the inside with doubled quotes undone (the inside itself is not trimmed again). */
  function CleanField(raw: string): (v: string)
    ensures |v| <= |raw|
  {
    var t := Trim(raw);
    if |t| > 0 && t[0] == '"' && t[|t| - 1] == '"' then Unescape(SliceInner(t)) else t
  }

  /** A group holding no quote, as every unquoted group is, gives its trimmed text: nothing
      with white space at its ends, and empty exactly when the group is blank (` a ` gives
      `a`). */
  lemma CleanFieldUnquoted(raw: string)
    requires '"' !in raw
    ensures CleanField(raw) == Trim(raw)
    ensures var v := CleanField(raw);
            (v != [] ==> !IsJsSpace(v[0]) && !IsJsSpace(v[|v| - 1])) && (v == [] <==> IsBlank(raw))
  {
    TrimShape(raw);
    var ts := TrimStart(raw);
    var t := Trim(raw);
    if t != [] {
      assert t[0] == ts[0] == raw[|raw| - |ts|];
    }
  }

  /** A quoted field, with or without white space around it, gives the inside of its quotes
      with every doubled quote undone, and the inside is not trimmed (` "a""b" ` gives
      `a"b`). */
  lemma CleanFieldQuoted(before: string, inner: string, after: string)
    requires IsBlank(before) && IsBlank(after)
    ensures CleanField(before + "\"" + inner + "\"" + after) == Unescape(inner)
  {
    var q := "\"" + inner + "\"";
    assert before + "\"" + inner + "\"" + after == before + q + after;
    TrimAround(before, q, after);
    assert SliceInner(q) == inner;
  }

  // ---------------------------------------------------------------------------------------
  // One match of the tokenising expression (csvParser.ts:11)

  predicate IsSep(c: char) {
    c == ',' || c == '\n'
  }

  /**
   * Where the quoted alternative `"(?:(?:"")*[^"]*)*"` closes, scanning from `p` (just after
   * the opening quote). A doubled quote is a pair and is skipped; a quote not followed by
   * another one closes the field. Reaching the end of the line, the engine backtracks and
   * closes on the first quote of the last pair it skipped (`lastPair`); with no pair and no
   * closing quote the alternative fails (`None`).
   */
  function QuoteClose(s: string, p: nat, lastPair: Option<nat>): (q: Option<nat>)
    requires p <= |s|
    requires lastPair.Some? ==> lastPair.value < p
    ensures q.Some? ==> q.value < |s|
    ensures q.Some? ==> q.value >= (if lastPair.Some? then lastPair.value else p)
    decreases |s| - p
  {
    if p == |s| then lastPair
    else if s[p] != '"' then QuoteClose(s, p + 1, lastPair)
    else if p + 1 < |s| && s[p + 1] == '"' then QuoteClose(s, p + 2, Some(p))
    else Some(p)
  }

  /** The quoted alternative closes on a quote, and fails only when no quote follows. */
  lemma {:induction false} QuoteCloseShape(s: string, p: nat, lastPair: Option<nat>)
    requires p <= |s|
    requires lastPair.Some? ==> lastPair.value < p && s[lastPair.value] == '"'
    ensures var q := QuoteClose(s, p, lastPair);
            q.Some? ==> s[q.value] == '"'
    ensures QuoteClose(s, p, lastPair).None? ==>
              lastPair.None? && forall k :: p <= k < |s| ==> s[k] != '"'
    decreases |s| - p
  {
    if p == |s| {
    } else if s[p] != '"' {
      QuoteCloseShape(s, p + 1, lastPair);
    } else if p + 1 < |s| && s[p + 1] == '"' {
      QuoteCloseShape(s, p + 2, Some(p));
    }
  }

  /** End of the unquoted alternative `[^",\n]*` started at `g`: the first quote or separator. */
  function PlainEnd(s: string, g: nat): (e: nat)
    requires g <= |s|
    ensures g <= e <= |s|
    decreases |s| - g
  {
    if g < |s| && s[g] != '"' && !IsSep(s[g]) then PlainEnd(s, g + 1) else g
  }

  /** The unquoted alternative takes every character up to, and not including, the first quote
      or separator. */
  lemma {:induction false} PlainEndShape(s: string, g: nat)
    requires g <= |s|
    ensures forall k :: g <= k < PlainEnd(s, g) ==> s[k] != '"' && !IsSep(s[k])
    ensures PlainEnd(s, g) < |s| ==> s[PlainEnd(s, g)] == '"' || IsSep(s[PlainEnd(s, g)])
    decreases |s| - g
  {
    if g < |s| && s[g] != '"' && !IsSep(s[g]) {
      PlainEndShape(s, g + 1);
    }
  }

  /** End of the capture group started at `g`: a quoted field when it can close, otherwise an
      unquoted one. */
  function GroupEnd(s: string, g: nat): (e: nat)
    requires g <= |s|
    ensures g <= e <= |s|
  {
    if g < |s| && s[g] == '"' && QuoteClose(s, g + 1, None).Some? then QuoteClose(s, g + 1, None).value + 1
    else PlainEnd(s, g)
  }

  /** An unquoted group never holds a quote or separator; a group that starts on a quote is
      either a quoted field ending on a quote, or empty when the quote cannot close. */
  lemma GroupEndShape(s: string, g: nat)
    requires g <= |s|
    ensures (g == |s| || s[g] != '"') ==>
              forall k :: g <= k < GroupEnd(s, g) ==> s[k] != '"' && !IsSep(s[k])
    ensures g < |s| && s[g] == '"' ==>
              GroupEnd(s, g) == g || (GroupEnd(s, g) >= g + 2 && s[GroupEnd(s, g) - 1] == '"')
  {
    PlainEndShape(s, g);
    if g < |s| {
      QuoteCloseShape(s, g + 1, None);
    }
  }

  /** A match: the whole match is `[index, end)` and the capture group is `[start, end)`. */
  datatype Match = Match(index: nat, start: nat, end: nat)

  /** The first separator at or after `from`, or `|s|` when there is none. */
  function NextSep(s: string, from: nat): (j: nat)
    requires from <= |s|
    ensures from <= j <= |s|
    decreases |s| - from
  {
    if from == |s| || IsSep(s[from]) then from else NextSep(s, from + 1)
  }

  /** `NextSep` finds the first separator. */
  lemma {:induction false} NextSepFirst(s: string, from: nat)
    requires from <= |s|
    ensures NextSep(s, from) < |s| ==> IsSep(s[NextSep(s, from)])
    ensures forall k :: from <= k < NextSep(s, from) ==> !IsSep(s[k])
    decreases |s| - from
  {
    if from < |s| && !IsSep(s[from]) {
      NextSepFirst(s, from + 1);
    }
  }

  /**
   * `regex.exec(line)` with `regex.lastIndex == from`: the match at the first position at or
   * after `from` where the expression matches. A separator there is the prefix; otherwise only
   * index 0 matches, through `^`. There is none past the end or after the last separator.
   */
  function Exec(s: string, from: nat): (m: Option<Match>)
    ensures m.Some? ==> from <= m.value.index <= m.value.start <= m.value.end <= |s|
  {
    if from > |s| then None
    else if from == 0 && (s == [] || !IsSep(s[0])) then Some(Match(0, 0, GroupEnd(s, 0)))
    else
      var j := NextSep(s, from);
      if j < |s| then Some(Match(j, j + 1, GroupEnd(s, j + 1))) else None
  }

  /** What `exec` finds: the match begins at the first separator at or after `from`, which is
      its prefix, or at index 0 through `^` when the line does not begin with one; its group
      ends where `GroupEnd` says; and there is no match exactly when `from` is past the end, or
      not at 0 and followed by no separator. */
  lemma ExecFinds(s: string, from: nat)
    ensures var m := Exec(s, from);
            m.Some? ==> m.value.end == GroupEnd(s, m.value.start)
    ensures var m := Exec(s, from);
            m.Some? ==> (m.value.start == m.value.index + 1 && IsSep(s[m.value.index]))
                        || (m.value.start == m.value.index == 0 && (s == [] || !IsSep(s[0])))
    ensures var m := Exec(s, from);
            m.Some? ==> forall k :: from <= k < m.value.index ==> !IsSep(s[k])
    ensures Exec(s, from).None? <==> from > |s| || (from > 0 && forall k :: from <= k < |s| ==> !IsSep(s[k]))
  {
    if from <= |s| {
      NextSepFirst(s, from);
    }
  }

  /** `lastIndex` after a match: its end, bumped by one when the match was empty
      (csvParser.ts:16-18). */
  function NextIndex(m: Match): nat {
    if m.index == m.end then m.end + 1 else m.end
  }

  /** The text of the capture group of every match the `exec` loop finds once `lastIndex` is
      `from`, in order: the first `exec` always matches, and each match moves `lastIndex` on,
      so there is at least one group and at most one per position left. */
  function Groups(s: string, from: nat): (groups: seq<string>)
    ensures from == 0 ==> groups != []
    ensures from <= |s| + 1 ==> |groups| <= |s| + 1 - from
    decreases |s| + 1 - from
  {
    match Exec(s, from)
    case None => []
    case Some(m) => [s[m.start..m.end]] + Groups(s, NextIndex(m))
  }

  /** One turn of the `exec` loop. */
  lemma GroupsStep(s: string, from: nat, m: Match)
    requires Exec(s, from) == Some(m)
    ensures Groups(s, from) == [s[m.start..m.end]] + Groups(s, NextIndex(m))
  {
  }

  /** Standing on a separator, the loop takes the group right after it and resumes at its end. */
  lemma GroupsAtSep(s: string, k: nat, e: nat)
    requires k < |s| && IsSep(s[k])
    requires GroupEnd(s, k + 1) == e
    ensures Groups(s, k) == [s[k + 1..e]] + Groups(s, e)
  {
    assert Exec(s, k) == Some(Match(k, k + 1, e));
    GroupsStep(s, k, Match(k, k + 1, e));
  }

  /** On a line that does not begin with a separator the loop first takes the group at index 0. */
  lemma GroupsAtStart(s: string, e: nat)
    requires s != [] && !IsSep(s[0])
    requires GroupEnd(s, 0) == e && e > 0
    ensures Groups(s, 0) == [s[..e]] + Groups(s, e)
  {
    assert Exec(s, 0) == Some(Match(0, 0, e));
    GroupsStep(s, 0, Match(0, 0, e));
  }

  /** The value pushed for each group. */
  function CleanAll(groups: seq<string>): (fields: seq<string>)
    ensures |fields| == |groups|
  {
    seq(|groups|, i requires 0 <= i < |groups| => CleanField(groups[i]))
  }

  /** `parseLine(line)`: never empty, because the first `exec` always matches at index 0. */
  function Fields(line: string): (fields: seq<string>)
    ensures fields != []
  {
    CleanAll(Groups(line, 0))
  }

  /** `parseLine`: the `exec` loop of csvParser.ts:13-27. */
  method ParseLine(line: string) returns (matches: seq<string>)
    ensures matches == Fields(line)
    ensures matches != []
  {
    var lastIndex := 0;
    matches := [];
    ghost var groups: seq<string> := [];
    while true
      invariant lastIndex <= |line| + 1
      invariant groups + Groups(line, lastIndex) == Groups(line, 0)
      invariant matches == CleanAll(groups)
      decreases |line| + 1 - lastIndex
    {
      var found := Exec(line, lastIndex);
      if found.None? {
        break;
      }
      var m := found.value;
      GroupsStep(line, lastIndex, m);
      lastIndex := m.end;
      if m.index == lastIndex {
        lastIndex := lastIndex + 1;
      }
      assert lastIndex == NextIndex(m);
      // the group is always defined (`match[1] !== undefined` holds), so every match is pushed
      var group := line[m.start..m.end];
      ConcatAssoc(groups, [group], Groups(line, lastIndex));
      CleanAllSnoc(groups, group);
      matches := matches + [CleanField(group)];
      groups := groups + [group];
    }
    assert groups == Groups(line, 0);
  }

  lemma ConcatAssoc<T>(a: seq<T>, b: seq<T>, c: seq<T>)
    ensures a + (b + c) == (a + b) + c
  {
  }

  lemma CleanAllSnoc(groups: seq<string>, group: string)
    ensures CleanAll(groups + [group]) == CleanAll(groups) + [CleanField(group)]
  {
  }

  // ---------------------------------------------------------------------------------------
  // Rows (csvParser.ts:32-46)

  /** `parseLine(lines[0]).map(h => h.trim())`. */
  function HeaderNames(line: string): (headers: seq<string>)
    ensures |headers| == |Fields(line)|
  {
    TrimAll(Fields(line))
  }

  /** `.map(h => h.trim())`. */
  function TrimAll(names: seq<string>): (trimmed: seq<string>)
    ensures |trimmed| == |names|
  {
    seq(|names|, i requires 0 <= i < |names| => Trim(names[i]))
  }

  /** `currentLine[index] || ''`: the cell, or empty when the line is too short. */
  function CellAt(fields: seq<string>, j: nat): string {
    if j < |fields| then fields[j] else ""
  }

  /** The row `headers.forEach` builds: one assignment per header, in header order. */
  function ZipRow(headers: seq<string>, fields: seq<string>): (row: CsvRow)
    decreases |headers|
  {
    if headers == [] then map[]
    else
      var n := |headers| - 1;
      ZipRow(headers[..n], fields)[headers[n] := CellAt(fields, n)]
  }

  /** The row has exactly one key per distinct header name. */
  lemma {:induction false} ZipRowKeys(headers: seq<string>, fields: seq<string>)
    ensures ZipRow(headers, fields).Keys == set h | h in headers
    decreases |headers|
  {
    if headers != [] {
      var n := |headers| - 1;
      ZipRowKeys(headers[..n], fields);
      assert forall h :: h in headers <==> h in headers[..n] || h == headers[n];
    }
  }

  /** The value under a header is the cell in the column of the LAST header with that name. */
  lemma {:induction false} ZipRowLastWins(headers: seq<string>, fields: seq<string>, j: nat)
    requires j < |headers|
    requires forall k :: j < k < |headers| ==> headers[k] != headers[j]
    ensures headers[j] in ZipRow(headers, fields)
    ensures ZipRow(headers, fields)[headers[j]] == CellAt(fields, j)
    decreases |headers|
  {
    var n := |headers| - 1;
    if j < n {
      ZipRowLastWins(headers[..n], fields, j);
    }
  }

  /** With distinct header names every cell lands under its own header; extra cells are
      dropped and missing ones read as empty. */
  lemma ZipRowDistinct(headers: seq<string>, fields: seq<string>)
    requires forall i, k :: 0 <= i < k < |headers| ==> headers[i] != headers[k]
    ensures forall j :: 0 <= j < |headers| ==>
              headers[j] in ZipRow(headers, fields) && ZipRow(headers, fields)[headers[j]] == CellAt(fields, j)
  {
    forall j | 0 <= j < |headers|
      ensures headers[j] in ZipRow(headers, fields) && ZipRow(headers, fields)[headers[j]] == CellAt(fields, j)
    {
      ZipRowLastWins(headers, fields, j);
    }
  }

  /** The row for one data line: `row[header] = currentLine[index] || ''` in header order. */
  method BuildRow(headers: seq<string>, fields: seq<string>) returns (row: CsvRow)
    ensures row == ZipRow(headers, fields)
  {
    row := map[];
    for index := 0 to |headers|
      invariant row == ZipRow(headers[..index], fields)
    {
      assert headers[..index + 1][..index] == headers[..index];
      row := row[headers[index] := CellAt(fields, index)];
    }
    assert headers[..|headers|] == headers;
  }

  /** One row per data line, in file order. */
  function DataRows(headers: seq<string>, lines: seq<string>): (rows: seq<CsvRow>)
    ensures |rows| == |lines|
  {
    seq(|lines|, i requires 0 <= i < |lines| => ZipRow(headers, Fields(lines[i])))
  }

  /**
   * `parseCSV(content)`: no rows unless there is a header line and at least one data line;
   * otherwise exactly one row per non-blank data line.
   * (The `continue` for a line with no fields at csvParser.ts:37 never runs: `Fields` is
   * never empty.)
   */
  function Parse(content: string): (rows: seq<CsvRow>)
    ensures |NonBlankLines(content)| < 2 ==> rows == []
    ensures |NonBlankLines(content)| >= 2 ==> |rows| == |NonBlankLines(content)| - 1
  {
    var lines := NonBlankLines(content);
    if |lines| < 2 then [] else DataRows(HeaderNames(lines[0]), lines[1..])
  }

  /** Every row is keyed by exactly the trimmed header names, and the value of each row under a
      header is the cell of its data line in that header's column (the last such column when a
      name repeats). */
  lemma ParseRows(content: string, i: nat, j: nat)
    requires i < |Parse(content)|
    ensures var lines := NonBlankLines(content);
            var headers := HeaderNames(lines[0]);
            && Parse(content)[i].Keys == (set h | h in headers)
            && (j < |headers| && (forall k :: j < k < |headers| ==> headers[k] != headers[j]) ==>
                  Parse(content)[i][headers[j]] == CellAt(Fields(lines[i + 1]), j))
  {
    var lines := NonBlankLines(content);
    var headers := HeaderNames(lines[0]);
    var fields := Fields(lines[i + 1]);
    assert Parse(content)[i] == ZipRow(headers, fields);
    ZipRowKeys(headers, fields);
    if j < |headers| && (forall k :: j < k < |headers| ==> headers[k] != headers[j]) {
      ZipRowLastWins(headers, fields, j);
    }
  }

  /** `parseCSV`: the loop of csvParser.ts:35-44 over the data lines. */
  method ParseCsv(content: string) returns (data: seq<CsvRow>)
    ensures data == Parse(content)
  {
    var lines := NonBlankLines(content);
    if |lines| < 2 {
      return [];
    }
    var headerFields := ParseLine(lines[0]);
    var headers := TrimAll(headerFields);
    data := [];
    for i := 1 to |lines|
      invariant data == DataRows(headers, lines[1..i])
    {
      var currentLine := ParseLine(lines[i]);
      var row := BuildRow(headers, currentLine);
      DataRowsSnoc(headers, lines, i);
      data := data + [row];
    }
    assert lines[1..|lines|] == lines[1..];
  }

  lemma DataRowsSnoc(headers: seq<string>, lines: seq<string>, i: nat)
    requires 1 <= i < |lines|
    ensures DataRows(headers, lines[1..i + 1]) == DataRows(headers, lines[1..i]) + [ZipRow(headers, Fields(lines[i]))]
  {
    assert lines[1..i + 1] == lines[1..i] + [lines[i]];
  }
}
