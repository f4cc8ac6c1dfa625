/**
 * What the CSV tokeniser reads back. Fields written by `WriteLine` come back unchanged: a
 * field holding a quote, a comma or a line feed, or white space at its ends, is wrapped in
 * quotes with every inner quote doubled (the quoting of section 2 of RFC 4180), and so is an
 * empty first field. The tokeniser is not an RFC 4180 reader, and this writer keeps clear of
 * the places where it departs from one:
 *  - an unquoted field is trimmed, so white space at its ends survives only inside quotes;
 *  - a line that begins with a comma loses its empty first field (`,a` gives `["a"]`), which
 *    `LeadingEmptyFieldDropped` pins down;
 *  - text after a closing quote is dropped (`"a"x,b` gives `["a", "b"]`);
 *  - a quote that never closes gives an empty field (`"abc,d` gives `["", "d"]`);
 *  - white space before an opening quote empties the field (`a, "b" ,c` gives
 *    `["a", "", "c"]`);
 *  - `parseCSV` splits the text into lines before tokenising, so a quoted line break never
 *    reaches the tokeniser inside one field.
 */
module CsvRoundTrip {
  import opened Wrappers
  import opened Text
  import opened CsvParser


  /** Every quote doubled. */
  function Escape(x: string): (r: string)
    ensures |r| >= |x|
  {
    if x == [] then [] else (if x[0] == '"' then "\"\"" else [x[0]]) + Escape(x[1..])
  }

  /** A field wrapped in quotes, as section 2 of RFC 4180 writes it. */
  function Quote(x: string): string {
    "\"" + Escape(x) + "\""
  }

  /** A field that can be written bare: no quote, no separator, no white space at its ends. */
  predicate IsPlain(x: string) {
    && (forall k :: 0 <= k < |x| ==> x[k] != '"' && !IsSep(x[k]))
    && (x != [] ==> !IsJsSpace(x[0]) && !IsJsSpace(x[|x| - 1]))
  }

  /** A field written bare when it can be, and quoted otherwise. */
  function Cell(x: string): string {
    if IsPlain(x) then x else Quote(x)
  }

  /** The first field is quoted also when it is empty, so that the line does not begin with
      a comma. */
  function FirstCell(x: string): string {
    if x == [] then Quote(x) else Cell(x)
  }

  /** `,` followed by each field's cell. */
  function TailCells(xs: seq<string>): string {
    if xs == [] then [] else "," + Cell(xs[0]) + TailCells(xs[1..])
  }

  /** A line holding the given fields. */
  function WriteLine(xs: seq<string>): string
    requires xs != []
  {
    FirstCell(xs[0]) + TailCells(xs[1..])
  }

  lemma {:induction false} UnescapeEscape(x: string)
    ensures Unescape(Escape(x)) == x
  {
    if x != [] {
      UnescapeEscape(x[1..]);
      var rest := Escape(x[1..]);
      if x[0] == '"' {
        assert Escape(x) == "\"\"" + rest;
        assert Escape(x)[2..] == rest;
      } else {
        assert Escape(x) == [x[0]] + rest;
        assert Escape(x)[1..] == rest;
      }
    }
  }

  /** `t` occurs in `s` at position `g`, character by character. */
  predicate At(s: string, g: nat, t: string)
    decreases |t|
  {
    if t == [] then g <= |s| else g < |s| && s[g] == t[0] && At(s, g + 1, t[1..])
  }

  lemma {:induction false} AtBound(s: string, g: nat, t: string)
    requires At(s, g, t)
    ensures g + |t| <= |s|
    decreases |t|
  {
    if t != [] {
      AtBound(s, g + 1, t[1..]);
    }
  }

  lemma {:induction false} AtSplit(s: string, g: nat, a: string, b: string)
    requires At(s, g, a + b)
    ensures At(s, g, a) && At(s, g + |a|, b)
    decreases |a|
  {
    if a == [] {
      assert a + b == b;
      AtBound(s, g, b);
    } else {
      assert (a + b)[0] == a[0] && (a + b)[1..] == a[1..] + b;
      AtSplit(s, g + 1, a[1..], b);
    }
  }

  lemma {:induction false} AtIndex(s: string, g: nat, t: string, k: nat)
    requires At(s, g, t) && k < |t|
    ensures g + k < |s| && s[g + k] == t[k]
    decreases k
  {
    if k > 0 {
      AtIndex(s, g + 1, t[1..], k - 1);
    }
  }

  lemma AtSlice(s: string, g: nat, t: string)
    requires At(s, g, t)
    ensures g + |t| <= |s| && s[g..g + |t|] == t
  {
    AtBound(s, g, t);
    forall k | 0 <= k < |t| ensures s[g..g + |t|][k] == t[k] {
      AtIndex(s, g, t, k);
    }
  }

  lemma {:induction false} AtSelf(s: string, g: nat)
    requires g <= |s|
    ensures At(s, g, s[g..])
    decreases |s| - g
  {
    if g < |s| {
      assert s[g..][1..] == s[g + 1..];
      AtSelf(s, g + 1);
    }
  }

  /** Inside a quoted field written by `Quote`, the scan skips every doubled quote and closes
      on the final quote, whatever it had remembered before. */
  lemma {:induction false} QuoteCloseEscaped(s: string, p: nat, x: string, lastPair: Option<nat>)
    requires At(s, p, Escape(x) + "\"")
    requires p + |Escape(x)| + 1 == |s| || (p + |Escape(x)| + 1 < |s| && s[p + |Escape(x)| + 1] != '"')
    requires lastPair.Some? ==> lastPair.value < p
    ensures QuoteClose(s, p, lastPair) == Some(p + |Escape(x)|)
    decreases |x|
  {
    if x == [] {
      AtIndex(s, p, Escape(x) + "\"", 0);
    } else {
      var rest := Escape(x[1..]);
      if x[0] == '"' {
        assert Escape(x) + "\"" == "\"\"" + (rest + "\"");
        AtSplit(s, p, "\"\"", rest + "\"");
        AtIndex(s, p, "\"\"", 0);
        AtIndex(s, p, "\"\"", 1);
        QuoteCloseEscaped(s, p + 2, x[1..], Some(p));
      } else {
        assert Escape(x) + "\"" == [x[0]] + (rest + "\"");
        AtSplit(s, p, [x[0]], rest + "\"");
        AtIndex(s, p, [x[0]], 0);
        QuoteCloseEscaped(s, p + 1, x[1..], lastPair);
      }
    }
  }

  /** A quoted cell followed by a comma or the end is one whole group. */
  lemma QuotedGroupEnd(s: string, g: nat, x: string)
    requires At(s, g, Quote(x))
    requires g + |Quote(x)| == |s| || (g + |Quote(x)| < |s| && s[g + |Quote(x)|] == ',')
    ensures GroupEnd(s, g) == g + |Quote(x)|
  {
    assert Quote(x) == "\"" + (Escape(x) + "\"");
    AtSplit(s, g, "\"", Escape(x) + "\"");
    AtIndex(s, g, "\"", 0);
    QuoteCloseEscaped(s, g + 1, x, None);
  }

  /** A bare cell followed by a comma or the end is one whole group. */
  lemma PlainGroupEnd(s: string, g: nat, x: string)
    requires IsPlain(x)
    requires At(s, g, x)
    requires g + |x| == |s| || (g + |x| < |s| && s[g + |x|] == ',')
    ensures GroupEnd(s, g) == g + |x|
  {
    if x != [] {
      AtIndex(s, g, x, 0);
    }
    var e := PlainEnd(s, g);
    PlainEndShape(s, g);
    assert GroupEnd(s, g) == e;
    if e < g + |x| {
      AtIndex(s, g, x, e - g);
    }
  }

  /** Cleaning a written cell gives the field back. */
  lemma CleanCell(x: string)
    ensures CleanField(Quote(x)) == x
    ensures IsPlain(x) ==> CleanField(x) == x
    ensures CleanField(Cell(x)) == x
  {
    var q := Quote(x);
    assert q[0] == '"' && q[|q| - 1] == '"';
    TrimShape(q);
    assert SliceInner(q) == Escape(x);
    UnescapeEscape(x);
    if IsPlain(x) && x != [] {
      TrimShape(x);
    }
  }

  /** The group for a written cell spans the cell. */
  lemma CellGroup(s: string, g: nat, x: string, c: string)
    requires c == Cell(x) || (c == Quote(x) && x == [])
    requires At(s, g, c)
    requires g + |c| == |s| || (g + |c| < |s| && s[g + |c|] == ',')
    ensures GroupEnd(s, g) == g + |c|
    ensures s[g..g + |c|] == c
  {
    if c == x && IsPlain(x) {
      PlainGroupEnd(s, g, x);
    } else {
      assert c == Quote(x);
      QuotedGroupEnd(s, g, x);
    }
    AtSlice(s, g, c);
  }

  /** A comma, a cell and the rest of a line, lying at `k`, lie each at its own place. */
  lemma CommaSplit(s: string, k: nat, c: string, rest: string)
    requires At(s, k, "," + c + rest)
    ensures s[k] == ','
    ensures At(s, k + 1, c) && At(s, k + 1 + |c|, rest)
  {
    assert "," + c + rest == "," + (c + rest);
    AtSplit(s, k, ",", c + rest);
    AtIndex(s, k, ",", 0);
    AtSplit(s, k + 1, c, rest);
  }

  /** What follows a cell in a written tail is a comma or the end. */
  lemma TailCellsStart(s: string, e: nat, xs: seq<string>)
    requires At(s, e, TailCells(xs)) && e + |TailCells(xs)| == |s|
    ensures e == |s| || (e < |s| && s[e] == ',')
  {
    if xs != [] {
      CommaSplit(s, e, Cell(xs[0]), TailCells(xs[1..]));
    }
  }

  /** The cells of the fields, one per field. */
  function Cells(xs: seq<string>): (cells: seq<string>)
    ensures |cells| == |xs|
  {
    if xs == [] then [] else [Cell(xs[0])] + Cells(xs[1..])
  }

  lemma TailUnfold(s: string, k: nat, xs: seq<string>)
    requires xs != []
    requires At(s, k, TailCells(xs))
    ensures At(s, k, "," + Cell(xs[0]) + TailCells(xs[1..]))
    ensures |TailCells(xs)| == 1 + |Cell(xs[0])| + |TailCells(xs[1..])|
  {
  }

  /** A written tail begins with a comma, followed by its first cell. */
  lemma TailHead(s: string, k: nat, xs: seq<string>)
    requires xs != []
    requires At(s, k, TailCells(xs))
    ensures k < |s| && s[k] == ','
    ensures At(s, k + 1, Cell(xs[0]))
  {
    TailUnfold(s, k, xs);
    CommaSplit(s, k, Cell(xs[0]), TailCells(xs[1..]));
  }

  /** The rest of a written tail follows its first cell, and begins with a comma or is empty. */
  lemma TailRest(s: string, k: nat, xs: seq<string>, e: nat)
    requires xs != []
    requires At(s, k, TailCells(xs)) && k + |TailCells(xs)| == |s|
    requires e == k + 1 + |Cell(xs[0])|
    ensures At(s, e, TailCells(xs[1..])) && e + |TailCells(xs[1..])| == |s|
    ensures e == |s| || (e < |s| && s[e] == ',')
  {
    TailUnfold(s, k, xs);
    CommaSplit(s, k, Cell(xs[0]), TailCells(xs[1..]));
    TailCellsStart(s, e, xs[1..]);
  }

  /** Standing on the comma before a written cell, the loop takes the cell as its group. */
  lemma CellGroupsAtSep(s: string, k: nat, x: string, e: nat)
    requires k < |s| && s[k] == ','
    requires At(s, k + 1, Cell(x))
    requires e == k + 1 + |Cell(x)|
    requires e == |s| || (e < |s| && s[e] == ',')
    ensures Groups(s, k) == [Cell(x)] + Groups(s, e)
  {
    CellGroup(s, k + 1, x, Cell(x));
    GroupsAtSep(s, k, e);
  }

  /** Once `lastIndex` stands on the comma before the written cells, the loop takes exactly
      the cells as its groups. */
  lemma {:induction false} TailGroups(s: string, k: nat, xs: seq<string>)
    requires At(s, k, TailCells(xs)) && k + |TailCells(xs)| == |s|
    requires k >= 1 || xs != []
    ensures Groups(s, k) == Cells(xs)
    decreases |xs|
  {
    if xs != [] {
      var c := Cell(xs[0]);
      var e := k + 1 + |c|;
      TailHead(s, k, xs);
      TailRest(s, k, xs, e);
      CellGroupsAtSep(s, k, xs[0], e);
      TailGroups(s, e, xs[1..]);
      assert Groups(s, k) == [c] + Cells(xs[1..]);
    }
  }

  lemma CleanAllCons(group: string, groups: seq<string>)
    ensures CleanAll([group] + groups) == [CleanField(group)] + CleanAll(groups)
  {
  }

  /** Cleaning the cells of the fields gives the fields. */
  lemma {:induction false} CleanCells(xs: seq<string>)
    ensures CleanAll(Cells(xs)) == xs
  {
    if xs != [] {
      CleanAllCons(Cell(xs[0]), Cells(xs[1..]));
      CleanCell(xs[0]);
      CleanCells(xs[1..]);
    }
  }

  /** The first cell of a written line starts it, and the written tail follows the cell. */
  lemma FirstSplit(xs: seq<string>, s: string, c: string)
    requires xs != [] && s == WriteLine(xs) && c == FirstCell(xs[0])
    ensures At(s, 0, c) && c != [] && !IsSep(s[0])
    ensures |c| == |s| || (|c| < |s| && s[|c|] == ',')
    ensures At(s, |c|, TailCells(xs[1..])) && |c| + |TailCells(xs[1..])| == |s|
  {
    var rest := TailCells(xs[1..]);
    AtSelf(s, 0);
    assert s[0..] == c + rest;
    AtSplit(s, 0, c, rest);
    TailCellsStart(s, |c|, xs[1..]);
    AtIndex(s, 0, c, 0);
  }

  /** The first turn of the loop over a written line takes the first cell as its group. */
  lemma FirstStep(xs: seq<string>, s: string, c: string)
    requires xs != [] && s == WriteLine(xs) && c == FirstCell(xs[0])
    ensures Groups(s, 0) == [c] + Groups(s, |c|)
    ensures At(s, |c|, TailCells(xs[1..])) && |c| + |TailCells(xs[1..])| == |s|
  {
    FirstSplit(xs, s, c);
    CellGroup(s, 0, xs[0], c);
    GroupsAtStart(s, |c|);
  }

  /** Cleaning the cells of a written line gives the fields. */
  lemma CleanWritten(xs: seq<string>)
    requires xs != []
    ensures CleanAll([FirstCell(xs[0])] + Cells(xs[1..])) == xs
  {
    CleanAllCons(FirstCell(xs[0]), Cells(xs[1..]));
    CleanCell(xs[0]);
    CleanCells(xs[1..]);
  }

  /** Any non-empty list of fields, written with `WriteLine`, tokenises back to itself:
      quoted commas do not split, doubled quotes are undone. */
  lemma ParseWriteLine(xs: seq<string>)
    requires xs != []
    ensures Fields(WriteLine(xs)) == xs
  {
    var s := WriteLine(xs);
    var c := FirstCell(xs[0]);
    FirstStep(xs, s, c);
    TailGroups(s, |c|, xs[1..]);
    CleanWritten(xs);
  }

  /** The quirk of a line that begins with a comma: written naively, the fields `[""] + xs`
      read back as `xs` alone, because the leading comma is taken as the prefix of the first
      match. In particular `,a` gives `["a"]`. */
  lemma LeadingEmptyFieldDropped(xs: seq<string>)
    requires xs != []
    ensures Fields(TailCells(xs)) == xs
    ensures Fields(TailCells(xs)) != [""] + xs
  {
    var s := TailCells(xs);
    AtSelf(s, 0);
    assert s[0..] == s;
    TailGroups(s, 0, xs);
    CleanCells(xs);
  }

  /** `,a` tokenises to `["a"]`. */
  lemma CommaThenField()
    ensures Fields(",a") == ["a"]
  {
    assert IsPlain("a");
    assert TailCells(["a"]) == ",a";
    LeadingEmptyFieldDropped(["a"]);
  }
}
