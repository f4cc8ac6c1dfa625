/**
 * The column-mapping step (components/StepMap.tsx): when the step opens, every CSV header is
 * lower-cased and tested against an ordered chain of keywords, and the first test that holds
 * decides which destination field the header is guessed for; a later header guessed for the
 * same field replaces an earlier one. The user can then pick any header for any field, and
 * the step lets the import go on only when the title and the description are mapped.
 */
module StepMap {
  import opened Wrappers
  import opened Text
  import opened Types

  /** `String.prototype.toLowerCase` as far as the keyword tests can tell: ASCII capitals and
      the Kelvin sign. The one other character whose lower case holds an ASCII letter, U+0130,
      lower-cases to `i` and a combining dot, and no keyword ends in `i`, so leaving it as it is
      gives the same answers. */
  function LowerChar(c: char): char {
    if 'A' <= c <= 'Z' then ((c as int) + 32) as char
    else if c == '\U{212A}' then 'k'
    else c
  }

  /** `h.toLowerCase()`: ASCII capitals become their small letters, the Kelvin sign becomes
      `k`, every other character is kept, and no ASCII capital is left. */
  function Lower(s: string): (r: string)
    ensures |r| == |s|
    ensures forall k :: 0 <= k < |s| && 'A' <= s[k] <= 'Z' ==> r[k] == ((s[k] as int) + 32) as char
    ensures forall k :: 0 <= k < |s| && s[k] == '\U{212A}' ==> r[k] == 'k'
    ensures forall k :: 0 <= k < |s| && !('A' <= s[k] <= 'Z') && s[k] != '\U{212A}' ==> r[k] == s[k]
    ensures forall k :: 0 <= k < |r| ==> !('A' <= r[k] <= 'Z')
  {
    seq(|s|, k requires 0 <= k < |s| => LowerChar(s[k]))
  }

  /** Two characters that differ at most in ASCII case. */
  predicate SameIgnoringCase(a: char, b: char) {
    a == b || ('A' <= a <= 'Z' && b as int == a as int + 32) || ('A' <= b <= 'Z' && a as int == b as int + 32)
  }

  /** The auto-guess ignores ASCII case: two headers that differ only in the case of their
      letters are guessed for the same field. */
  lemma GuessIgnoresCase(a: string, b: string)
    requires |a| == |b| && forall k :: 0 <= k < |a| ==> SameIgnoringCase(a[k], b[k])
    ensures Guess(a) == Guess(b)
  {
    assert Lower(a) == Lower(b);
  }

  /** A header written in capitals is recognised like its lower-case form. */
  lemma GuessCapitals()
    ensures Guess("TITLE") == Some(Title) && Guess("Tag") == Some(TagLine) && Guess("URL") == Some(ExternalUrl)
  {
    assert Lower("TITLE") == "title" && StartsWith("title", "title");
    assert Lower("Tag") == "tag" && StartsWith("tag", "tag");
    assert Lower("URL") == "url" && StartsWith("url", "url");
    assert !Contains("url", "ver") && !Contains("url", "tag");
  }

  /** The field the auto-guess assigns a header to: the first keyword test that holds wins. */
  function Guess(h: string): Option<XFField> {
    var lower := Lower(h);
    if Contains(lower, "title") || Contains(lower, "name") then Some(Title)
    else if Contains(lower, "tag") || Contains(lower, "short") then Some(TagLine)
    else if Contains(lower, "desc") || Contains(lower, "content") then Some(Description)
    else if Contains(lower, "ver") then Some(Version)
    else if Contains(lower, "url") || Contains(lower, "link") then Some(ExternalUrl)
    else None
  }

  /** A string that contains a non-empty part is not empty. */
  lemma {:induction false} ContainsNonEmpty(s: string, part: string)
    requires part != [] && Contains(s, part)
    ensures s != []
  {
  }

  /** A guess is always for one of the five mapped fields, and only a non-empty header (one
      that holds a keyword) is ever guessed for anything. */
  lemma GuessShape(h: string)
    ensures Guess(h).Some? ==> IsMapped(Guess(h).value)
    ensures Guess(h).Some? ==> h != []
  {
    var lower := Lower(h);
    if Guess(h).Some? {
      if Contains(lower, "title") { ContainsNonEmpty(lower, "title"); }
      else if Contains(lower, "name") { ContainsNonEmpty(lower, "name"); }
      else if Contains(lower, "tag") { ContainsNonEmpty(lower, "tag"); }
      else if Contains(lower, "short") { ContainsNonEmpty(lower, "short"); }
      else if Contains(lower, "desc") { ContainsNonEmpty(lower, "desc"); }
      else if Contains(lower, "content") { ContainsNonEmpty(lower, "content"); }
      else if Contains(lower, "ver") { ContainsNonEmpty(lower, "ver"); }
      else if Contains(lower, "url") { ContainsNonEmpty(lower, "url"); }
      else { ContainsNonEmpty(lower, "link"); }
    }
  }

  /** The order of the tests decides: a header naming the title is a title even when it also
      mentions a version or a link, and a tag or description header is never taken for a
      version or a link. */
  lemma GuessPrecedence(h: string)
    ensures Contains(Lower(h), "name") ==> Guess(h) == Some(Title)
    ensures Guess(h) == Some(Version) ==> !Contains(Lower(h), "title") && !Contains(Lower(h), "desc")
    ensures Guess(h) == Some(ExternalUrl) ==> !Contains(Lower(h), "ver")
  {
  }

  /** The last header of `headers` guessed for `f`, if any. */
  function LastGuess(headers: seq<string>, f: XFField): Option<string>
  {
    if headers == [] then None
    else if Guess(headers[|headers| - 1]) == Some(f) then Some(headers[|headers| - 1])
    else LastGuess(headers[..|headers| - 1], f)
  }

  /** `LastGuess` finds a header guessed for `f` that no later header is also guessed for, and
      finds nothing exactly when no header is guessed for `f`. */
  lemma {:induction false} LastGuessFinds(headers: seq<string>, f: XFField)
    ensures LastGuess(headers, f).Some? ==>
              exists i :: 0 <= i < |headers| && headers[i] == LastGuess(headers, f).value
                          && Guess(headers[i]) == Some(f)
                          && forall j :: i < j < |headers| ==> Guess(headers[j]) != Some(f)
    ensures LastGuess(headers, f).None? <==> forall i :: 0 <= i < |headers| ==> Guess(headers[i]) != Some(f)
  {
    if headers != [] {
      var n := |headers| - 1;
      var init := headers[..n];
      LastGuessFinds(init, f);
      if Guess(headers[n]) != Some(f) {
        assert forall i :: 0 <= i < n ==> init[i] == headers[i];
        if LastGuess(headers, f).Some? {
          var i :| 0 <= i < n && init[i] == LastGuess(init, f).value && Guess(init[i]) == Some(f)
                   && forall j :: i < j < n ==> Guess(init[j]) != Some(f);
          assert forall j :: i < j < |headers| ==> Guess(headers[j]) != Some(f);
        }
      }
    }
  }

  /** The mapping after the auto-guess: each field holds the last header guessed for it, or
      keeps the value it had. */
  function Guessed(m: FieldMapping, headers: seq<string>): FieldMapping {
    FieldMapping(
      LastGuess(headers, Title).GetOr(m.title),
      LastGuess(headers, TagLine).GetOr(m.tagLine),
      LastGuess(headers, Description).GetOr(m.description),
      LastGuess(headers, Version).GetOr(m.version),
      LastGuess(headers, ExternalUrl).GetOr(m.externalUrl))
  }

  /** The auto-guess effect that runs when the step opens: a copy of the current mapping, one
      field overwritten per header whose lower-cased name passes a keyword test. */
  method AutoGuess(localMapping: FieldMapping, headers: seq<string>) returns (newMapping: FieldMapping)
    ensures newMapping == Guessed(localMapping, headers)
  {
    newMapping := localMapping;
    for i := 0 to |headers|
      invariant newMapping == Guessed(localMapping, headers[..i])
    {
      var h := headers[i];
      var lower := Lower(h);
      if Contains(lower, "title") || Contains(lower, "name") {
        newMapping := newMapping.(title := h);
      } else if Contains(lower, "tag") || Contains(lower, "short") {
        newMapping := newMapping.(tagLine := h);
      } else if Contains(lower, "desc") || Contains(lower, "content") {
        newMapping := newMapping.(description := h);
      } else if Contains(lower, "ver") {
        newMapping := newMapping.(version := h);
      } else if Contains(lower, "url") || Contains(lower, "link") {
        newMapping := newMapping.(externalUrl := h);
      }
      assert headers[..i + 1][..i] == headers[..i];
    }
    assert headers[..|headers|] == headers;
  }

  /** What the auto-guess writes is one of the headers, guessed for that very field, and no
      later header is guessed for it; a field no header is guessed for keeps its value. */
  lemma GuessedFields(m: FieldMapping, headers: seq<string>, f: XFField)
    requires IsMapped(f)
    ensures Get(Guessed(m, headers), f) != Get(m, f) ==>
              exists i :: 0 <= i < |headers| && headers[i] == Get(Guessed(m, headers), f)
                          && Guess(headers[i]) == Some(f)
                          && forall j :: i < j < |headers| ==> Guess(headers[j]) != Some(f)
    ensures (forall i :: 0 <= i < |headers| ==> Guess(headers[i]) != Some(f)) ==>
              Get(Guessed(m, headers), f) == Get(m, f)
  {
    LastGuessFinds(headers, f);
  }

  /** When the headers hold a title column and a description column, the guessed mapping is
      valid, whatever the mapping was before. */
  lemma GuessedValid(m: FieldMapping, headers: seq<string>, t: nat, d: nat)
    requires t < |headers| && Guess(headers[t]) == Some(Title)
    requires d < |headers| && Guess(headers[d]) == Some(Description)
    ensures IsValid(Guessed(m, headers))
  {
    LastGuessFinds(headers, Title);
    LastGuessFinds(headers, Description);
    var ti :| 0 <= ti < |headers| && headers[ti] == LastGuess(headers, Title).value
              && Guess(headers[ti]) == Some(Title)
              && forall j :: ti < j < |headers| ==> Guess(headers[j]) != Some(Title);
    var di :| 0 <= di < |headers| && headers[di] == LastGuess(headers, Description).value
              && Guess(headers[di]) == Some(Description)
              && forall j :: di < j < |headers| ==> Guess(headers[j]) != Some(Description);
    GuessShape(headers[ti]);
    GuessShape(headers[di]);
  }

  /** The user picks `header` for `field`: a copy of the mapping with that one entry replaced.
      `Price` and `Currency` have no entry in a mapping, so picking for them changes nothing
      the importer reads. */
  function HandleChange(m: FieldMapping, field: XFField, header: string): (updated: FieldMapping)
    ensures IsMapped(field) ==> Get(updated, field) == header
    ensures forall g :: g != field ==> Get(updated, g) == Get(m, g)
  {
    match field
    case Title => m.(title := header)
    case TagLine => m.(tagLine := header)
    case Description => m.(description := header)
    case Version => m.(version := header)
    case ExternalUrl => m.(externalUrl := header)
    case Price => m
    case Currency => m
  }

  /** The mapping lets the import go on: the title and the description are mapped. */
  predicate IsValid(m: FieldMapping) {
    Get(m, Title) != "" && Get(m, Description) != ""
  }

  /** Only the title and the description matter for validity: the tag line, although the
      form marks it required, the version and the link can be mapped or not. */
  lemma ValidityIgnoresOptional(m: FieldMapping, field: XFField, header: string)
    requires field != Title && field != Description
    ensures IsValid(HandleChange(m, field, header)) == IsValid(m)
  {
  }

  /** Clearing the title or the description makes the mapping invalid; picking a header for
      one of them when the other is mapped makes it valid. */
  lemma ValidityOfRequired(m: FieldMapping, field: XFField, header: string)
    requires field == Title || field == Description
    ensures header == "" ==> !IsValid(HandleChange(m, field, header))
    ensures header != "" && Get(m, if field == Title then Description else Title) != "" ==>
              IsValid(HandleChange(m, field, header))
  {
  }
}
