/** The plain-text number patterns the scrapers run with `re.search(...)` and
    read back with `.group(1)`. Every such pattern has the shape

        lead gap (class+) [\s* trail]

    a literal lead, a gap, one captured run of digits (of digits and commas
    for one Juejin pattern), and optionally whitespace and a literal trail.
    For instance `获得\s*(\d+)\s*次赞同` has lead `获得`, gap `\s*` and trail
    `次赞同`; `(\d+)\s*粉丝` has an empty lead and the trail `粉丝`.

    Because the classes that follow one another are disjoint (whitespace,
    digits, `>`, a trail that starts with a Han character), backtracking
    never changes what a greedy match captures, so the match at a position
    is computed here greedily, and `re.search` is the leftmost position
    with a match. */
module Pattern {
  import opened Wrappers
  import opened Text

  /** What separates the lead of a pattern from its captured group. */
  datatype Gap =
    | Adjacent  // nothing: the group follows the lead at once
    | Spaces    // `\s*`
    | TagRest   // `[^>]*>`: the rest of an HTML start tag

  /** A pattern `lead gap (class+)`, followed by `\s* trail` when trail is not
      empty; the class is `\d` or, when commas holds, `[,\d]`. */
  datatype NumPattern = NumPattern(lead: string, gap: Gap, commas: bool, trail: string)

  predicate IsDigitOrComma(c: char) {
    IsDigit(c) || c == ','
  }

  predicate IsNotGt(c: char) {
    c != '>'
  }

  /** The character class of the captured group. */
  function GroupClass(p: NumPattern): char -> bool {
    if p.commas then IsDigitOrComma else IsDigit
  }

  /** Where the captured group begins when the pattern is tried at i, or None
      when the lead or the gap does not match there. */
  function GroupStart(p: NumPattern, s: string, i: nat): (r: Option<nat>)
    requires i <= |s|
    ensures r.Some? ==> i + |p.lead| <= r.value <= |s| && p.lead <= s[i..]
  {
    if !(p.lead <= s[i..]) then None
    else
      var a := i + |p.lead|;
      match p.gap
      case Adjacent => Some(a)
      case Spaces => Some(a + Span(s[a..], IsSpace))
      case TagRest =>
        var n := Span(s[a..], IsNotGt);
        if a + n < |s| then Some(a + n + 1) else None
  }

  /** Where a group that starts at q ends: the end of the run of class
      characters (greedy `class+`). */
  function GroupEnd(p: NumPattern, s: string, q: nat): (e: nat)
    requires q <= |s|
    ensures q <= e <= |s|
    ensures forall k :: q <= k < e ==> GroupClass(p)(s[k])
    ensures e == |s| || !GroupClass(p)(s[e])
  {
    var n := Span(s[q..], GroupClass(p));
    assert forall k :: q <= k < q + n ==> s[k] == s[q..][k - q];
    q + n
  }

  /** The rest of the pattern, `\s* trail`, matches after position e (always,
      when there is no trail). */
  predicate TrailMatches(p: NumPattern, s: string, e: nat)
    requires e <= |s|
  {
    p.trail == [] || p.trail <= s[e + Span(s[e..], IsSpace)..]
  }

  /** The span [start, end) of the group captured when the pattern is tried
      at position i, or None when it does not match there. */
  function MatchAt(p: NumPattern, s: string, i: nat): (r: Option<(nat, nat)>)
    requires i <= |s|
    ensures r.Some? ==> i <= r.value.0 < r.value.1 <= |s|
    ensures r.Some? ==> forall k :: r.value.0 <= k < r.value.1 ==> GroupClass(p)(s[k])
  {
    match GroupStart(p, s, i)
    case None => None
    case Some(q) =>
      var e := GroupEnd(p, s, q);
      if e > q && TrailMatches(p, s, e) then Some((q, e)) else None
  }

  /** The leftmost position at or after i where the pattern matches. */
  function FirstMatch(p: NumPattern, s: string, i: nat): (r: Option<nat>)
    requires i <= |s|
    ensures r.Some? ==> i <= r.value <= |s| && MatchAt(p, s, r.value).Some?
    ensures forall j :: i <= j <= |s| && (r.None? || j < r.value) ==> MatchAt(p, s, j).None?
    decreases |s| - i
  {
    if MatchAt(p, s, i).Some? then Some(i)
    else if i == |s| then None
    else FirstMatch(p, s, i + 1)
  }

  /** `m = re.search(pattern, s)` and then `m.group(1)` when m is not None:
      the group of the leftmost match. */
  function Search(p: NumPattern, s: string): (r: Option<string>)
    ensures r.None? <==> forall j :: 0 <= j <= |s| ==> MatchAt(p, s, j).None?
    ensures r.Some? ==> r.value != [] && forall k :: 0 <= k < |r.value| ==> GroupClass(p)(r.value[k])
  {
    match FirstMatch(p, s, 0)
    case None => None
    case Some(i) =>
      var (q, e) := MatchAt(p, s, i).value;
      assert forall k :: 0 <= k < e - q ==> s[q..e][k] == s[q + k];
      Some(s[q..e])
  }

  /** The group Search returns is the slice the leftmost match captures. */
  lemma {:induction false} SearchSlice(p: NumPattern, s: string)
    requires Search(p, s).Some?
    ensures var (q, e) := MatchAt(p, s, FirstMatch(p, s, 0).value).value;
            Search(p, s).value == s[q..e] && |Search(p, s).value| == e - q
  {
  }

  /** A pattern whose group is `\d+` captures a non-empty string of digits. */
  lemma {:induction false} SearchDigits(p: NumPattern, s: string)
    requires !p.commas && Search(p, s).Some?
    ensures IsDigitText(Search(p, s).value)
  {
  }

  /** `int(m.group(1))` for a pattern whose group is `\d+`: the number the
      leftmost match captures; `int` cannot raise on it. */
  function SearchInt(p: NumPattern, s: string): (r: Option<nat>)
    requires !p.commas
    ensures r.None? <==> Search(p, s).None?
  {
    match Search(p, s)
    case None => None
    case Some(g) =>
      SearchDigits(p, s);
      Some(DecimalValue(g))
  }

  /** SearchInt is `int()` of the captured digits. */
  lemma {:induction false} SearchIntValue(p: NumPattern, s: string)
    requires !p.commas && Search(p, s).Some?
    ensures PyInt(Search(p, s).value) == Some(SearchInt(p, s).value as int)
  {
    SearchDigits(p, s);
    PyIntOfDigits(Search(p, s).value);
  }

  /** A pattern whose lead does not occur in the text finds nothing. */
  lemma {:induction false} NoLeadNoMatch(p: NumPattern, s: string)
    requires !Contains(s, p.lead)
    ensures Search(p, s).None?
  {
    forall j | 0 <= j <= |s| ensures MatchAt(p, s, j).None? {
      if p.lead <= s[j..] {
        assert false;
      }
    }
  }

  /** For a pattern that starts with its group, `(\d+)\s*label`, the match re.search
      returns begins where a run of digits begins: the captured number is the whole
      run that stands before the optional whitespace and the label, never its tail. */
  lemma {:induction false} GroupIsWholeRun(p: NumPattern, s: string)
    requires p.lead == [] && p.gap == Adjacent
    requires FirstMatch(p, s, 0).Some?
    ensures var i := FirstMatch(p, s, 0).value;
            i == 0 || !GroupClass(p)(s[i - 1])
  {
    var i := FirstMatch(p, s, 0).value;
    if i > 0 && GroupClass(p)(s[i - 1]) {
      MatchExtendsLeft(p, s, i);
      assert false;
    }
  }

  /** A match of a group-first pattern at i extends to the group character
      just before i. */
  lemma {:induction false} MatchExtendsLeft(p: NumPattern, s: string, i: nat)
    requires p.lead == [] && p.gap == Adjacent
    requires 0 < i <= |s| && GroupClass(p)(s[i - 1])
    requires MatchAt(p, s, i).Some?
    ensures MatchAt(p, s, i - 1).Some?
  {
    assert [] <= s[i..] && [] <= s[i - 1..];
    assert GroupStart(p, s, i) == Some(i);
    assert GroupStart(p, s, i - 1) == Some(i - 1);
    SpanStep(s, i - 1, GroupClass(p));
    assert GroupEnd(p, s, i - 1) == GroupEnd(p, s, i);
  }

  /** A span that starts on a matching character is one longer than the span
      after it. */
  lemma {:induction false} SpanStep(s: string, j: nat, cls: char -> bool)
    requires j < |s| && cls(s[j])
    ensures Span(s[j..], cls) == 1 + Span(s[j + 1..], cls)
  {
    assert s[j..][1..] == s[j + 1..];
  }
}
