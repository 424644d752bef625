/** The Python string operations the scrapers and readers rely on, over
    `string` (a sequence of Unicode scalar values): `\d`, `\s`/`str.isspace`,
    `str.strip`, `re.sub(r'[^\d]', '', s)`, `re.findall(r'\d+', s)[0]`,
    `int(s)`, `str.isdigit`, `str(n)`, `str.lower`, `in`, `str.split` and
    `str.join`. */
module Text {
  import opened Wrappers

  // ---------------------------------------------------------------------------
  // Character classes
  // ---------------------------------------------------------------------------

  /** A decimal digit as `\d` matches it (ASCII digits only in this model). */
  predicate IsDigit(c: char) {
    '0' <= c <= '9'
  }

  /** Python's `str.isspace`, which is both what `str.strip()` removes and
      what the regex class `\s` matches in a str pattern. */
  predicate IsSpace(c: char) {
    c == ' ' || '\t' <= c <= '\r' || '\U{1C}' <= c <= '\U{1F}' ||
    c == '\U{85}' || c == '\U{A0}' || c == '\U{1680}' ||
    '\U{2000}' <= c <= '\U{200A}' || c == '\U{2028}' || c == '\U{2029}' ||
    c == '\U{202F}' || c == '\U{205F}' || c == '\U{3000}'
  }

  /** Every character of s is a digit (the empty string included). */
  predicate IsDigits(s: string) {
    forall i :: 0 <= i < |s| ==> IsDigit(s[i])
  }

  /** Some character of s is a digit. */
  predicate HasDigit(s: string) {
    exists i :: 0 <= i < |s| && IsDigit(s[i])
  }

  /** Python's `str.isdigit()`: non-empty and made of digits only. */
  predicate IsDigitText(s: string) {
    s != [] && IsDigits(s)
  }

  /** A string of digits holds no other character. */
  lemma {:induction false} DigitsExclude(s: string, c: char)
    requires IsDigits(s) && !IsDigit(c)
    ensures c !in s
  {
  }

  lemma {:induction false} DigitIsNotSpace(c: char)
    ensures IsDigit(c) ==> !IsSpace(c)
  {
  }

  // ---------------------------------------------------------------------------
  // Spans, strip
  // ---------------------------------------------------------------------------

  /** The length of the longest prefix of s whose characters all satisfy p. */
  function Span(s: string, p: char -> bool): (n: nat)
    ensures n <= |s|
    ensures forall i :: 0 <= i < n ==> p(s[i])
    ensures n == |s| || !p(s[n])
  {
    if s == [] || !p(s[0]) then 0 else 1 + Span(s[1..], p)
  }

  /** The length of the longest suffix of s whose characters all satisfy p. */
  function SpanEnd(s: string, p: char -> bool): (n: nat)
    ensures n <= |s|
    ensures forall i :: |s| - n <= i < |s| ==> p(s[i])
    ensures n == |s| || !p(s[|s| - 1 - n])
  {
    if s == [] || !p(s[|s| - 1]) then 0 else 1 + SpanEnd(s[..|s| - 1], p)
  }

  /** Python's `s.strip()`: s without its leading and trailing whitespace. */
  function Strip(s: string): (r: string)
    ensures |r| <= |s|
    ensures r == [] || (!IsSpace(r[0]) && !IsSpace(r[|r| - 1]))
    ensures r == [] <==> forall i :: 0 <= i < |s| ==> IsSpace(s[i])
    ensures s != [] && !IsSpace(s[0]) && !IsSpace(s[|s| - 1]) ==> r == s
  {
    var t := s[Span(s, IsSpace)..];
    var r := t[..|t| - SpanEnd(t, IsSpace)];
    r
  }

  /** Stripping twice is stripping once, so `int(s.strip())` is `int(s)`. The
      second half holds by the definition of PyInt, which strips first; it is
      stated because the scrapers strip before they convert. */
  lemma {:induction false} StripTwice(s: string)
    ensures Strip(Strip(s)) == Strip(s)
    ensures PyInt(Strip(s)) == PyInt(s)
  {
    StripIdempotent(s);
  }

  lemma {:induction false} StripIdempotent(s: string)
    ensures Strip(Strip(s)) == Strip(s)
  {
    var t := Strip(s);
    if t == [] {
      assert Strip(t) == [];
    } else {
      assert Strip(t) == t;
    }
  }

  /** A string of digits is its own strip. */
  lemma {:induction false} StripDigits(s: string)
    requires IsDigitText(s)
    ensures Strip(s) == s
  {
    DigitIsNotSpace(s[0]);
    DigitIsNotSpace(s[|s| - 1]);
  }

  // ---------------------------------------------------------------------------
  // Digits: re.sub(r'[^\d]', '', s) and re.findall(r'\d+', s)[0]
  // ---------------------------------------------------------------------------

  /** `re.sub(r'[^\d]', '', s)`: the digits of s, in order. */
  function DigitsOnly(s: string): (r: string)
    ensures IsDigits(r)
    ensures |r| <= |s|
    ensures r == [] <==> !HasDigit(s)
  {
    if s == [] then []
    else
      var rest := DigitsOnly(s[1..]);
      assert HasDigit(s) <==> IsDigit(s[0]) || HasDigit(s[1..]) by {
        if HasDigit(s[1..]) {
          var i :| 0 <= i < |s[1..]| && IsDigit(s[1..][i]);
          assert IsDigit(s[i + 1]);
        }
        if HasDigit(s) && !IsDigit(s[0]) {
          var i :| 0 <= i < |s| && IsDigit(s[i]);
          assert s[1..][i - 1] == s[i];
        }
      }
      (if IsDigit(s[0]) then [s[0]] else []) + rest
  }

  /** Removing non-digits distributes over concatenation. */
  lemma {:induction false} DigitsOnlyConcat(a: string, b: string)
    ensures DigitsOnly(a + b) == DigitsOnly(a) + DigitsOnly(b)
  {
    if a == [] {
      assert a + b == b;
    } else {
      var head := if IsDigit(a[0]) then [a[0]] else [];
      assert (a + b)[0] == a[0] && (a + b)[1..] == a[1..] + b;
      assert DigitsOnly(a + b) == head + DigitsOnly(a[1..] + b);
      DigitsOnlyConcat(a[1..], b);
      assert DigitsOnly(a) == head + DigitsOnly(a[1..]);
    }
  }

  /** A string made only of digits is left as it is. */
  lemma {:induction false} DigitsOnlyOfDigits(s: string)
    requires IsDigits(s)
    ensures DigitsOnly(s) == s
  {
    if s != [] {
      DigitsOnlyOfDigits(s[1..]);
    }
  }

  /** Stripping non-digits twice is the same as once. */
  lemma {:induction false} DigitsOnlyIdempotent(s: string)
    ensures DigitsOnly(DigitsOnly(s)) == DigitsOnly(s)
  {
    DigitsOnlyOfDigits(DigitsOnly(s));
  }

  /** The position of the first digit of s. */
  function FirstDigit(s: string): (r: Option<nat>)
    ensures r.None? <==> !HasDigit(s)
    ensures r.Some? ==> r.value < |s| && IsDigit(s[r.value])
    ensures r.Some? ==> forall i :: 0 <= i < r.value ==> !IsDigit(s[i])
  {
    if s == [] then None
    else if IsDigit(s[0]) then Some(0)
    else
      match FirstDigit(s[1..])
      case None =>
        None
      case Some(k) =>
        assert forall i :: 0 <= i < k + 1 ==> !IsDigit(s[i]) by {
          forall i | 0 < i < k + 1 ensures !IsDigit(s[i]) {
            assert s[1..][i - 1] == s[i];
          }
        }
        Some(k + 1)
  }

  /** `re.findall(r'\d+', s)[0]` when there is a match: the first maximal
      run of digits in s. */
  function FirstDigitRun(s: string): (r: Option<string>)
    ensures r.None? <==> !HasDigit(s)
    ensures r.Some? ==> IsDigitText(r.value)
  {
    match FirstDigit(s)
    case None => None
    case Some(p) => Some(s[p..p + Span(s[p..], IsDigit)])
  }

  /** The run FirstDigitRun returns starts at the first digit of s and ends
      where the digits end. */
  lemma {:induction false} FirstDigitRunPlace(s: string)
    requires HasDigit(s)
    ensures var p := FirstDigit(s).value;
            var r := FirstDigitRun(s).value;
            p + |r| <= |s| && s[p..p + |r|] == r &&
            (p + |r| == |s| || !IsDigit(s[p + |r|]))
  {
    var p := FirstDigit(s).value;
    SpanEnds(s, p);
    RunIsSlice(s);
    RunEndsAt(s, p, Span(s[p..], IsDigit), FirstDigitRun(s).value);
  }

  lemma {:induction false} RunEndsAt(s: string, p: nat, n: nat, r: string)
    requires p + n <= |s| && r == s[p..p + n] && (p + n == |s| || !IsDigit(s[p + n]))
    ensures p + |r| <= |s| && s[p..p + |r|] == r && (p + |r| == |s| || !IsDigit(s[p + |r|]))
  {
    assert |r| == n;
  }

  /** The run is the slice of s from the first digit over the digits there. */
  lemma {:induction false} RunIsSlice(s: string)
    requires HasDigit(s)
    ensures var p := FirstDigit(s).value;
            var n := Span(s[p..], IsDigit);
            p + n <= |s| && FirstDigitRun(s).value == s[p..p + n] && |FirstDigitRun(s).value| == n
  {
  }

  /** The run of digits starting at p ends at the end of s or before a
      non-digit. */
  lemma {:induction false} SpanEnds(s: string, p: nat)
    requires p <= |s|
    ensures var n := Span(s[p..], IsDigit);
            p + n <= |s| && (p + n == |s| || !IsDigit(s[p + n]))
  {
    var n := Span(s[p..], IsDigit);
    if p + n < |s| {
      assert s[p..][n] == s[p + n];
    }
  }

  // ---------------------------------------------------------------------------
  // Numbers: int(s) and str(n)
  // ---------------------------------------------------------------------------

  /** The value of a digit character. */
  function DigitValue(c: char): (d: nat)
    requires IsDigit(c)
    ensures d < 10
  {
    (c as int - '0' as int) as nat
  }

  /** The number a string of decimal digits denotes; leading zeros are allowed and
      the empty string denotes 0. */
  function DecimalValue(s: string): (n: nat)
    requires IsDigits(s)
    ensures n == 0 <==> forall i :: 0 <= i < |s| ==> s[i] == '0'
  {
    if s == [] then 0
    else
      var front := s[..|s| - 1];
      assert forall i :: 0 <= i < |front| ==> front[i] == s[i];
      DecimalValue(front) * 10 + DigitValue(s[|s| - 1])
  }

  /** The body of an integer literal as `int()` accepts it: digits, with single
      underscores allowed between two digits. */
  predicate IsIntLiteral(b: string) {
    |b| > 0 && IsDigit(b[0]) && IsDigit(b[|b| - 1]) &&
    (forall i :: 0 <= i < |b| ==> IsDigit(b[i]) || b[i] == '_') &&
    (forall i, j :: 0 <= i < |b| && 0 <= j < |b| && j == i + 1 && b[i] == '_' ==> IsDigit(b[j]))
  }

  /** Python's `int(s)` on a str: surrounding whitespace is ignored, an optional
      sign may lead, underscores may separate digits. None stands for the
      ValueError it raises on anything else (`int("")`, `int("1,234")`, ...). */
  function PyInt(s: string): Option<int> {
    IntOfStripped(Strip(s))
  }

  /** `int` on a string already stripped of surrounding whitespace. */
  function IntOfStripped(t: string): Option<int> {
    if t == [] then None
    else
      var body := if t[0] == '+' || t[0] == '-' then t[1..] else t;
      if !IsIntLiteral(body) then None
      else
        var v: int := DecimalValue(DigitsOnly(body));
        Some(if t[0] == '-' then -v else v)
  }

  /** On a string of digits, `int` raises exactly when it is empty and
      otherwise yields the number the digits denote. */
  lemma {:induction false} PyIntOfDigits(s: string)
    requires IsDigits(s)
    ensures PyInt(s) == if s == [] then None else Some(DecimalValue(s))
  {
    if s != [] {
      StripDigits(s);
      DigitsOnlyOfDigits(s);
      assert s[0] != '+' && s[0] != '-';
      assert IsIntLiteral(s) by {
        forall i, j | 0 <= i < |s| && 0 <= j < |s| && j == i + 1 && s[i] == '_' ensures IsDigit(s[j]) {
          assert IsDigit(s[i]);
        }
      }
    } else {
      assert Strip(s) == [];
    }
  }

  /** The decimal digits of n, without leading zeros: Python's `str(n)` on a
      non-negative int. */
  function NatText(n: nat): (r: string)
    ensures IsDigitText(r)
    ensures |r| > 1 ==> r[0] != '0'
  {
    var last := ['0' + (n % 10) as char];
    if n < 10 then last
    else
      var front := NatText(n / 10);
      assert (front + last)[0] == front[0];
      front + last
  }

  /** `int(str(n)) == n`: the text of a number reads back as that number. */
  lemma {:induction false} NatTextValue(n: nat)
    ensures DecimalValue(NatText(n)) == n
  {
    var last := ['0' + (n % 10) as char];
    if n >= 10 {
      NatTextValue(n / 10);
      var s := NatText(n);
      assert s[..|s| - 1] == NatText(n / 10);
    }
  }

  /** Python's `str(i)` on an int. */
  function IntText(i: int): (r: string)
    ensures i >= 0 ==> IsDigitText(r)
    ensures i < 0 ==> r != [] && r[0] == '-' && IsDigitText(r[1..])
  {
    if i >= 0 then NatText(i) else "-" + NatText(-i)
  }

  /** The text of an int holds no comma, so it is a CSV field as it stands. */
  lemma {:induction false} IntTextNoComma(i: int)
    ensures ',' !in IntText(i)
  {
    if i >= 0 {
      DigitsExclude(NatText(i), ',');
    } else {
      DigitsExclude(NatText(-i), ',');
      assert IntText(i) == "-" + NatText(-i);
    }
  }

  // ---------------------------------------------------------------------------
  // Searching, case, split and join
  // ---------------------------------------------------------------------------

  /** t occurs in s (Python's `t in s`, and what `re.search` with a literal
      pattern finds). */
  predicate Contains(s: string, t: string) {
    exists i :: 0 <= i <= |s| - |t| && t <= s[i..]
  }

  /** Python's `str.lower()` on the ASCII letters; other characters are kept. */
  function Lower(s: string): (r: string)
    ensures |r| == |s|
    ensures forall i :: 0 <= i < |s| ==> ('A' <= s[i] <= 'Z' ==> r[i] == s[i] + ('a' - 'A')) && (!('A' <= s[i] <= 'Z') ==> r[i] == s[i])
  {
    if s == [] then []
    else [if 'A' <= s[0] <= 'Z' then s[0] + ('a' - 'A') else s[0]] + Lower(s[1..])
  }

  /** The position of the first occurrence of c in s. */
  function IndexOf(s: string, c: char): (r: Option<nat>)
    ensures r.None? <==> c !in s
    ensures r.Some? ==> r.value < |s| && s[r.value] == c && c !in s[..r.value]
  {
    if s == [] then None
    else if s[0] == c then Some(0)
    else
      match IndexOf(s[1..], c)
      case None => None
      case Some(k) =>
        assert s[..k + 1] == [s[0]] + s[1..][..k];
        Some(k + 1)
  }

  /** Python's `s.split(sep)`: the pieces of s between occurrences of sep. */
  function Split(s: string, sep: char): (r: seq<string>)
    ensures |r| >= 1
    ensures NoneContains(r, sep)
    decreases |s|
  {
    match IndexOf(s, sep)
    case None => [s]
    case Some(k) => [s[..k]] + Split(s[k + 1..], sep)
  }

  /** Python's `sep.join(fields)`. */
  function Join(fields: seq<string>, sep: char): string {
    if fields == [] then []
    else if |fields| == 1 then fields[0]
    else fields[0] + [sep] + Join(fields[1..], sep)
  }

  /** No field contains the separator. */
  predicate NoneContains(fields: seq<string>, sep: char) {
    forall i :: 0 <= i < |fields| ==> sep !in fields[i]
  }

  /** Splitting a joined row gives back its fields, provided no field contains
      the separator. */
  lemma {:induction false} SplitJoin(fields: seq<string>, sep: char)
    requires |fields| >= 1 && NoneContains(fields, sep)
    ensures Split(Join(fields, sep), sep) == fields
  {
    if |fields| == 1 {
      assert sep !in fields[0];
    } else {
      var a, rest := fields[0], Join(fields[1..], sep);
      var s := a + [sep] + rest;
      assert sep !in a;
      IndexOfAfter(a, sep, rest);
      assert s[..|a|] == a;
      assert s[|a| + 1..] == rest;
      SplitJoin(fields[1..], sep);
    }
  }

  /** Joining the pieces of a split gives back the string. */
  lemma {:induction false} JoinSplit(s: string, sep: char)
    ensures Join(Split(s, sep), sep) == s
    decreases |s|
  {
    var ix := IndexOf(s, sep);
    if ix.Some? {
      var k := ix.value;
      JoinSplit(s[k + 1..], sep);
      SplitAt(s, sep, k);
    }
  }

  /** One step of JoinSplit: the piece before the first separator. */
  lemma {:induction false} SplitAt(s: string, sep: char, k: nat)
    requires IndexOf(s, sep) == Some(k)
    requires Join(Split(s[k + 1..], sep), sep) == s[k + 1..]
    ensures Join(Split(s, sep), sep) == s
  {
    var head, tail := s[..k], s[k + 1..];
    var pieces := Split(tail, sep);
    SplitStep(s, sep, k);
    JoinCons(head, pieces, sep);
    Around(s, k);
  }

  /** Split takes the piece before the first separator and splits the rest. */
  lemma {:induction false} SplitStep(s: string, sep: char, k: nat)
    requires IndexOf(s, sep) == Some(k)
    ensures Split(s, sep) == [s[..k]] + Split(s[k + 1..], sep)
  {
  }

  /** A string is the part before position k, its character there, and the rest. */
  lemma {:induction false} Around(s: string, k: nat)
    requires k < |s|
    ensures s == s[..k] + [s[k]] + s[k + 1..]
  {
  }

  lemma {:induction false} JoinCons(a: string, rest: seq<string>, sep: char)
    requires |rest| >= 1
    ensures Join([a] + rest, sep) == a + [sep] + Join(rest, sep)
  {
    assert ([a] + rest)[1..] == rest;
  }

  lemma {:induction false} IndexOfAfter(a: string, c: char, b: string)
    requires c !in a
    ensures IndexOf(a + [c] + b, c) == Some(|a|)
  {
    var s := a + [c] + b;
    assert s[|a|] == c;
    assert s[..|a|] == a;
    assert c in s;
  }
}
