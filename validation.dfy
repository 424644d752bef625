/** The steps the CSDN and Juejin scrapers apply to the fields their
    extraction cascade produced: the sanitiser, the completeness test, and
    the append of a complete sample to the log. */
module Validation {
  import opened Wrappers
  import opened Text
  import opened CsvLog

  /** `re.sub(r'[^\d]', '', f) if f else "0"`: an empty field becomes "0";
      any other field keeps only its digits, so that a field with no digit at
      all becomes the empty string. */
  function Sanitise(field: string): (r: string)
    ensures IsDigits(r)
    ensures r == [] <==> field != [] && !HasDigit(field)
    ensures HasDigit(field) ==> r == DigitsOnly(field)
  {
    if field == [] then "0" else DigitsOnly(field)
  }

  /** A field that is already a number is kept as it is. */
  lemma {:induction false} SanitiseNumber(field: string)
    requires IsDigitText(field)
    ensures Sanitise(field) == field
  {
    DigitsOnlyOfDigits(field);
  }

  /** Thousands separators and stray characters between two runs of digits
      disappear: "1,234" becomes "1234". */
  lemma {:induction false} SanitiseSeparated(a: string, sep: string, b: string)
    requires IsDigitText(a) && IsDigits(b) && !HasDigit(sep)
    ensures Sanitise(a + sep + b) == a + b
  {
    var whole := a + sep + b;
    assert whole[0] == a[0] && IsDigit(whole[0]);
    DigitsOnlyConcat(a + sep, b);
    DigitsOnlyConcat(a, sep);
    DigitsOnlyOfDigits(a);
    DigitsOnlyOfDigits(b);
    assert DigitsOnly(sep) == [];
    assert a + [] == a;
  }

  /** `int(x) > 0`, where an `int(x)` that raises is not positive. */
  predicate Positive(x: string) {
    PyInt(x).Some? && PyInt(x).value > 0
  }

  /** The outcome of the completeness test: its boolean, or the ValueError that
      `int` raised inside it. */
  datatype Check = Checked(complete: bool) | Raised

  /** What `int` makes of each field: the number, or None where it raises. */
  function Conversions(fields: seq<string>): (r: seq<Option<int>>)
    ensures |r| == |fields| && forall i :: 0 <= i < |fields| ==> r[i] == PyInt(fields[i])
  {
    seq(|fields|, i requires 0 <= i < |fields| => PyInt(fields[i]))
  }

  /** `all(int(x) > 0 for x in fields)`, given what `int` makes of each field.
      The generator is consumed left to right and `all` stops at the first
      field that is not positive, so a field after it is never converted and
      cannot raise. */
  function AllPositive(values: seq<Option<int>>): Check {
    if values == [] then Checked(true)
    else
      match values[0]
      case None => Raised
      case Some(v) => if v <= 0 then Checked(false) else AllPositive(values[1..])
  }

  predicate IsPositive(v: Option<int>) {
    v.Some? && v.value > 0
  }

  /** The conversion of field i raises while every field before it is
      positive: the generator gets as far as field i and the ValueError
      escapes `all`. */
  predicate RaisesAt(values: seq<Option<int>>, i: int) {
    0 <= i < |values| && values[i].None? && forall j :: 0 <= j < i ==> IsPositive(values[j])
  }

  /** The test passes exactly when every field is positive. */
  lemma {:induction false} AllPositivePasses(values: seq<Option<int>>)
    ensures AllPositive(values) == Checked(true) <==> forall i :: 0 <= i < |values| ==> IsPositive(values[i])
  {
    if values != [] && IsPositive(values[0]) {
      var rest := values[1..];
      AllPositivePasses(rest);
      assert forall i :: 0 < i < |values| ==> values[i] == rest[i - 1];
    }
  }

  /** The test raises exactly when some field makes `int` raise while all the
      fields before it are positive. */
  lemma {:induction false} AllPositiveRaises(values: seq<Option<int>>)
    ensures AllPositive(values) == Raised <==> exists i :: RaisesAt(values, i)
  {
    if values == [] {
    } else if values[0].None? {
      assert RaisesAt(values, 0);
    } else if !IsPositive(values[0]) {
      assert forall i :: !RaisesAt(values, i);
    } else {
      var rest := values[1..];
      AllPositiveRaises(rest);
      forall i | 0 <= i < |rest| ensures RaisesAt(values, i + 1) <==> RaisesAt(rest, i) {
        assert forall j :: 0 < j <= i ==> values[j] == rest[j - 1];
      }
      if AllPositive(rest) == Raised {
        var i :| RaisesAt(rest, i);
        assert RaisesAt(values, i + 1);
      }
      if exists i :: RaisesAt(values, i) {
        var i :| RaisesAt(values, i);
        assert i > 0;
        assert RaisesAt(rest, i - 1);
      }
    }
  }

  /** `int` raises on field i while every field before it is positive. */
  predicate FieldRaisesAt(fields: seq<string>, i: int) {
    0 <= i < |fields| && PyInt(fields[i]).None? && forall j :: 0 <= j < i ==> Positive(fields[j])
  }

  /** The test over the fields themselves: it passes exactly when every
      field is positive, and it raises exactly when some field makes `int`
      raise while all the fields before it are positive. */
  lemma {:induction false} AllPositiveFields(fields: seq<string>)
    ensures AllPositive(Conversions(fields)) == Checked(true) <==> forall i :: 0 <= i < |fields| ==> Positive(fields[i])
    ensures AllPositive(Conversions(fields)) == Raised <==> exists i :: FieldRaisesAt(fields, i)
  {
    FieldsPass(fields);
    FieldsRaise(fields);
  }

  lemma {:induction false} FieldsPass(fields: seq<string>)
    ensures AllPositive(Conversions(fields)) == Checked(true) <==> forall i :: 0 <= i < |fields| ==> Positive(fields[i])
  {
    var values := Conversions(fields);
    AllPositivePasses(values);
    forall i | 0 <= i < |fields| ensures IsPositive(values[i]) <==> Positive(fields[i]) {
      assert values[i] == PyInt(fields[i]);
    }
  }

  lemma {:induction false} FieldsRaise(fields: seq<string>)
    ensures AllPositive(Conversions(fields)) == Raised <==> exists i :: FieldRaisesAt(fields, i)
  {
    var values := Conversions(fields);
    AllPositiveRaises(values);
    if AllPositive(values) == Raised {
      var i :| RaisesAt(values, i);
      RaisesAtField(fields, i);
    }
    if exists i :: FieldRaisesAt(fields, i) {
      var i :| FieldRaisesAt(fields, i);
      RaisesAtField(fields, i);
    }
  }

  lemma {:induction false} RaisesAtField(fields: seq<string>, i: int)
    ensures RaisesAt(Conversions(fields), i) <==> FieldRaisesAt(fields, i)
  {
    var values := Conversions(fields);
    if 0 <= i < |fields| {
      assert values[i] == PyInt(fields[i]);
      forall j | 0 <= j < i ensures IsPositive(values[j]) <==> Positive(fields[j]) {
        assert values[j] == PyInt(fields[j]);
      }
    }
  }

  /** On a sanitised field (digits only), `int(x) > 0` holds exactly when the
      field is not empty and has a digit other than 0. */
  lemma {:induction false} PositiveDigits(x: string)
    requires IsDigits(x)
    ensures Positive(x) <==> x != [] && exists i :: 0 <= i < |x| && x[i] != '0'
  {
    PyIntOfDigits(x);
  }

  /** On a sanitised field `int` raises exactly when the field had text but
      no digit at all. */
  lemma {:induction false} SanitisedRaises(field: string)
    ensures PyInt(Sanitise(field)).None? <==> field != [] && !HasDigit(field)
  {
    PyIntOfDigits(Sanitise(field));
  }

  /** A zero field ahead of a field without digits hides the ValueError: the
      test yields False and does not raise. */
  lemma {:induction false} ZeroBeforeEmptyDoesNotRaise(rest: seq<string>)
    ensures AllPositive(Conversions(["0", ""] + rest)) == Checked(false)
  {
    PyIntOfDigits("0");
  }

  /** A field without digits raises when every field before it is positive. */
  lemma {:induction false} EmptyAfterPositivesRaises(before: seq<string>, after: seq<string>)
    requires forall j :: 0 <= j < |before| ==> Positive(before[j])
    ensures AllPositive(Conversions(before + [""] + after)) == Raised
  {
    var values := Conversions(before + [""] + after);
    assert values[|before|] == PyInt("") == None;
    assert RaisesAt(values, |before|);
    AllPositiveRaises(values);
  }

  // ---------------------------------------------------------------------------
  // Test and store
  // ---------------------------------------------------------------------------

  /** How the tail of a scraper call ends: an exception (the caller returns
      its error record), or the completeness verdict and the log file after. */
  datatype Settled = Failed | Settled(complete: bool, file: Option<seq<string>>)

  /** The completeness test over the sanitised fields, then, when the sample
      is complete, the row (the second clock reading, then the fields) is
      appended to the log, with the header first when the file is new.
      storeOk says whether the log can be opened and written; when it cannot,
      the exception ends the call. */
  function Settle(fields: seq<string>, file: Option<seq<string>>, header: string, rowStamp: string, storeOk: bool): Settled {
    match AllPositive(Conversions(fields))
    case Raised => Failed
    case Checked(complete) =>
      if !complete then Settled(false, file)
      else if !storeOk then Failed
      else Settled(true, Appended(file, header, Row([rowStamp] + fields)))
  }

  /** A sample is stored as complete exactly when every field is positive and
      the log can be written. */
  lemma {:induction false} SettleComplete(fields: seq<string>, file: Option<seq<string>>, header: string, rowStamp: string, storeOk: bool)
    ensures var r := Settle(fields, file, header, rowStamp, storeOk);
            r.Settled? && r.complete <==> storeOk && forall i :: 0 <= i < |fields| ==> Positive(fields[i])
  {
    FieldsPass(fields);
  }

  /** The log is only touched for a complete sample, and then gains exactly
      its row. */
  lemma {:induction false} SettleAppendsOnlyComplete(fields: seq<string>, file: Option<seq<string>>, header: string, rowStamp: string, storeOk: bool)
    ensures var r := Settle(fields, file, header, rowStamp, storeOk);
            r.Settled? ==> (r.complete ==> r.file == Appended(file, header, Row([rowStamp] + fields))) && (!r.complete ==> r.file == file)
  {
  }

  /** When `int` raises on a field while the fields before it are positive,
      the call ends in an exception. */
  lemma {:induction false} SettleFailsOnRaise(fields: seq<string>, file: Option<seq<string>>, header: string, rowStamp: string, storeOk: bool, i: nat)
    requires i < |fields| && PyInt(fields[i]).None?
    requires forall j :: 0 <= j < i ==> Positive(fields[j])
    ensures Settle(fields, file, header, rowStamp, storeOk) == Failed
  {
    assert FieldRaisesAt(fields, i);
    FieldsRaise(fields);
  }
}
