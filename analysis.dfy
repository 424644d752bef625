/** The analysis page's data side: reading one platform's log back into a
    timestamp series and a value series, normalising the pairs, the empty-data
    check, and the first-to-last change with its style class. */
module Analysis {
  import opened Wrappers
  import opened Text
  import CsvLog

  // ---------------------------------------------------------------------------
  // read_csv_data
  // ---------------------------------------------------------------------------

  /** The two lists `read_csv_data` returns. */
  datatype Series = Series(timestamps: seq<string>, values: seq<string>)

  const NoData := Series([], [])

  function Concat(a: Series, b: Series): Series {
    Series(a.timestamps + b.timestamps, a.values + b.values)
  }

  /** The value column for a log, chosen by the first platform name that occurs
      in the lower-cased path, in the order csdn, toutiao, juejin, zhihu; None
      when the path names none of them. */
  function ColumnFor(path: string): (col: Option<nat>)
    ensures Contains(Lower(path), "csdn") ==> col == Some(3)
    ensures !Contains(Lower(path), "csdn") && Contains(Lower(path), "toutiao") ==> col == Some(2)
    ensures !Contains(Lower(path), "csdn") && !Contains(Lower(path), "toutiao") && Contains(Lower(path), "juejin") ==> col == Some(4)
    ensures (!Contains(Lower(path), "csdn") && !Contains(Lower(path), "toutiao") && !Contains(Lower(path), "juejin") &&
             Contains(Lower(path), "zhihu")) ==> col == Some(5)
    ensures col.None? <==> !Contains(Lower(path), "csdn") && !Contains(Lower(path), "toutiao") &&
                           !Contains(Lower(path), "juejin") && !Contains(Lower(path), "zhihu")
  {
    var p := Lower(path);
    if Contains(p, "csdn") then Some(3)
    else if Contains(p, "toutiao") then Some(2)
    else if Contains(p, "juejin") then Some(4)
    else if Contains(p, "zhihu") then Some(5)
    else None
  }

  /** What one row read after the header contributes, and whether reading
      stops after it: an empty row is skipped; any other row gives its
      timestamp and, when there is a column, the value in it; a row too short
      for the column raises IndexError after its timestamp was taken, which
      ends the reading. */
  function RowStep(row: seq<string>, col: Option<nat>): (Series, bool) {
    if row == [] then (NoData, false)
    else match col
      case None => (Series([row[0]], []), false)
      case Some(c) => if c >= |row| then (Series([row[0]], []), true) else (Series([row[0]], [row[c]]), false)
  }

  /** The rows after the header, as `for row in reader` reads them. */
  function ReadLines(lines: seq<string>, col: Option<nat>): Series {
    if lines == [] then NoData
    else
      var (s, stop) := RowStep(CsvLog.Fields(lines[0]), col);
      if stop then s else Concat(s, ReadLines(lines[1..], col))
  }

  /** ReadLines from position i on, one row unfolded. */
  lemma {:induction false} ReadLinesAt(lines: seq<string>, col: Option<nat>, i: nat)
    requires i < |lines|
    ensures var (s, stop) := RowStep(CsvLog.Fields(lines[i]), col);
            ReadLines(lines[i..], col) == if stop then s else Concat(s, ReadLines(lines[i + 1..], col))
  {
    assert lines[i..][0] == lines[i];
    assert lines[i..][1..] == lines[i + 1..];
  }

  lemma {:induction false} ConcatAssoc(a: Series, b: Series, c: Series)
    ensures Concat(Concat(a, b), c) == Concat(a, Concat(b, c))
  {
    assert (a.timestamps + b.timestamps) + c.timestamps == a.timestamps + (b.timestamps + c.timestamps);
    assert (a.values + b.values) + c.values == a.values + (b.values + c.values);
  }

  lemma {:induction false} ConcatNoData(a: Series)
    ensures Concat(a, NoData) == a && Concat(NoData, a) == a
  {
    assert a.timestamps + [] == a.timestamps && a.values + [] == a.values;
    assert [] + a.timestamps == a.timestamps && [] + a.values == a.values;
  }

  /** `read_csv_data(path)` on the file's lines: an absent file and an empty
      one (`next(reader)` raises StopIteration) give two empty lists; the first
      line is the header and is skipped. */
  function ReadCsv(file: Option<seq<string>>, path: string): Series {
    match file
    case None => NoData
    case Some(lines) => if lines == [] then NoData else ReadLines(lines[1..], ColumnFor(path))
  }

  /** The loop of `read_csv_data`. */
  method ReadCsvData(file: Option<seq<string>>, path: string) returns (timestamps: seq<string>, values: seq<string>)
    ensures Series(timestamps, values) == ReadCsv(file, path)
  {
    timestamps, values := [], [];
    if file.None? || file.value == [] {
      return;
    }
    var lines := file.value[1..];
    var col := ColumnFor(path);
    ConcatNoData(ReadLines(lines, col));
    var i := 0;
    while i < |lines|
      invariant 0 <= i <= |lines|
      invariant ReadLines(lines, col) == Concat(Series(timestamps, values), ReadLines(lines[i..], col))
    {
      ghost var before := Series(timestamps, values);
      var row := CsvLog.Fields(lines[i]);
      ReadLinesAt(lines, col, i);
      var stop;
      timestamps, values, stop := TakeRow(row, col, timestamps, values);
      if stop {
        break;
      }
      ConcatAssoc(before, RowStep(row, col).0, ReadLines(lines[i + 1..], col));
      i := i + 1;
    }
    if i == |lines| {
      ConcatNoData(Series(timestamps, values));
    }
  }

  /** The body of the loop for one row. */
  method TakeRow(row: seq<string>, col: Option<nat>, timestamps: seq<string>, values: seq<string>)
    returns (timestamps': seq<string>, values': seq<string>, stop: bool)
    ensures Series(timestamps', values') == Concat(Series(timestamps, values), RowStep(row, col).0)
    ensures stop == RowStep(row, col).1
  {
    timestamps', values', stop := timestamps, values, false;
    if |row| > 0 {
      timestamps' := timestamps' + [row[0]];
      if col.Some? {
        if col.value >= |row| {
          assert values' == values + [];
          return timestamps', values', true;
        }
        values' := values' + [row[col.value]];
      }
    }
    if row == [] {
      assert timestamps' == timestamps + [] && values' == values + [];
    } else if col.None? {
      assert values' == values + [];
    }
  }

  /** A non-empty row too short for column c: reading it raises IndexError. */
  predicate TooShort(line: string, c: nat) {
    CsvLog.Fields(line) != [] && c >= |CsvLog.Fields(line)|
  }

  /** The reader only ever collects at least as many timestamps as values, and
      one more exactly when some row is too short for the column: the first
      such row stops it after its timestamp was taken. */
  lemma {:induction false} ReadLinesCounts(lines: seq<string>, col: Option<nat>)
    ensures var s := ReadLines(lines, col);
            col.Some? ==> |s.values| <= |s.timestamps| <= |s.values| + 1
    ensures var s := ReadLines(lines, col);
            col.Some? ==> (|s.timestamps| == |s.values| + 1 <==>
                           exists k :: 0 <= k < |lines| && TooShort(lines[k], col.value))
  {
    if lines != [] && col.Some? {
      var c := col.value;
      ReadLinesCounts(lines[1..], col);
      if TooShort(lines[0], c) {
        assert TooShort(lines[0], c);
      } else {
        forall k | 1 <= k < |lines| ensures lines[1..][k - 1] == lines[k] { }
        if exists k :: 0 <= k < |lines| && TooShort(lines[k], c) {
          var k :| 0 <= k < |lines| && TooShort(lines[k], c);
          assert k > 0 && TooShort(lines[1..][k - 1], c);
        }
        if exists k :: 0 <= k < |lines[1..]| && TooShort(lines[1..][k], c) {
          var k :| 0 <= k < |lines[1..]| && TooShort(lines[1..][k], c);
          assert TooShort(lines[k + 1], c);
        }
      }
    }
  }

  /** The lines a writer leaves for rows, one `','.join(row)` per row. */
  function Written(rows: seq<seq<string>>): (lines: seq<string>)
    ensures |lines| == |rows|
  {
    if rows == [] then [] else [CsvLog.Row(rows[0])] + Written(rows[1..])
  }

  /** The first field of every row. */
  function FirstFields(rows: seq<seq<string>>): (r: seq<string>)
    requires forall k :: 0 <= k < |rows| ==> rows[k] != []
    ensures |r| == |rows| && forall k :: 0 <= k < |rows| ==> r[k] == rows[k][0]
  {
    if rows == [] then [] else [rows[0][0]] + FirstFields(rows[1..])
  }

  /** Field c of every row. */
  function ColumnFields(rows: seq<seq<string>>, c: nat): (r: seq<string>)
    requires forall k :: 0 <= k < |rows| ==> c < |rows[k]|
    ensures |r| == |rows| && forall k :: 0 <= k < |rows| ==> r[k] == rows[k][c]
  {
    if rows == [] then [] else [rows[0][c]] + ColumnFields(rows[1..], c)
  }

  /** Rows of at least two comma-free fields, each long enough for column c. */
  predicate WellFormedRows(rows: seq<seq<string>>, c: nat) {
    forall k :: 0 <= k < |rows| ==> 2 <= |rows[k]| && c < |rows[k]| && NoneContains(rows[k], ',')
  }

  /** A log made of comma-free rows, each long enough for the column, reads
      back as the rows' first fields and their column. */
  lemma {:induction false} ReadBack(rows: seq<seq<string>>, c: nat)
    requires WellFormedRows(rows, c)
    ensures ReadLines(Written(rows), Some(c)) == Series(FirstFields(rows), ColumnFields(rows, c))
  {
    if rows != [] {
      var rest := rows[1..];
      assert WellFormedRows(rest, c) by {
        forall k | 0 <= k < |rest| ensures 2 <= |rest[k]| && c < |rest[k]| && NoneContains(rest[k], ',') {
          assert rest[k] == rows[k + 1];
        }
      }
      ReadBack(rest, c);
      CsvLog.FieldsOfRow(rows[0]);
      var lines := Written(rows);
      assert lines[0] == CsvLog.Row(rows[0]) && lines[1..] == Written(rest);
      assert RowStep(CsvLog.Fields(lines[0]), Some(c)) == (Series([rows[0][0]], [rows[0][c]]), false);
      assert ReadLines(lines, Some(c)) == Concat(Series([rows[0][0]], [rows[0][c]]), ReadLines(Written(rest), Some(c)));
    }
  }

  /** The header is skipped: a log written by header-once appends reads back as
      its rows alone. */
  lemma {:induction false} ReadSkipsHeader(header: string, rows: seq<seq<string>>, path: string, c: nat)
    requires ColumnFor(path) == Some(c)
    requires WellFormedRows(rows, c)
    ensures ReadCsv(Some([header] + Written(rows)), path) == Series(FirstFields(rows), ColumnFields(rows, c))
  {
    assert ([header] + Written(rows))[1..] == Written(rows);
    ReadBack(rows, c);
  }

  // ---------------------------------------------------------------------------
  // The pair loops of generate_html
  // ---------------------------------------------------------------------------

  /** `int(v) if v.isdigit() else 0`. */
  function CountValue(v: string): nat {
    if IsDigitText(v) then DecimalValue(v) else 0
  }

  /** The count is what `int` reads from a digit text, and 0 for anything
      else. */
  lemma {:induction false} CountValueIsInt(v: string)
    ensures IsDigitText(v) ==> PyInt(v) == Some(CountValue(v) as int)
    ensures !IsDigitText(v) ==> CountValue(v) == 0
  {
    if IsDigitText(v) {
      PyIntOfDigits(v);
    }
  }

  /** A count a writer stored as `str(n)` reads back as n. */
  lemma {:induction false} CountValueOfText(n: nat)
    ensures CountValue(NatText(n)) == n
  {
    NatTextValue(n);
  }

  /** The pair for timestamp i, or None when the loop skips it: `strptime`
      rejects the timestamp (ValueError) or there is no value i (IndexError).
      parse stands for `strptime` followed by `strftime`: the timestamp in
      normal form, or None when it does not parse. */
  function Entry(timestamps: seq<string>, values: seq<string>, parse: string -> Option<string>, i: nat): Option<(string, nat)>
    requires i < |timestamps|
  {
    if parse(timestamps[i]).None? || i >= |values| then None
    else Some((parse(timestamps[i]).value, CountValue(values[i])))
  }

  /** The pairs the loop builds from the first n timestamps. */
  function Pairs(timestamps: seq<string>, values: seq<string>, parse: string -> Option<string>, n: nat): seq<(string, nat)>
    requires n <= |timestamps|
  {
    if n == 0 then []
    else
      var before := Pairs(timestamps, values, parse, n - 1);
      match Entry(timestamps, values, parse, n - 1)
      case None => before
      case Some(e) => before + [e]
  }

  /** One of the four pair loops: `for i, ts in enumerate(timestamps)`. */
  method NormalisePairs(timestamps: seq<string>, values: seq<string>, parse: string -> Option<string>) returns (pairs: seq<(string, nat)>)
    ensures pairs == Pairs(timestamps, values, parse, |timestamps|)
  {
    pairs := [];
    for i := 0 to |timestamps|
      invariant pairs == Pairs(timestamps, values, parse, i)
    {
      var dt := parse(timestamps[i]);
      if dt.None? || i >= |values| {
        continue;
      }
      pairs := pairs + [(dt.value, CountValue(values[i]))];
    }
  }

  /** The pairs ps are the entries of the timestamps at the indices idx, all
      below n and strictly increasing: ps keeps the order of the timestamps. */
  predicate Picks(timestamps: seq<string>, values: seq<string>, parse: string -> Option<string>,
                  ps: seq<(string, nat)>, idx: seq<nat>, n: nat)
    requires n <= |timestamps|
  {
    |idx| == |ps| &&
    (forall k :: 0 <= k < |idx| ==> idx[k] < n && Entry(timestamps, values, parse, idx[k]) == Some(ps[k])) &&
    (forall a, b :: 0 <= a < b < |idx| ==> idx[a] < idx[b])
  }

  /** The pairs come from the timestamps in order: each is the one a
      timestamp that parses and has a value makes, a later pair comes from a
      later timestamp, and there are no more pairs than timestamps or values. */
  lemma {:induction false} PairsInOrder(timestamps: seq<string>, values: seq<string>, parse: string -> Option<string>, n: nat)
    requires n <= |timestamps|
    ensures var ps := Pairs(timestamps, values, parse, n);
            |ps| <= n && |ps| <= |values| && exists idx :: Picks(timestamps, values, parse, ps, idx, n)
  {
    PairsCount(timestamps, values, parse, n);
    var idx := PairsPicks(timestamps, values, parse, n);
  }

  lemma {:induction false} PairsCount(timestamps: seq<string>, values: seq<string>, parse: string -> Option<string>, n: nat)
    requires n <= |timestamps|
    ensures |Pairs(timestamps, values, parse, n)| <= n
    ensures |Pairs(timestamps, values, parse, n)| <= |values|
  {
    if n > 0 {
      PairsCount(timestamps, values, parse, n - 1);
      if Entry(timestamps, values, parse, n - 1).Some? {
        assert n - 1 < |values|;
      }
    }
  }

  /** The indices the pairs were taken from. */
  lemma {:induction false} PairsPicks(timestamps: seq<string>, values: seq<string>, parse: string -> Option<string>, n: nat)
    returns (idx: seq<nat>)
    requires n <= |timestamps|
    ensures Picks(timestamps, values, parse, Pairs(timestamps, values, parse, n), idx, n)
  {
    if n == 0 {
      idx := [];
    } else {
      var before := Pairs(timestamps, values, parse, n - 1);
      var prev := PairsPicks(timestamps, values, parse, n - 1);
      var e := Entry(timestamps, values, parse, n - 1);
      if e.Some? {
        assert Pairs(timestamps, values, parse, n) == before + [e.value];
        idx := prev + [n - 1];
        PicksSnoc(timestamps, values, parse, before, prev, e.value, n);
      } else {
        assert Pairs(timestamps, values, parse, n) == before;
        idx := prev;
        assert Picks(timestamps, values, parse, before, prev, n - 1);
      }
    }
  }

  /** Appending the pair timestamp n - 1 makes. */
  lemma {:induction false} PicksSnoc(timestamps: seq<string>, values: seq<string>, parse: string -> Option<string>,
                                     before: seq<(string, nat)>, idx: seq<nat>, last: (string, nat), n: nat)
    requires 0 < n <= |timestamps| && Picks(timestamps, values, parse, before, idx, n - 1)
    requires Entry(timestamps, values, parse, n - 1) == Some(last)
    ensures Picks(timestamps, values, parse, before + [last], idx + [n - 1], n)
  {
    var ps, ix := before + [last], idx + [n - 1];
    forall k | 0 <= k < |ix| ensures ix[k] < n && Entry(timestamps, values, parse, ix[k]) == Some(ps[k]) {
      if k < |idx| {
        assert ix[k] == idx[k] && ps[k] == before[k];
      }
    }
    forall a, b | 0 <= a < b < |ix| ensures ix[a] < ix[b] {
      assert ix[a] == idx[a];
      if b < |idx| {
        assert ix[b] == idx[b];
      }
    }
  }

  /** Pair i of ps is the one timestamp i makes, for every i below n. */
  predicate EntriesAre(timestamps: seq<string>, values: seq<string>, parse: string -> Option<string>,
                       ps: seq<(string, nat)>, n: nat)
    requires n <= |timestamps| && n <= |ps|
  {
    forall i :: 0 <= i < n ==> Entry(timestamps, values, parse, i) == Some(ps[i])
  }

  /** When every timestamp parses and has a value, nothing is dropped: the pair
      at i is the one timestamp i and value i make. */
  lemma {:induction false} PairsComplete(timestamps: seq<string>, values: seq<string>, parse: string -> Option<string>, n: nat)
    requires n <= |timestamps| && n <= |values|
    requires forall i :: 0 <= i < n ==> parse(timestamps[i]).Some?
    ensures var ps := Pairs(timestamps, values, parse, n);
            |ps| == n && EntriesAre(timestamps, values, parse, ps, n)
  {
    if n > 0 {
      PairsComplete(timestamps, values, parse, n - 1);
      var before := Pairs(timestamps, values, parse, n - 1);
      assert parse(timestamps[n - 1]).Some?;
      var e := Entry(timestamps, values, parse, n - 1);
      assert Pairs(timestamps, values, parse, n) == before + [e.value];
      PairsSnoc(timestamps, values, parse, before, e.value, n);
    }
  }

  lemma {:induction false} PairsSnoc(timestamps: seq<string>, values: seq<string>, parse: string -> Option<string>,
                  before: seq<(string, nat)>, last: (string, nat), n: nat)
    requires 0 < n <= |timestamps| && |before| == n - 1
    requires EntriesAre(timestamps, values, parse, before, n - 1)
    requires Entry(timestamps, values, parse, n - 1) == Some(last)
    ensures EntriesAre(timestamps, values, parse, before + [last], n)
  {
    var ps := before + [last];
    forall i | 0 <= i < n ensures Entry(timestamps, values, parse, i) == Some(ps[i]) {
      if i < n - 1 {
        assert ps[i] == before[i];
      }
    }
  }

  /** The pair for a timestamp that parses and has a value. */
  lemma {:induction false} EntryValue(timestamps: seq<string>, values: seq<string>, parse: string -> Option<string>, i: nat)
    requires i < |timestamps| && i < |values| && parse(timestamps[i]).Some?
    ensures Entry(timestamps, values, parse, i) == Some((parse(timestamps[i]).value, CountValue(values[i])))
  {
  }

  // ---------------------------------------------------------------------------
  // The empty-data check and the change
  // ---------------------------------------------------------------------------

  /** What `generate_html` produces, short of its markup: the error page, or
      the chart with the four pair lists. */
  datatype Report =
    | ErrorPage
    | Chart(csdn: seq<(string, nat)>, toutiao: seq<(string, nat)>, juejin: seq<(string, nat)>, zhihu: seq<(string, nat)>)

  function Normalised(s: Series, parse: string -> Option<string>): seq<(string, nat)> {
    Pairs(s.timestamps, s.values, parse, |s.timestamps|)
  }

  /** `generate_html`: the error page when no series has a timestamp. */
  function GenerateReport(csdn: Series, toutiao: Series, juejin: Series, zhihu: Series, parse: string -> Option<string>): Report {
    if csdn.timestamps + toutiao.timestamps + juejin.timestamps + zhihu.timestamps == [] then ErrorPage
    else Chart(Normalised(csdn, parse), Normalised(toutiao, parse), Normalised(juejin, parse), Normalised(zhihu, parse))
  }

  /** The error page appears exactly when all four series are empty, even
      when every timestamp of a non-empty series fails to parse. */
  lemma {:induction false} ErrorPageIff(csdn: Series, toutiao: Series, juejin: Series, zhihu: Series, parse: string -> Option<string>)
    ensures GenerateReport(csdn, toutiao, juejin, zhihu, parse) == ErrorPage <==>
            csdn.timestamps == [] && toutiao.timestamps == [] && juejin.timestamps == [] && zhihu.timestamps == []
  {
    var all := csdn.timestamps + toutiao.timestamps + juejin.timestamps + zhihu.timestamps;
    assert |all| == |csdn.timestamps| + |toutiao.timestamps| + |juejin.timestamps| + |zhihu.timestamps|;
  }

  /** `calculate_change`: the percentage from the first value to the last, or
      None when there are fewer than two values or the first is 0. */
  function CalculateChange(values: seq<nat>): (r: Option<real>)
    ensures r.None? <==> |values| < 2 || values[0] == 0
  {
    if |values| < 2 then None
    else
      var first, last := values[0], values[|values| - 1];
      if first == 0 then None
      else Some(((last as int - first as int) as real / first as real) * 100.0)
  }

  /** `get_change_class`. */
  function ChangeClass(change: Option<real>): string {
    match change
    case None => ""
    case Some(c) => if c > 0.0 then "positive" else if c < 0.0 then "negative" else ""
  }

  /** The change has the sign of last minus first. */
  lemma {:induction false} ChangeSign(values: seq<nat>)
    requires CalculateChange(values).Some?
    ensures var c := CalculateChange(values).value;
            var first, last := values[0], values[|values| - 1];
            (c > 0.0 <==> last > first) && (c < 0.0 <==> last < first)
  {
    var first, last := values[0], values[|values| - 1];
    var q := (last as int - first as int) as real / first as real;
    assert first as real > 0.0;
    if last > first {
      assert (last as int - first as int) as real > 0.0;
      assert q > 0.0;
    } else if last < first {
      assert (last as int - first as int) as real < 0.0;
      assert q < 0.0;
    } else {
      assert q == 0.0;
    }
  }

  /** The class is "positive" exactly when the series rose and "negative"
      exactly when it fell; too few values or a first value of 0 give "". */
  lemma {:induction false} ClassFollowsSign(values: seq<nat>)
    ensures var cls := ChangeClass(CalculateChange(values));
            (cls == "positive" <==> |values| >= 2 && values[0] != 0 && values[|values| - 1] > values[0]) &&
            (cls == "negative" <==> |values| >= 2 && values[0] != 0 && values[|values| - 1] < values[0]) &&
            (|values| < 2 || values[0] == 0 ==> cls == "")
  {
    if CalculateChange(values).Some? {
      ChangeSign(values);
    }
  }

  const Insufficient := "数据不足"

  /** `format_change`; `fixed` stands for the `:.2f` rendering of a float. */
  function FormatChange(change: Option<real>, fixed: real -> string): (r: string)
    ensures change.None? ==> r == Insufficient
    ensures change.Some? && change.value > 0.0 ==> r == "+" + fixed(change.value) + "%"
    ensures change.Some? && change.value <= 0.0 ==> r == fixed(change.value) + "%"
  {
    match change
    case None => Insufficient
    case Some(c) => if c > 0.0 then "+" + fixed(c) + "%" else fixed(c) + "%"
  }

  /** The rendered change tells the reader what happened: "数据不足" exactly
      when there is no change, a trailing `%` otherwise, and a leading `+`
      exactly for a rise (a `:.2f` rendering never starts with `+`). */
  lemma {:induction false} FormatChangeReadsBack(change: Option<real>, fixed: real -> string)
    requires forall x :: fixed(x) == [] || fixed(x)[0] != '+'
    ensures var r := FormatChange(change, fixed);
            (r == Insufficient <==> change.None?) &&
            (change.Some? ==> r[|r| - 1] == '%') &&
            (r[0] == '+' <==> change.Some? && change.value > 0.0)
  {
    var r := FormatChange(change, fixed);
    if change.Some? {
      assert r[|r| - 1] == '%';
      assert Insufficient[|Insufficient| - 1] != '%';
      if change.value <= 0.0 && fixed(change.value) == [] {
        assert r == "%";
      }
    }
  }
}
