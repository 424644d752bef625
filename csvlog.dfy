/** The per-platform statistics logs: comma-separated text files that the
    scrapers only ever extend, writing the column header once, when the file
    is created. A file is modelled as `Option<seq<string>>`: None while it does
    not exist, otherwise its lines in order, without line terminators. */
module CsvLog {
  import opened Wrappers
  import opened Text

  /** One log line: the fields joined with commas, without any quoting. By
      section 2 of RFC 4180 such a line is a well-formed record exactly when
      no field contains a comma, a double quote or a line break. */
  function Row(fields: seq<string>): string {
    Join(fields, ',')
  }

  /** How `csv.reader` reads back a line that contains no double quote: an
      empty line is an empty row, any other line is split at every comma. */
  function Fields(line: string): seq<string> {
    if line == [] then [] else Split(line, ',')
  }

  /** A row of at least two comma-free fields reads back as those fields. */
  lemma {:induction false} FieldsOfRow(fields: seq<string>)
    requires |fields| >= 2 && NoneContains(fields, ',')
    ensures Fields(Row(fields)) == fields
  {
    JoinCons(fields[0], fields[1..], ',');
    assert [fields[0]] + fields[1..] == fields;
    SplitJoin(fields, ',');
  }

  /** The file after one append: `os.path.isfile` decides whether the header
      is written first, then the row is added at the end. */
  function Appended(file: Option<seq<string>>, header: string, row: string): Option<seq<string>> {
    match file
    case None => Some([header, row])
    case Some(lines) => Some(lines + [row])
  }

  /** The file after a sequence of appends, one per row, in order. */
  function AppendedAll(file: Option<seq<string>>, header: string, rows: seq<string>): Option<seq<string>>
    decreases |rows|
  {
    if rows == [] then file
    else AppendedAll(Appended(file, header, rows[0]), header, rows[1..])
  }

  /** Appending to an existing file keeps every line it had, in place, and
      adds the rows after them: nothing is rewritten, nothing reordered. */
  lemma {:induction false} ExistingLinesKept(lines: seq<string>, header: string, rows: seq<string>)
    ensures AppendedAll(Some(lines), header, rows) == Some(lines + rows)
    decreases |rows|
  {
    if rows != [] {
      assert AppendedAll(Some(lines), header, rows) == AppendedAll(Some(lines + [rows[0]]), header, rows[1..]);
      ExistingLinesKept(lines + [rows[0]], header, rows[1..]);
      assert lines + [rows[0]] + rows[1..] == lines + rows;
    } else {
      assert lines + rows == lines;
    }
  }

  /** Appending N rows, possibly over many runs, to a file that did not exist
      yields exactly one header line followed by the N rows. */
  lemma {:induction false} HeaderWrittenOnce(header: string, rows: seq<string>)
    requires rows != []
    ensures AppendedAll(None, header, rows) == Some([header] + rows)
  {
    ExistingLinesKept([header, rows[0]], header, rows[1..]);
    assert [header, rows[0]] + rows[1..] == [header] + rows;
  }

  /** When no data row equals the header, the header occurs exactly once in the
      file that N appends create. */
  lemma {:induction false} HeaderCountedOnce(header: string, rows: seq<string>)
    requires rows != [] && header !in rows
    ensures AppendedAll(None, header, rows).Some?
    ensures multiset(AppendedAll(None, header, rows).value)[header] == 1
  {
    HeaderWrittenOnce(header, rows);
    assert multiset([header] + rows) == multiset([header]) + multiset(rows);
  }

  /** The readings of the clock one scraper call takes, each formatted
      `%Y-%m-%d %H:%M:%S`: the one stored in the returned record, the second
      one written at the head of the log row, and the one an error record
      carries. */
  datatype Stamps = Stamps(record: string, row: string, failure: string)

  /** A log file on disk. The scrapers open it with mode 'a', write, and close
      it again, so a method call is one complete append. */
  class LogFile {
    /** None while the file does not exist; otherwise its lines in order. */
    var lines: Option<seq<string>>

    constructor (existing: Option<seq<string>>)
      ensures lines == existing
    {
      lines := existing;
    }

    /** `file_exists = os.path.isfile(path)`, then in mode 'a': the header when
        the file did not exist, then the row. */
    method Append(header: string, row: string)
      modifies this
      ensures lines == Appended(old(lines), header, row)
      ensures lines.Some? && lines.value[|lines.value| - 1] == row
      ensures old(lines).Some? ==> lines.value[..|old(lines).value|] == old(lines).value
      ensures old(lines).None? ==> lines.value[0] == header
    {
      var fileExists := lines.Some?;
      if !fileExists {
        lines := Some([header, row]);
      } else {
        lines := Some(lines.value + [row]);
      }
    }
  }
}
