/** The `config.env` reader of the command-line entry point: two default
    URLs, overridden or extended by `key=value` lines; blank lines and `#`
    comments are skipped, and a line without `=` ends the reading (the
    unpacking raises, and the exception handler keeps what was read). */
module Config {
  import opened Wrappers
  import opened Text

  const CsdnKey := "CSDN_URL"
  const ToutiaoKey := "TOUTIAO_URL"
  const CsdnDefault := "https://blog.csdn.net/qq_34598061"
  const ToutiaoDefault := "https://www.toutiao.com/c/user/token/MS4wLjABAAAA-vxeZNtd-323uOaHVG-qQJnP0kL3_QSOTO85-9GJPXo/"

  const Defaults: map<string, string> := map[CsdnKey := CsdnDefault, ToutiaoKey := ToutiaoDefault]

  /** What one line of the file is, once stripped. */
  datatype LineKind = Skip | Entry(key: string, value: string) | Malformed

  /** A stripped line that is empty or starts with `#`. */
  predicate IsSkipped(line: string) {
    var s := Strip(line);
    s == [] || s[0] == '#'
  }

  function Classify(line: string): LineKind {
    var s := Strip(line);
    if s == [] || s[0] == '#' then Skip
    else match IndexOf(s, '=')
      case None => Malformed
      case Some(i) => Entry(Strip(s[..i]), Strip(s[i + 1..]))
  }

  /** A line is skipped exactly when it is blank or a comment once stripped,
      and malformed exactly when it is neither and has no `=`; a key never
      holds `=`, since it is split off at the first one. */
  lemma {:induction false} ClassifyCases(line: string)
    ensures var k := Classify(line);
            (k.Skip? <==> IsSkipped(line)) &&
            (k.Malformed? <==> !IsSkipped(line) && '=' !in Strip(line)) &&
            (k.Entry? ==> '=' !in k.key)
  {
    var s := Strip(line);
    if !IsSkipped(line) && '=' in s {
      var i := IndexOf(s, '=').value;
      assert '=' !in s[..i];
      StripSub(s[..i]);
    }
  }

  /** Strip only removes characters. */
  lemma {:induction false} StripSub(s: string)
    ensures forall c :: c in Strip(s) ==> c in s
  {
    var t := s[Span(s, IsSpace)..];
    // Strip(s) is a slice of a slice of s.
    assert Strip(s) == t[..|t| - SpanEnd(t, IsSpace)];
  }

  /** The dictionary after the loop has run over `lines`, starting from c. */
  function Apply(c: map<string, string>, lines: seq<string>): (r: map<string, string>)
    ensures c.Keys <= r.Keys
    decreases |lines|
  {
    if lines == [] then c
    else match Classify(lines[0])
      case Skip => Apply(c, lines[1..])
      case Malformed => c
      case Entry(k, v) => Apply(c[k := v], lines[1..])
  }

  /** The dictionary `load_config` returns; None is a missing file. */
  function Loaded(file: Option<seq<string>>): map<string, string> {
    match file
    case None => Defaults
    case Some(lines) => Apply(Defaults, lines)
  }

  /** `load_config`, with the file's lines as input. */
  method LoadConfig(file: Option<seq<string>>) returns (config: map<string, string>)
    ensures config == Loaded(file)
    ensures CsdnKey in config && ToutiaoKey in config
  {
    config := Defaults;
    if file.Some? {
      var lines := file.value;
      var i := 0;
      while i < |lines|
        invariant 0 <= i <= |lines|
        invariant Apply(config, lines[i..]) == Apply(Defaults, lines)
      {
        assert lines[i..][0] == lines[i] && lines[i..][1..] == lines[i + 1..];
        var line := Strip(lines[i]);
        if line != [] && line[0] != '#' {
          var eq := IndexOf(line, '=');
          if eq.None? {
            // `key, value = line.split('=', 1)` raises; the handler returns
            // what was read so far.
            return;
          }
          var k := eq.value;
          config := config[Strip(line[..k]) := Strip(line[k + 1..])];
        }
        i := i + 1;
      }
    }
  }

  // ---------------------------------------------------------------------------
  // What the reader promises
  // ---------------------------------------------------------------------------

  /** With no file the result is exactly the two default URLs. */
  lemma {:induction false} NoFileDefaults()
    ensures Loaded(None) == map["CSDN_URL" := "https://blog.csdn.net/qq_34598061",
                                "TOUTIAO_URL" := "https://www.toutiao.com/c/user/token/MS4wLjABAAAA-vxeZNtd-323uOaHVG-qQJnP0kL3_QSOTO85-9GJPXo/"]
    ensures |Loaded(None).Keys| == 2
  {
  }

  /** A blank or comment line changes nothing. */
  lemma {:induction false} SkippedLineIgnored(c: map<string, string>, line: string, rest: seq<string>)
    requires IsSkipped(line)
    ensures Apply(c, [line] + rest) == Apply(c, rest)
  {
    assert ([line] + rest)[1..] == rest;
  }

  /** An entry line is split at its first `=` only: the value keeps any later
      `=`, and both sides are stripped. */
  lemma {:induction false} SplitAtFirstEquals(c: map<string, string>, key: string, value: string, rest: seq<string>)
    requires '=' !in key
    requires var line := key + "=" + value;
             !IsSpace(line[0]) && !IsSpace(line[|line| - 1]) && line[0] != '#'
    ensures Apply(c, [key + "=" + value] + rest) == Apply(c[Strip(key) := Strip(value)], rest)
  {
    ClassifyEntry(key, value);
    ApplyEntry(c, key + "=" + value, rest);
  }

  /** An entry line as the first line: its pair is stored and the rest read. */
  lemma {:induction false} ApplyEntry(c: map<string, string>, line: string, rest: seq<string>)
    requires Classify(line).Entry?
    ensures Apply(c, [line] + rest) == Apply(c[Classify(line).key := Classify(line).value], rest)
  {
    var all := [line] + rest;
    assert all[0] == line && all[1..] == rest;
  }

  lemma {:induction false} ClassifyEntry(key: string, value: string)
    requires '=' !in key
    requires var line := key + "=" + value;
             !IsSpace(line[0]) && !IsSpace(line[|line| - 1]) && line[0] != '#'
    ensures Classify(key + "=" + value) == Entry(Strip(key), Strip(value))
  {
    var line := key + "=" + value;
    assert Strip(line) == line;
    IndexOfAfter(key, '=', value);
    assert line == key + ['='] + value;
    ClassifyAt(line, |key|);
    assert line[..|key|] == key && line[|key| + 1..] == value;
  }

  /** A stripped line, not a comment, whose first `=` is at i. */
  lemma {:induction false} ClassifyAt(s: string, i: nat)
    requires s != [] && Strip(s) == s && s[0] != '#'
    requires IndexOf(s, '=') == Some(i)
    ensures Classify(s) == Entry(Strip(s[..i]), Strip(s[i + 1..]))
  {
  }

  /** No line of `lines` stops the reading. */
  predicate Completes(lines: seq<string>) {
    forall j :: 0 <= j < |lines| ==> !Classify(lines[j]).Malformed?
  }

  /** Reading in two parts, when the first part does not stop. */
  lemma {:induction false} ApplyAppend(c: map<string, string>, lines: seq<string>, more: seq<string>)
    requires Completes(lines)
    ensures Apply(c, lines + more) == Apply(Apply(c, lines), more)
    decreases |lines|
  {
    if lines == [] {
      assert lines + more == more;
    } else {
      assert (lines + more)[0] == lines[0];
      assert (lines + more)[1..] == lines[1..] + more;
      assert Completes(lines[1..]) by {
        forall j | 0 <= j < |lines[1..]| ensures !Classify(lines[1..][j]).Malformed? {
          assert lines[1..][j] == lines[j + 1];
        }
      }
      var kind := Classify(lines[0]);
      assert !kind.Malformed?;
      if kind.Skip? {
        ApplyAppend(c, lines[1..], more);
        assert Apply(c, lines + more) == Apply(c, lines[1..] + more);
      } else {
        ApplyAppend(c[kind.key := kind.value], lines[1..], more);
        assert Apply(c, lines + more) == Apply(c[kind.key := kind.value], lines[1..] + more);
      }
    }
  }

  /** A later entry overrides earlier entries and the defaults, and a new key
      is added. */
  lemma {:induction false} LaterOverrides(c: map<string, string>, lines: seq<string>, line: string)
    requires Completes(lines) && Classify(line).Entry?
    ensures var e := Classify(line);
            Apply(c, lines + [line]) == Apply(c, lines)[e.key := e.value]
  {
    ApplyAppend(c, lines, [line]);
    assert [line][1..] == [];
  }

  /** A line without `=` stops the reading; what was read before it is kept
      and nothing after it is read. */
  lemma {:induction false} MalformedStops(c: map<string, string>, before: seq<string>, bad: string, after: seq<string>)
    requires Classify(bad).Malformed?
    ensures Apply(c, before + [bad] + after) == Apply(c, before)
    decreases |before|
  {
    if before == [] {
      assert before + [bad] + after == [bad] + after;
    } else {
      var all := before + [bad] + after;
      assert all[0] == before[0];
      assert all[1..] == before[1..] + [bad] + after;
      match Classify(before[0])
      case Skip => MalformedStops(c, before[1..], bad, after);
      case Malformed =>
      case Entry(k, v) => MalformedStops(c[k := v], before[1..], bad, after);
    }
  }

  /** A key that no line assigns keeps its starting value. */
  lemma {:induction false} UntouchedKeyKept(c: map<string, string>, lines: seq<string>, k: string)
    requires k in c
    requires forall j :: 0 <= j < |lines| ==> !(Classify(lines[j]).Entry? && Classify(lines[j]).key == k)
    ensures Apply(c, lines)[k] == c[k]
    decreases |lines|
  {
    if lines != [] {
      assert forall j :: 0 <= j < |lines[1..]| ==> lines[1..][j] == lines[j + 1];
      match Classify(lines[0])
      case Skip => UntouchedKeyKept(c, lines[1..], k);
      case Malformed =>
      case Entry(k', v) =>
        assert k' != k;
        UntouchedKeyKept(c[k' := v], lines[1..], k);
    }
  }
}
