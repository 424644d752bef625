/** The Toutiao scraper, from the point where the browser has the profile
    page: likes, fans and follows are read from the page text by pattern, or
    marked not found; the row is appended to `toutiao_stats.csv` whatever it
    holds; the JavaScript stage is tried when something was not found; and
    the browser is quit only when this call created it. */
module Toutiao {
  import opened Wrappers
  import opened Text
  import opened Pattern
  import opened CsvLog

  const LikesPattern := NumPattern("", Adjacent, false, "获赞")
  const FansPattern := NumPattern("", Adjacent, false, "粉丝")
  const FollowsPattern := NumPattern("", Adjacent, false, "关注")

  /** What a field holds when its pattern does not match. */
  const NotFound := "未找到"

  const Header := "更新时间,获赞数,粉丝数,关注数"

  /** `m.group(1) if m else "未找到"` for `m = re.search(pattern, text)`. */
  function Field(p: NumPattern, text: string): string {
    match Search(p, text)
    case None => NotFound
    case Some(g) => g
  }

  /** The dictionary the scraper returns. */
  datatype ToutiaoStats = ToutiaoStats(timestamp: string, likes: string, fans: string, follows: string)

  /** What one call leaves behind: the returned dictionary (None for `return
      None`), the log file, whether the JavaScript stage was entered, and
      whether the browser was quit. */
  datatype Run = Run(result: Option<ToutiaoStats>, file: Option<seq<string>>, jsAttempted: bool, quit: bool)

  /** Some field is the sentinel. */
  predicate AnyNotFound(likes: string, fans: string, follows: string) {
    likes == NotFound || fans == NotFound || follows == NotFound
  }

  /** One call of `parse_toutiao_user_stats`. pagePassed says whether the
      caller handed in a browser page; browserStarts whether `init_browser`
      returns one when it is needed. text is the text of the page source,
      None when navigating to the page or saving its snapshot raises. storeOk
      says whether the log can be opened and written. rowStamp and
      returnStamp are the two clock readings, for the row and for the result. */
  function Outcome(pagePassed: bool, browserStarts: bool, text: Option<string>, file: Option<seq<string>>,
                   rowStamp: string, returnStamp: string, storeOk: bool): Run
  {
    var quit := !pagePassed && browserStarts;
    if !pagePassed && !browserStarts then Run(None, file, false, false)
    else match text
      case None => Run(None, file, false, quit)
      case Some(t) =>
        var likes, fans, follows := Field(LikesPattern, t), Field(FansPattern, t), Field(FollowsPattern, t);
        if !storeOk then Run(None, file, false, quit)
        else
          Run(Some(ToutiaoStats(returnStamp, likes, fans, follows)),
              Appended(file, Header, Row([rowStamp, likes, fans, follows])),
              AnyNotFound(likes, fans, follows), quit)
  }

  /** The call as the scraper runs it. */
  method ParseToutiaoUserStats(pagePassed: bool, browserStarts: bool, text: Option<string>, log: LogFile,
                               rowStamp: string, returnStamp: string, storeOk: bool)
    returns (result: Option<ToutiaoStats>, jsAttempted: bool, quit: bool)
    modifies log
    ensures Run(result, log.lines, jsAttempted, quit) ==
            Outcome(pagePassed, browserStarts, text, old(log.lines), rowStamp, returnStamp, storeOk)
  {
    var browserCreatedHere := false;
    var hasPage := pagePassed;
    result, jsAttempted := None, false;
    if !pagePassed {
      hasPage := browserStarts;
      browserCreatedHere := true;
    }
    if hasPage && text.Some? {
      var t := text.value;
      var likes := Field(LikesPattern, t);
      var fans := Field(FansPattern, t);
      var follows := Field(FollowsPattern, t);
      if storeOk {
        log.Append(Header, Row([rowStamp, likes, fans, follows]));
        if likes == NotFound || fans == NotFound || follows == NotFound {
          // The JavaScript stage only reports what it finds.
          jsAttempted := true;
        }
        result := Some(ToutiaoStats(returnStamp, likes, fans, follows));
      }
    }
    // finally: quit the browser only when this call created it.
    quit := browserCreatedHere && hasPage;
  }

  // ---------------------------------------------------------------------------
  // What a call promises
  // ---------------------------------------------------------------------------

  /** Each field is either the sentinel or a non-empty run of digits, so the
      two can never be confused. */
  lemma {:induction false} FieldShape(p: NumPattern, text: string)
    requires !p.commas
    ensures var f := Field(p, text);
            (f == NotFound <==> Search(p, text).None?) &&
            (f != NotFound ==> IsDigitText(f))
  {
    if Search(p, text).Some? {
      SearchDigits(p, text);
      assert !IsDigit(NotFound[0]);
    }
  }

  /** A found field is the whole run of digits that stands before the label:
      the match starts at the beginning of the text or after a non-digit, and
      ends at a non-digit. */
  lemma {:induction false} FieldIsWholeRun(p: NumPattern, text: string)
    requires p.lead == [] && p.gap == Adjacent && !p.commas
    requires Search(p, text).Some?
    ensures var i := FirstMatch(p, text, 0).value;
            var f := Search(p, text).value;
            i + |f| <= |text| && text[i..i + |f|] == f &&
            (i == 0 || !IsDigit(text[i - 1])) &&
            (i + |f| == |text| || !IsDigit(text[i + |f|]))
  {
    var i, e := FieldBounds(p, text);
    RunEndsAt(text, i, e - i, Search(p, text).value);
  }

  /** Where the captured digits begin and end, and that no digit lies just
      outside them. */
  lemma {:induction false} FieldBounds(p: NumPattern, text: string) returns (i: nat, e: nat)
    requires p.lead == [] && p.gap == Adjacent && !p.commas
    requires Search(p, text).Some?
    ensures i == FirstMatch(p, text, 0).value && i <= e <= |text| && Search(p, text).value == text[i..e]
    ensures i == 0 || !IsDigit(text[i - 1])
    ensures e == |text| || !IsDigit(text[e])
  {
    i := FirstMatch(p, text, 0).value;
    GroupIsWholeRun(p, text);
    MatchFromStart(p, text, i);
    SearchSlice(p, text);
    e := MatchAt(p, text, i).value.1;
    if i > 0 {
      assert GroupClass(p)(text[i - 1]) == IsDigit(text[i - 1]);
    }
  }

  /** A match of an `(\d+)\s*label` pattern at i captures from i to the end
      of the run of digits there. */
  lemma {:induction false} MatchFromStart(p: NumPattern, text: string, i: nat)
    requires p.lead == [] && p.gap == Adjacent && !p.commas
    requires i <= |text| && MatchAt(p, text, i).Some?
    ensures var (q, e) := MatchAt(p, text, i).value;
            q == i && (e == |text| || !IsDigit(text[e]))
  {
    assert [] <= text[i..];
    assert GroupStart(p, text, i) == Some(i);
  }

  /** The row is written whatever the fields hold, sentinels included, and the
      returned fields are exactly the written ones. */
  lemma {:induction false} RowAlwaysWritten(pagePassed: bool, browserStarts: bool, text: Option<string>, file: Option<seq<string>>,
                         rowStamp: string, returnStamp: string, storeOk: bool)
    ensures var run := Outcome(pagePassed, browserStarts, text, file, rowStamp, returnStamp, storeOk);
            match run.result
            case None => run.file == file
            case Some(r) => r.timestamp == returnStamp && run.file == Appended(file, Header, Row([rowStamp, r.likes, r.fans, r.follows]))
  {
  }

  /** A page whose text was read and a writable log always give a result. */
  lemma {:induction false} ResultWhenStored(pagePassed: bool, browserStarts: bool, t: string, file: Option<seq<string>>,
                         rowStamp: string, returnStamp: string)
    requires pagePassed || browserStarts
    ensures Outcome(pagePassed, browserStarts, Some(t), file, rowStamp, returnStamp, true).result ==
            Some(ToutiaoStats(returnStamp, Field(LikesPattern, t), Field(FansPattern, t), Field(FollowsPattern, t)))
  {
  }

  /** No browser, an exception while loading the page, or a log that cannot be
      written: the call returns None and the log is unchanged. */
  lemma {:induction false} FailureIsNone(pagePassed: bool, browserStarts: bool, text: Option<string>, file: Option<seq<string>>,
                      rowStamp: string, returnStamp: string, storeOk: bool)
    requires (!pagePassed && !browserStarts) || text.None? || !storeOk
    ensures var run := Outcome(pagePassed, browserStarts, text, file, rowStamp, returnStamp, storeOk);
            run.result.None? && run.file == file && !run.jsAttempted
  {
  }

  /** The JavaScript stage is entered exactly when a result is produced with
      some field not found; it never changes what is returned. */
  lemma {:induction false} JsGate(pagePassed: bool, browserStarts: bool, text: Option<string>, file: Option<seq<string>>,
               rowStamp: string, returnStamp: string, storeOk: bool)
    ensures var run := Outcome(pagePassed, browserStarts, text, file, rowStamp, returnStamp, storeOk);
            run.jsAttempted <==> run.result.Some? && AnyNotFound(run.result.value.likes, run.result.value.fans, run.result.value.follows)
  {
  }

  /** The browser is quit exactly when this call created it, whatever
      happened afterwards. */
  lemma {:induction false} QuitOnlyOwnBrowser(pagePassed: bool, browserStarts: bool, text: Option<string>, file: Option<seq<string>>,
                           rowStamp: string, returnStamp: string, storeOk: bool)
    ensures Outcome(pagePassed, browserStarts, text, file, rowStamp, returnStamp, storeOk).quit <==> !pagePassed && browserStarts
  {
  }

  /** The row reads back as the stamp and the three fields. */
  lemma {:induction false} RowFieldsRead(rowStamp: string, t: string)
    requires ',' !in rowStamp
    ensures var fields := [rowStamp, Field(LikesPattern, t), Field(FansPattern, t), Field(FollowsPattern, t)];
            CsvLog.Fields(Row(fields)) == fields
  {
    FieldNoComma(LikesPattern, t);
    FieldNoComma(FansPattern, t);
    FieldNoComma(FollowsPattern, t);
    FourFieldsRead(rowStamp, Field(LikesPattern, t), Field(FansPattern, t), Field(FollowsPattern, t));
  }

  /** A row of four comma-free fields reads back as those fields. */
  lemma {:induction false} FourFieldsRead(a: string, b: string, c: string, d: string)
    requires ',' !in a && ',' !in b && ',' !in c && ',' !in d
    ensures CsvLog.Fields(Row([a, b, c, d])) == [a, b, c, d]
  {
    var fields := [a, b, c, d];
    assert NoneContains(fields, ',') by {
      forall i | 0 <= i < 4 ensures ',' !in fields[i] {
        if i == 0 {} else if i == 1 {} else if i == 2 {} else {}
      }
    }
    FieldsOfRow(fields);
  }

  lemma {:induction false} FieldNoComma(p: NumPattern, t: string)
    requires !p.commas
    ensures ',' !in Field(p, t)
  {
    FieldShape(p, t);
    if Field(p, t) != NotFound {
      DigitsExclude(Field(p, t), ',');
    }
  }
}
