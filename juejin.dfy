/** The Juejin scraper: each of the four counters is read from the div that
    follows its label, then, while still unresolved, from the page text by a
    pattern; the counters are sanitised and checked for completeness, and a complete sample is
    appended to `data/juejin_stats.csv`. */
module Juejin {
  import opened Wrappers
  import opened Text
  import opened Lists
  import opened Pattern
  import opened Validation
  import opened CsvLog

  // ---------------------------------------------------------------------------
  // The page as the cascade sees it
  // ---------------------------------------------------------------------------

  /** A div element, in document order: its `.string` (None unless the div
      holds a single string) and its `.text`. */
  datatype Div = Div(str: Option<string>, text: string)

  /** The divs of the page in document order, `soup.get_text()`, and the
      bodies of its `application/ld+json` scripts. */
  datatype Page = Page(divs: seq<Div>, text: string, scripts: seq<Option<string>>)

  /** The four counters, as the text found for each. */
  datatype Counts = Counts(likes: string, articleReads: string, following: string, followers: string)

  /** The value a counter holds until a stage finds it. */
  const Unresolved := "0"

  const LikesLabel := "文章被点赞"
  const ReadsLabel := "文章被阅读"
  const FollowingLabel := "关注了"
  const FollowersLabel := "关注者"

  /** The fallback patterns: the label, optional whitespace, the number. Only
      the reads pattern lets the number hold thousands separators. */
  const LikesPattern := NumPattern(LikesLabel, Spaces, false, "")
  const ReadsPattern := NumPattern(ReadsLabel, Spaces, true, "")
  const FollowingPattern := NumPattern(FollowingLabel, Spaces, false, "")
  const FollowersPattern := NumPattern(FollowersLabel, Spaces, false, "")

  // ---------------------------------------------------------------------------
  // The stages
  // ---------------------------------------------------------------------------

  /** `soup.find('div', string=re.compile(label))` accepts this div. */
  predicate Labels(caption: string, d: Div) {
    d.str.Some? && Contains(d.str.value, caption)
  }

  function LabelledBy(caption: string): Div -> bool {
    d => Labels(caption, d)
  }

  /** The label stage: the stripped text of the div that follows the first div
      whose string holds the label; "0" when there is no such div or nothing
      follows it. */
  function NextToLabel(divs: seq<Div>, caption: string): string {
    match FirstWhere(divs, LabelledBy(caption))
    case None => Unresolved
    case Some(k) => if k + 1 < |divs| then Strip(divs[k + 1].text) else Unresolved
  }

  /** The pattern stage for one counter: it searches the page text only while
      the counter is unresolved, and keeps the counter when nothing matches. */
  function Fallback(current: string, p: NumPattern, text: string): string {
    if current == Unresolved then Search(p, text).GetOr(current) else current
  }

  /** All four counters through both stages. The `application/ld+json`
      scripts are parsed and the result discarded, so they do not appear. */
  function Cascade(page: Page): Counts {
    Counts(
      Fallback(NextToLabel(page.divs, LikesLabel), LikesPattern, page.text),
      Fallback(NextToLabel(page.divs, ReadsLabel), ReadsPattern, page.text),
      Fallback(NextToLabel(page.divs, FollowingLabel), FollowingPattern, page.text),
      Fallback(NextToLabel(page.divs, FollowersLabel), FollowersPattern, page.text))
  }

  /** The cascade as the scraper runs it: four locals, reassigned by the label
      stage, then by the pattern stage where still "0", then left alone by the
      structured-data stage. */
  method ExtractCounts(page: Page) returns (c: Counts)
    ensures c == Cascade(page)
  {
    var likes, articleReads, following, followers := Unresolved, Unresolved, Unresolved, Unresolved;
    likes := NextToLabel(page.divs, LikesLabel);
    articleReads := NextToLabel(page.divs, ReadsLabel);
    following := NextToLabel(page.divs, FollowingLabel);
    followers := NextToLabel(page.divs, FollowersLabel);

    if likes == Unresolved {
      var m := Search(LikesPattern, page.text);
      if m.Some? {
        likes := m.value;
      }
    }
    if articleReads == Unresolved {
      var m := Search(ReadsPattern, page.text);
      if m.Some? {
        articleReads := m.value;
      }
    }
    if following == Unresolved {
      var m := Search(FollowingPattern, page.text);
      if m.Some? {
        following := m.value;
      }
    }
    if followers == Unresolved {
      var m := Search(FollowersPattern, page.text);
      if m.Some? {
        followers := m.value;
      }
    }
    c := Counts(likes, articleReads, following, followers);
  }

  // ---------------------------------------------------------------------------
  // What the cascade promises
  // ---------------------------------------------------------------------------

  /** The label stage reads the div right after the first labelled div. */
  lemma {:induction false} NextToFirstLabel(divs: seq<Div>, caption: string, k: nat)
    requires k + 1 < |divs| && Labels(caption, divs[k])
    requires forall j :: 0 <= j < k ==> !Labels(caption, divs[j])
    ensures NextToLabel(divs, caption) == Strip(divs[k + 1].text)
  {
    FirstWhereUnique(divs, LabelledBy(caption), k);
  }

  /** Without a labelled div the label stage finds nothing. */
  lemma {:induction false} NoLabelUnresolved(divs: seq<Div>, caption: string)
    requires forall j :: 0 <= j < |divs| ==> !Labels(caption, divs[j])
    ensures NextToLabel(divs, caption) == Unresolved
  {
    FirstWhereNone(divs, LabelledBy(caption));
  }

  /** An earlier stage wins: a counter the label stage resolved is kept, and
      the pattern stage decides a counter only when the label stage left it at
      "0", in which case it takes the leftmost match or keeps "0". */
  lemma {:induction false} FallbackOnlyUnresolved(current: string, p: NumPattern, text: string)
    ensures current != Unresolved ==> Fallback(current, p, text) == current
    ensures current == Unresolved ==> Fallback(current, p, text) == Search(p, text).GetOr(Unresolved)
  {
  }

  /** A pattern finds a number only after its label: when the label is not in
      the page text, the counter stays "0". */
  lemma {:induction false} FallbackNeedsLabel(p: NumPattern, text: string)
    requires !Contains(text, p.lead)
    ensures Fallback(Unresolved, p, text) == Unresolved
  {
    NoLeadNoMatch(p, text);
  }

  /** The pattern stage yields a run of digits for likes, following and
      followers, and a run of digits and commas for reads. */
  lemma {:induction false} FallbackShape(page: Page)
    ensures var c := Cascade(page);
            var likesLabelled := NextToLabel(page.divs, LikesLabel);
            (likesLabelled == Unresolved ==> IsDigitText(c.likes)) &&
            (NextToLabel(page.divs, FollowingLabel) == Unresolved ==> IsDigitText(c.following)) &&
            (NextToLabel(page.divs, FollowersLabel) == Unresolved ==> IsDigitText(c.followers)) &&
            (NextToLabel(page.divs, ReadsLabel) == Unresolved ==>
               c.articleReads != [] && forall i :: 0 <= i < |c.articleReads| ==> IsDigitOrComma(c.articleReads[i]))
  {
    DigitFallback(LikesPattern, page.text);
    DigitFallback(FollowingPattern, page.text);
    DigitFallback(FollowersPattern, page.text);
    ReadsFallback(page.text);
  }

  /** A `\d+` pattern tried on an unresolved counter leaves digits. */
  lemma {:induction false} DigitFallback(p: NumPattern, text: string)
    requires !p.commas
    ensures IsDigitText(Fallback(Unresolved, p, text))
  {
    if Search(p, text).Some? {
      SearchDigits(p, text);
    }
  }

  /** The `[\d,]+` pattern tried on an unresolved counter leaves digits and
      commas. */
  lemma {:induction false} ReadsFallback(text: string)
    ensures var f := Fallback(Unresolved, ReadsPattern, text);
            f != [] && forall i :: 0 <= i < |f| ==> IsDigitOrComma(f[i])
  {
    if Search(ReadsPattern, text).Some? {
      assert GroupClass(ReadsPattern) == IsDigitOrComma;
    }
  }

  /** The structured-data stage changes nothing: the counters do not depend on
      the scripts at all. This holds because Cascade never reads the scripts;
      the stage's loop only parses them into a `data` that nothing reads. */
  lemma {:induction false} ScriptsIgnored(page: Page, scripts: seq<Option<string>>)
    ensures Cascade(page.(scripts := scripts)) == Cascade(page)
  {
  }

  // ---------------------------------------------------------------------------
  // Sanitise, test, store
  // ---------------------------------------------------------------------------

  function Fields(c: Counts): seq<string> {
    [c.likes, c.articleReads, c.following, c.followers]
  }

  /** Each counter with its non-digits removed, an empty one replaced by "0". */
  function Sanitised(c: Counts): (r: Counts)
    ensures forall i :: 0 <= i < 4 ==> Fields(r)[i] == Sanitise(Fields(c)[i])
  {
    var r := Counts(Sanitise(c.likes), Sanitise(c.articleReads), Sanitise(c.following), Sanitise(c.followers));
    assert forall i :: 0 <= i < 4 ==> Fields(r)[i] == Sanitise(Fields(c)[i]) by {
      forall i | 0 <= i < 4 ensures Fields(r)[i] == Sanitise(Fields(c)[i]) {
        if i == 0 {} else if i == 1 {} else if i == 2 {} else {}
      }
    }
    r
  }

  /** The sanitised counters of a fetched page. */
  function Sample(page: Page): Counts {
    Sanitised(Cascade(page))
  }

  /** The dictionary `extract_juejin_stats` returns. */
  datatype JuejinStats = JuejinStats(
    timestamp: string,
    likes: string,
    articleReads: string,
    following: string,
    followers: string,
    site: string,
    dataComplete: bool)

  const Site := "掘金"
  const Header := "更新时间,文章点赞,文章阅读,关注了,关注者"
  const ErrorText := "Error"

  /** What the scraper returns after any exception. */
  function ErrorRecord(stamp: string): JuejinStats {
    JuejinStats(stamp, ErrorText, ErrorText, ErrorText, ErrorText, Site, false)
  }

  function Record(stamp: string, c: Counts, complete: bool): JuejinStats {
    JuejinStats(stamp, c.likes, c.articleReads, c.following, c.followers, Site, complete)
  }

  /** The log row: the second clock reading, then likes, reads, following and
      followers. */
  function LogRow(stamp: string, c: Counts): string {
    Row([stamp] + Fields(c))
  }

  /** The record returned and the log file left by one call. `fetched` is None
      when the page could not be fetched or was empty; storeOk says whether
      the data directory and the log file can be created and written. */
  function Outcome(fetched: Option<Page>, file: Option<seq<string>>, clock: Stamps, storeOk: bool): (JuejinStats, Option<seq<string>>) {
    match fetched
    case None => (ErrorRecord(clock.failure), file)
    case Some(page) => Stored(Sample(page), file, clock, storeOk)
  }

  /** The record returned and the log left once the sanitised counters c are
      known: the test, then the append of a complete sample. */
  function Stored(c: Counts, file: Option<seq<string>>, clock: Stamps, storeOk: bool): (JuejinStats, Option<seq<string>>) {
    match Settle(Fields(c), file, Header, clock.row, storeOk)
    case Failed => (ErrorRecord(clock.failure), file)
    case Settled(complete, after) => (Record(clock.record, c, complete), after)
  }

  /** `extract_juejin_stats`: run the cascade, sanitise, test, and append the
      sample to the log when it is complete. */
  method ExtractJuejinStats(fetched: Option<Page>, log: LogFile, clock: Stamps, storeOk: bool) returns (stats: JuejinStats)
    modifies log
    ensures (stats, log.lines) == Outcome(fetched, old(log.lines), clock, storeOk)
  {
    if fetched.None? {
      return ErrorRecord(clock.failure);
    }
    var raw := ExtractCounts(fetched.value);
    var c := Sanitised(raw);
    assert c == Sample(fetched.value);
    var check := AllPositive(Conversions(Fields(c)));
    if check.Raised? {
      return ErrorRecord(clock.failure);
    }
    var dataComplete := check.complete;
    if dataComplete {
      if !storeOk {
        return ErrorRecord(clock.failure);
      }
      log.Append(Header, LogRow(clock.row, c));
    }
    stats := Record(clock.record, c, dataComplete);
  }

  // ---------------------------------------------------------------------------
  // What a call promises
  // ---------------------------------------------------------------------------

  /** The sample is complete exactly when the page was fetched, likes, reads,
      following and followers are all numbers above 0, and the log could be
      written. */
  lemma {:induction false} CompleteIff(fetched: Option<Page>, file: Option<seq<string>>, clock: Stamps, storeOk: bool)
    ensures Outcome(fetched, file, clock, storeOk).0.dataComplete <==>
            fetched.Some? && storeOk && forall i :: 0 <= i < 4 ==> Positive(Fields(Sample(fetched.value))[i])
  {
    if fetched.Some? {
      SettleComplete(Fields(Sample(fetched.value)), file, Header, clock.row, storeOk);
    }
  }

  /** The log is either left as it was or extended by the sample's row, and it
      is extended exactly when the returned record is complete. */
  lemma {:induction false} AppendOnlyWhenComplete(fetched: Option<Page>, file: Option<seq<string>>, clock: Stamps, storeOk: bool)
    ensures var (stats, after) := Outcome(fetched, file, clock, storeOk);
            (stats.dataComplete ==> after == Appended(file, Header, LogRow(clock.row, Sample(fetched.value)))) &&
            (!stats.dataComplete ==> after == file)
  {
    if fetched.Some? {
      SettleAppendsOnlyComplete(Fields(Sample(fetched.value)), file, Header, clock.row, storeOk);
    }
  }

  /** Missing page content gives the error record and leaves the log alone. */
  lemma {:induction false} FetchFailureIsError(file: Option<seq<string>>, clock: Stamps, storeOk: bool)
    ensures Outcome(None, file, clock, storeOk) == (ErrorRecord(clock.failure), file)
  {
  }

  /** A counter with text but no digit sanitises to "", and `int("")` raises
      when every counter before it is positive: the call gives the error record
      and writes nothing. */
  lemma {:induction false} DigitlessCounterIsError(page: Page, file: Option<seq<string>>, clock: Stamps, storeOk: bool, i: nat)
    requires i < 4
    requires var raw := Fields(Cascade(page)); raw[i] != [] && !HasDigit(raw[i])
    requires forall j :: 0 <= j < i ==> Positive(Fields(Sample(page))[j])
    ensures Outcome(Some(page), file, clock, storeOk) == (ErrorRecord(clock.failure), file)
  {
    SanitisedRaises(Fields(Cascade(page))[i]);
    SettleFailsOnRaise(Fields(Sample(page)), file, Header, clock.row, storeOk, i);
  }

  /** Unless it is the error record, the returned record carries exactly the
      sanitised counters that were checked. */
  lemma {:induction false} RecordCarriesSample(page: Page, file: Option<seq<string>>, clock: Stamps, storeOk: bool)
    requires Outcome(Some(page), file, clock, storeOk).0 != ErrorRecord(clock.failure)
    ensures var stats := Outcome(Some(page), file, clock, storeOk).0;
            var c := Sample(page);
            stats.timestamp == clock.record && stats.site == Site &&
            stats.likes == c.likes && stats.articleReads == c.articleReads &&
            stats.following == c.following && stats.followers == c.followers
  {
  }

  /** The row reads back as the stamp and the four counters, in the order
      likes, reads, following, followers: the counters are digits, so none
      holds a comma. */
  lemma {:induction false} LogRowFields(stamp: string, page: Page)
    requires ',' !in stamp
    ensures CsvLog.Fields(LogRow(stamp, Sample(page))) == [stamp] + Fields(Sample(page))
  {
    var c := Sample(page);
    assert IsDigits(c.likes) && IsDigits(c.articleReads) && IsDigits(c.following) && IsDigits(c.followers);
    RowOfDigits(stamp, c);
  }

  /** A row of a comma-free stamp and four digit counters reads back as those
      five fields. */
  lemma {:induction false} RowOfDigits(stamp: string, c: Counts)
    requires ',' !in stamp
    requires IsDigits(c.likes) && IsDigits(c.articleReads) && IsDigits(c.following) && IsDigits(c.followers)
    ensures CsvLog.Fields(LogRow(stamp, c)) == [stamp] + Fields(c)
  {
    var fields := [stamp] + Fields(c);
    forall i | 1 <= i < 5 ensures ',' !in fields[i] {
      DigitsExclude(fields[i], ',');
    }
    FieldsOfRow(fields);
  }
}
