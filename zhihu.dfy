/** The Zhihu parser: one statistics record starts with five zero counters,
    meta tags, the profile card and the full page source fill them in turn,
    the sample is appended to `data/zhihu_stats.csv` whatever it holds, and
    the record is marked complete when every counter is above 0. */
module Zhihu {
  import opened Wrappers
  import opened Text
  import opened Pattern
  import opened CsvLog

  // ---------------------------------------------------------------------------
  // The record and the page
  // ---------------------------------------------------------------------------

  /** The `stats` dictionary. */
  datatype ZhihuStats = ZhihuStats(
    upvotes: int,
    likes: int,
    collections: int,
    following: int,
    followers: int,
    timestamp: string,
    site: string,
    dataComplete: bool)

  const Site := "Zhihu"

  /** The record before any stage has run. */
  function Initial(stamp: string): ZhihuStats {
    ZhihuStats(0, 0, 0, 0, 0, stamp, Site, false)
  }

  /** What BeautifulSoup finds in the page: the `content` attribute of the
      meta tags with itemprop `zhihu:voteupCount`, `zhihu:thankedCount` and
      `zhihu:followerCount` (None when the tag or the attribute is missing),
      the text of the first `.css-3n85vb` element and of the first
      `.NumberBoard-itemValue[title]` element. */
  datatype Soup = Soup(
    voteup: Option<string>,
    thanked: Option<string>,
    followerCount: Option<string>,
    card: Option<string>,
    numberBoard: Option<string>)

  /** The page source the parser works on, and what BeautifulSoup finds in it. */
  datatype Document = Document(html: string, soup: Soup)

  const UpvotesPattern := NumPattern("获得", Spaces, false, "次赞同")
  const LikesPattern := NumPattern("获得", Spaces, false, "次喜欢")
  const CollectionsPattern := NumPattern("", Adjacent, false, "次收藏")
  const FollowingPattern := NumPattern("关注了</div><strong", TagRest, false, "")
  const FollowersPattern := NumPattern("关注者</div><strong", TagRest, false, "")

  // ---------------------------------------------------------------------------
  // The stages
  // ---------------------------------------------------------------------------

  /** `if meta and meta.get('content')`: the tag is there with a non-empty
      content. */
  predicate Present(content: Option<string>) {
    content.Some? && content.value != []
  }

  /** `int(content)` raises on a present content. */
  predicate Raises(content: Option<string>) {
    Present(content) && PyInt(content.value).None?
  }

  /** The value a present content sets, or the counter as it was. */
  function MetaValue(content: Option<string>, current: int): int
    requires !Raises(content)
  {
    if Present(content) then PyInt(content.value).value else current
  }

  /** Method 1, the meta tags, in one `try`: upvotes, then likes, then
      followers; the first content `int` rejects ends the stage. */
  function MetaStage(s: ZhihuStats, soup: Soup): ZhihuStats {
    if Raises(soup.voteup) then s
    else
      var s1 := s.(upvotes := MetaValue(soup.voteup, s.upvotes));
      if Raises(soup.thanked) then s1
      else
        var s2 := s1.(likes := MetaValue(soup.thanked, s1.likes));
        if Raises(soup.followerCount) then s2
        else s2.(followers := MetaValue(soup.followerCount, s2.followers))
  }

  /** Method 2, the profile card, in one `try`: collections from the first
      `(\d+)\s*次收藏` in the stripped card text, then following from the
      NumberBoard value, where an `int` that raises ends the stage. */
  function CardStage(s: ZhihuStats, soup: Soup): ZhihuStats {
    var collections :=
      if soup.card.Some? && SearchInt(CollectionsPattern, Strip(soup.card.value)).Some?
      then SearchInt(CollectionsPattern, Strip(soup.card.value)).value as int
      else s.collections;
    var s1 := s.(collections := collections);
    if soup.numberBoard.Some? && PyInt(Strip(soup.numberBoard.value)).Some?
    then s1.(following := PyInt(Strip(soup.numberBoard.value)).value)
    else s1
  }

  /** Some counter is still 0. */
  predicate AnyZero(s: ZhihuStats) {
    s.upvotes == 0 || s.likes == 0 || s.collections == 0 || s.following == 0 || s.followers == 0
  }

  /** A counter of the full-text stage: a match sets it only while it is 0. */
  function FillZero(current: int, found: Option<nat>): int {
    if found.Some? && current == 0 then found.value else current
  }

  /** Method 3, the full page source, consulted only when some counter is 0. */
  function FullTextStage(s: ZhihuStats, html: string): ZhihuStats {
    if !AnyZero(s) then s
    else
      s.(upvotes := FillZero(s.upvotes, SearchInt(UpvotesPattern, html)),
         likes := FillZero(s.likes, SearchInt(LikesPattern, html)),
         collections := FillZero(s.collections, SearchInt(CollectionsPattern, html)),
         following := FillZero(s.following, SearchInt(FollowingPattern, html)),
         followers := FillZero(s.followers, SearchInt(FollowersPattern, html)))
  }

  /** The counters after the three stages. */
  function Counters(doc: Document, stamp: string): ZhihuStats {
    FullTextStage(CardStage(MetaStage(Initial(stamp), doc.soup), doc.soup), doc.html)
  }

  /** The stages only set counters: the record is not yet marked complete. */
  lemma {:induction false} CountersNotYetComplete(doc: Document, stamp: string)
    ensures !Counters(doc, stamp).dataComplete
  {
    var m := MetaStage(Initial(stamp), doc.soup);
    assert !m.dataComplete;
    var c := CardStage(m, doc.soup);
    assert !c.dataComplete;
  }

  /** Every counter is above 0. */
  predicate AllAboveZero(s: ZhihuStats) {
    s.upvotes > 0 && s.likes > 0 && s.collections > 0 && s.following > 0 && s.followers > 0
  }

  // ---------------------------------------------------------------------------
  // Store
  // ---------------------------------------------------------------------------

  const Header := "timestamp,upvotes,likes,collections,following,followers"

  /** The fields `csv.writer` writes for a record: the timestamp, then the
      five counters as decimal text. */
  function RowFields(s: ZhihuStats): seq<string> {
    [s.timestamp, IntText(s.upvotes), IntText(s.likes), IntText(s.collections), IntText(s.following), IntText(s.followers)]
  }

  /** The record returned and the log left by one call. `source` is None when
      the browser path fails before there is a page to parse (DrissionPage
      missing, navigation or the snapshot write raising); storeOk says
      whether the log can be created and written. */
  function Outcome(source: Option<Document>, file: Option<seq<string>>, stamp: string, storeOk: bool): (ZhihuStats, Option<seq<string>>) {
    match source
    case None => (Initial(stamp), file)
    case Some(doc) =>
      var s := Counters(doc, stamp);
      var after := if storeOk then Appended(file, Header, Row(RowFields(s))) else file;
      (s.(dataComplete := AllAboveZero(s)), after)
  }

  /** `extract_zhihu_stats` from the point where the page source is known:
      the dictionary is updated in place by each stage, the row is written,
      and the record is marked complete. */
  method ExtractZhihuStats(source: Option<Document>, log: LogFile, stamp: string, storeOk: bool) returns (stats: ZhihuStats)
    modifies log
    ensures (stats, log.lines) == Outcome(source, old(log.lines), stamp, storeOk)
  {
    stats := Initial(stamp);
    if source.None? {
      return;
    }
    var html, soup := source.value.html, source.value.soup;
    stats := ApplyMetaTags(stats, soup);
    stats := ApplyProfileCard(stats, soup);
    stats := ApplyFullText(stats, html);
    assert stats == Counters(source.value, stamp);
    CountersNotYetComplete(source.value, stamp);
    ghost var counters := stats;

    // Save: a failure is reported and the call goes on.
    if storeOk {
      log.Append(Header, Row(RowFields(stats)));
    }
    assert log.lines == Outcome(source, old(log.lines), stamp, storeOk).1;

    if stats.upvotes > 0 && stats.likes > 0 && stats.collections > 0 && stats.following > 0 && stats.followers > 0 {
      stats := stats.(dataComplete := true);
    }
    assert stats == counters.(dataComplete := AllAboveZero(counters));
  }

  /** Method 1: the meta tags; an exception ends the stage. */
  method ApplyMetaTags(s: ZhihuStats, soup: Soup) returns (stats: ZhihuStats)
    ensures stats == MetaStage(s, soup)
  {
    stats := s;
    var failed := false;
    if Present(soup.voteup) {
      var v := PyInt(soup.voteup.value);
      if v.None? { failed := true; } else { stats := stats.(upvotes := v.value); }
    }
    if !failed && Present(soup.thanked) {
      var v := PyInt(soup.thanked.value);
      if v.None? { failed := true; } else { stats := stats.(likes := v.value); }
    }
    if !failed && Present(soup.followerCount) {
      var v := PyInt(soup.followerCount.value);
      if v.None? { failed := true; } else { stats := stats.(followers := v.value); }
    }
  }

  /** Method 2: the profile card; an exception ends the stage. */
  method ApplyProfileCard(s: ZhihuStats, soup: Soup) returns (stats: ZhihuStats)
    ensures stats == CardStage(s, soup)
  {
    stats := s;
    if soup.card.Some? {
      var m := SearchInt(CollectionsPattern, Strip(soup.card.value));
      if m.Some? {
        stats := stats.(collections := m.value);
      }
    }
    if soup.numberBoard.Some? {
      var v := PyInt(Strip(soup.numberBoard.value));
      if v.Some? {
        stats := stats.(following := v.value);
      }
    }
  }

  /** Method 3: the full page source, when some counter is still 0; each
      counter is set only while it is 0. */
  method ApplyFullText(s: ZhihuStats, html: string) returns (stats: ZhihuStats)
    ensures stats == FullTextStage(s, html)
  {
    stats := s;
    if AnyZero(stats) {
      var m := SearchInt(UpvotesPattern, html);
      if m.Some? && stats.upvotes == 0 { stats := stats.(upvotes := m.value); }
      m := SearchInt(LikesPattern, html);
      if m.Some? && stats.likes == 0 { stats := stats.(likes := m.value); }
      m := SearchInt(CollectionsPattern, html);
      if m.Some? && stats.collections == 0 { stats := stats.(collections := m.value); }
      m := SearchInt(FollowingPattern, html);
      if m.Some? && stats.following == 0 { stats := stats.(following := m.value); }
      m := SearchInt(FollowersPattern, html);
      if m.Some? && stats.followers == 0 { stats := stats.(followers := m.value); }
    }
  }

  // ---------------------------------------------------------------------------
  // What the stages promise
  // ---------------------------------------------------------------------------

  /** The meta stage sets a counter only from a present, non-empty content:
      collections and following are never its business, and a counter whose
      tag or content is missing keeps its value. */
  lemma {:induction false} MetaOnlyPresent(s: ZhihuStats, soup: Soup)
    ensures var r := MetaStage(s, soup);
            r.collections == s.collections && r.following == s.following &&
            r.timestamp == s.timestamp && r.site == s.site && r.dataComplete == s.dataComplete &&
            (!Present(soup.voteup) ==> r.upvotes == s.upvotes) &&
            (!Present(soup.thanked) ==> r.likes == s.likes) &&
            (!Present(soup.followerCount) ==> r.followers == s.followers)
  {
    if !Raises(soup.voteup) {
      var s1 := s.(upvotes := MetaValue(soup.voteup, s.upvotes));
      assert !Present(soup.voteup) ==> s1.upvotes == s.upvotes;
      if !Raises(soup.thanked) {
        var s2 := s1.(likes := MetaValue(soup.thanked, s1.likes));
        assert !Present(soup.thanked) ==> s2.likes == s.likes;
      }
    }
  }

  /** A content that is not an integer ends the meta stage: nothing after it is
      set, everything before it is. */
  lemma {:induction false} MetaAborts(s: ZhihuStats, soup: Soup)
    ensures Raises(soup.voteup) ==> MetaStage(s, soup) == s
    ensures !Raises(soup.voteup) && Raises(soup.thanked) ==>
              MetaStage(s, soup) == s.(upvotes := MetaValue(soup.voteup, s.upvotes))
    ensures !Raises(soup.voteup) && !Raises(soup.thanked) && Present(soup.followerCount) && !Raises(soup.followerCount) ==>
              MetaStage(s, soup).followers == PyInt(soup.followerCount.value).value
  {
  }

  /** The card stage takes collections from the card's first `N 次收藏` and
      following from the NumberBoard value, and touches nothing else. */
  lemma {:induction false} CardSets(s: ZhihuStats, soup: Soup)
    ensures var r := CardStage(s, soup);
            r.upvotes == s.upvotes && r.likes == s.likes && r.followers == s.followers &&
            (soup.card.Some? && Search(CollectionsPattern, Strip(soup.card.value)).Some? ==>
               Some(r.collections) == PyInt(Search(CollectionsPattern, Strip(soup.card.value)).value)) &&
            (soup.card.None? || Search(CollectionsPattern, Strip(soup.card.value)).None? ==> r.collections == s.collections) &&
            (soup.numberBoard.Some? && PyInt(soup.numberBoard.value).Some? ==>
               r.following == PyInt(soup.numberBoard.value).value) &&
            (soup.numberBoard.None? || PyInt(soup.numberBoard.value).None? ==> r.following == s.following) &&
            r.timestamp == s.timestamp && r.site == s.site && r.dataComplete == s.dataComplete
  {
    var r := CardStage(s, soup);
    if soup.card.Some? && Search(CollectionsPattern, Strip(soup.card.value)).Some? {
      var m := SearchInt(CollectionsPattern, Strip(soup.card.value));
      assert r.collections == m.value as int;
      SearchIntValue(CollectionsPattern, Strip(soup.card.value));
    }
    if soup.numberBoard.Some? {
      StripTwice(soup.numberBoard.value);
    }
  }

  /** The full-text stage never overwrites a counter that is not 0, and fills a
      0 counter from its pattern when the pattern matches. */
  lemma {:induction false} FullTextKeepsNonZero(s: ZhihuStats, html: string)
    ensures var r := FullTextStage(s, html);
            (s.upvotes != 0 ==> r.upvotes == s.upvotes) &&
            (s.likes != 0 ==> r.likes == s.likes) &&
            (s.collections != 0 ==> r.collections == s.collections) &&
            (s.following != 0 ==> r.following == s.following) &&
            (s.followers != 0 ==> r.followers == s.followers) &&
            r.timestamp == s.timestamp && r.dataComplete == s.dataComplete
  {
  }

  /** A 0 counter takes the number of the leftmost match of its pattern in the
      page source. */
  lemma {:induction false} FullTextFills(s: ZhihuStats, html: string)
    ensures var r := FullTextStage(s, html);
            (s.upvotes == 0 && Search(UpvotesPattern, html).Some? ==> Some(r.upvotes) == PyInt(Search(UpvotesPattern, html).value)) &&
            (s.likes == 0 && Search(LikesPattern, html).Some? ==> Some(r.likes) == PyInt(Search(LikesPattern, html).value)) &&
            (s.collections == 0 && Search(CollectionsPattern, html).Some? ==>
               Some(r.collections) == PyInt(Search(CollectionsPattern, html).value)) &&
            (s.following == 0 && Search(FollowingPattern, html).Some? ==> Some(r.following) == PyInt(Search(FollowingPattern, html).value)) &&
            (s.followers == 0 && Search(FollowersPattern, html).Some? ==> Some(r.followers) == PyInt(Search(FollowersPattern, html).value))
  {
    if Search(UpvotesPattern, html).Some? {
      SearchIntValue(UpvotesPattern, html);
    }
    if Search(LikesPattern, html).Some? {
      SearchIntValue(LikesPattern, html);
    }
    if Search(CollectionsPattern, html).Some? {
      SearchIntValue(CollectionsPattern, html);
    }
    if Search(FollowingPattern, html).Some? {
      SearchIntValue(FollowingPattern, html);
    }
    if Search(FollowersPattern, html).Some? {
      SearchIntValue(FollowersPattern, html);
    }
  }

  /** With no counter at 0 the page source is not consulted. */
  lemma {:induction false} FullTextGate(s: ZhihuStats, html: string, other: string)
    requires !AnyZero(s)
    ensures FullTextStage(s, html) == FullTextStage(s, other) == s
  {
  }

  // ---------------------------------------------------------------------------
  // What a call promises
  // ---------------------------------------------------------------------------

  /** Without a page the record is the initial one: five 0 counters, not
      complete, and the log is not touched. */
  lemma {:induction false} NoSourceInitial(file: Option<seq<string>>, stamp: string, storeOk: bool)
    ensures var (s, after) := Outcome(None, file, stamp, storeOk);
            s.upvotes == 0 && s.likes == 0 && s.collections == 0 && s.following == 0 && s.followers == 0 &&
            !s.dataComplete && s.timestamp == stamp && after == file
  {
  }

  /** The row is appended whenever the log can be written, complete or not,
      and it carries the counters of the returned record. */
  lemma {:induction false} AppendUnconditional(doc: Document, file: Option<seq<string>>, stamp: string, storeOk: bool)
    ensures var (s, after) := Outcome(Some(doc), file, stamp, storeOk);
            (storeOk ==> after == Appended(file, Header, Row(RowFields(s)))) &&
            (!storeOk ==> after == file)
  {
  }

  /** The record is complete exactly when all five counters are above 0. */
  lemma {:induction false} CompleteIff(doc: Document, file: Option<seq<string>>, stamp: string, storeOk: bool)
    ensures var s := Outcome(Some(doc), file, stamp, storeOk).0;
            s.dataComplete <==> s.upvotes > 0 && s.likes > 0 && s.collections > 0 && s.following > 0 && s.followers > 0
  {
  }

  /** An earlier stage wins: a non-zero followers count from the meta tags
      survives the later stages. */
  lemma {:induction false} MetaFollowersKept(doc: Document, stamp: string, v: int)
    requires !Raises(doc.soup.voteup) && !Raises(doc.soup.thanked)
    requires Present(doc.soup.followerCount) && PyInt(doc.soup.followerCount.value) == Some(v) && v != 0
    ensures Counters(doc, stamp).followers == v
  {
    var s := CardStage(MetaStage(Initial(stamp), doc.soup), doc.soup);
    assert s.followers == v;
    FullTextKeepsNonZero(s, doc.html);
  }

  /** The row reads back as the timestamp and the five counters in the order
      upvotes, likes, collections, following, followers. */
  lemma {:induction false} RowFieldsRead(s: ZhihuStats)
    requires ',' !in s.timestamp
    ensures CsvLog.Fields(Row(RowFields(s))) == RowFields(s)
  {
    IntTextNoComma(s.upvotes);
    IntTextNoComma(s.likes);
    IntTextNoComma(s.collections);
    IntTextNoComma(s.following);
    IntTextNoComma(s.followers);
    FieldsOfRow(RowFields(s));
  }

  // ---------------------------------------------------------------------------
  // parse_html_file
  // ---------------------------------------------------------------------------

  /** What `parse_html_file` returns: the record of the parse, or the short
      record of a file that could not be read. */
  datatype FileStats =
    | Parsed(stats: ZhihuStats)
    | Unreadable(timestamp: string, followers: int, site: string, dataComplete: bool)

  /** `parse_html_file`: `content` is None when the file cannot be read. An
      empty file is not parsed: `extract_zhihu_stats` then takes its browser
      path, whose result is `browser`. */
  function ParseHtmlFile(content: Option<string>, soup: Soup, browser: Option<Document>,
                         file: Option<seq<string>>, stamp: string, storeOk: bool): (FileStats, Option<seq<string>>)
  {
    match content
    case None => (Unreadable(stamp, 0, Site, false), file)
    case Some(html) =>
      var source := if html != [] then Some(Document(html, soup)) else browser;
      var (s, after) := Outcome(source, file, stamp, storeOk);
      (Parsed(s), after)
  }

  /** A file that cannot be read gives followers 0, not complete, and no row. */
  lemma {:induction false} UnreadableFile(soup: Soup, browser: Option<Document>, file: Option<seq<string>>, stamp: string, storeOk: bool)
    ensures var (r, after) := ParseHtmlFile(None, soup, browser, file, stamp, storeOk);
            r.Unreadable? && r.followers == 0 && !r.dataComplete && r.site == Site && after == file
  {
  }
}
