/** The CSDN scraper: the profile page is searched for the four counters in
    three stages, the counters are sanitised and checked for completeness, and a complete sample
    is appended to the CSDN log. The page is what BeautifulSoup finds in it:
    the texts of the `.user-profile-statistics-num` elements, the div and li
    elements, and the text nodes that contain 粉丝. */
module Csdn {
  import opened Wrappers
  import opened Text
  import opened Lists
  import opened Validation
  import opened CsvLog

  // ---------------------------------------------------------------------------
  // The page as the cascade sees it
  // ---------------------------------------------------------------------------

  /** A div or li element, in document order: the text nodes below it, and the
      text of its first descendant with class `user-profile-statistics-num`. */
  datatype Block = Block(texts: seq<string>, statNum: Option<string>)

  /** A text node with the texts of its ancestors, nearest first, up to the
      document itself. */
  datatype TextNode = TextNode(text: string, ancestors: seq<string>)

  /** `soup.select('.user-profile-statistics-num')` as texts,
      `soup.find_all(['div', 'li'])` and the text nodes of the page. */
  datatype Page = Page(statNums: seq<string>, blocks: seq<Block>, textNodes: seq<TextNode>)

  /** The four counters, as the text the cascade found for each. */
  datatype Counts = Counts(visitors: string, originals: string, followers: string, following: string)

  const Fans := "粉丝"

  /** The value a counter holds until a stage finds it. */
  const Unresolved := "0"

  const Idle := Counts(Unresolved, Unresolved, Unresolved, Unresolved)

  // ---------------------------------------------------------------------------
  // The three stages
  // ---------------------------------------------------------------------------

  /** Stage 1: with at least four statistics elements, the first four give the
      four counters in page order; with fewer, nothing is found. */
  function SectionCounts(statNums: seq<string>): Counts {
    if |statNums| >= 4 then Counts(Strip(statNums[0]), Strip(statNums[1]), Strip(statNums[2]), Strip(statNums[3]))
    else Idle
  }

  /** The block stage 2 accepts: it has a text node containing 粉丝 and a
      statistics element. */
  predicate IsFansBlock(b: Block) {
    (exists t :: t in b.texts && Contains(t, Fans)) && b.statNum.Some?
  }

  /** Stage 2: the stripped statistics text of the first accepted block. */
  function FansBlockCount(blocks: seq<Block>): Option<string> {
    match FirstWhere(blocks, IsFansBlock)
    case None => None
    case Some(k) => Some(Strip(blocks[k].statNum.value))
  }

  /** How many ancestors of a 粉丝 text node stage 3 looks at. */
  const Levels := 3

  /** The ancestors stage 3 looks at: the parent and at most two above it. */
  function Nearby(ancestors: seq<string>): (r: seq<string>)
    ensures |r| <= |ancestors| && r == ancestors[..|r|] && |r| <= Levels
    ensures |r| == Levels || r == ancestors
  {
    if |ancestors| <= Levels then ancestors else ancestors[..Levels]
  }

  /** Stage 3 for one text node: the first run of digits in the text of the
      nearest of those ancestors whose text has a digit. */
  function NearbyDigits(ancestors: seq<string>): (r: Option<string>)
    ensures r.Some? ==> IsDigitText(r.value)
  {
    var near := Nearby(ancestors);
    match FirstWhere(near, HasDigit)
    case None => None
    case Some(k) => FirstDigitRun(near[k])
  }

  /** A text node stage 3 visits: its text contains 粉丝. */
  predicate IsFansNode(n: TextNode) {
    Contains(n.text, Fans)
  }

  /** A text node stage 3 takes a number from. */
  predicate IsHit(n: TextNode) {
    IsFansNode(n) && NearbyDigits(n.ancestors).Some?
  }

  /** Stage 3 over the text nodes in document order, starting from the current
      follower text: the loop over them does not stop at a number, so each hit
      replaces what an earlier one found. */
  function FansNodeDigits(nodes: seq<TextNode>, current: string): string {
    if nodes == [] then current
    else
      var n := nodes[|nodes| - 1];
      if IsHit(n) then NearbyDigits(n.ancestors).value
      else FansNodeDigits(nodes[..|nodes| - 1], current)
  }

  /** The counters after stage 2, which runs only while the follower count is
      unresolved. */
  function AfterBlocks(page: Page): Counts {
    var c := SectionCounts(page.statNums);
    if c.followers == Unresolved && FansBlockCount(page.blocks).Some? then c.(followers := FansBlockCount(page.blocks).value)
    else c
  }

  /** The counters the whole cascade yields. */
  function Cascade(page: Page): Counts {
    var c := AfterBlocks(page);
    if c.followers == Unresolved then c.(followers := FansNodeDigits(page.textNodes, c.followers))
    else c
  }

  /** The cascade as the scraper runs it: four local counters reassigned stage
      by stage, each search a loop that stops at its first hit. */
  method ExtractCounts(page: Page) returns (c: Counts)
    ensures c == Cascade(page)
  {
    var visitors, originals, followers, following := Unresolved, Unresolved, Unresolved, Unresolved;
    var stats := page.statNums;
    if |stats| >= 4 {
      visitors := Strip(stats[0]);
      originals := Strip(stats[1]);
      followers := Strip(stats[2]);
      following := Strip(stats[3]);
    }
    assert Counts(visitors, originals, followers, following) == SectionCounts(stats);

    if followers == Unresolved {
      var blocks := page.blocks;
      var i := 0;
      while i < |blocks|
        invariant 0 <= i <= |blocks|
        invariant forall j :: 0 <= j < i ==> !IsFansBlock(blocks[j])
        invariant followers == Unresolved
      {
        if IsFansBlock(blocks[i]) {
          FirstWhereUnique(blocks, IsFansBlock, i);
          followers := Strip(blocks[i].statNum.value);
          break;
        }
        i := i + 1;
      }
      if i == |blocks| {
        FirstWhereNone(blocks, IsFansBlock);
      }
    }
    assert Counts(visitors, originals, followers, following) == AfterBlocks(page);

    if followers == Unresolved {
      var nodes := page.textNodes;
      var i := 0;
      while i < |nodes|
        invariant 0 <= i <= |nodes|
        invariant followers == FansNodeDigits(nodes[..i], Unresolved)
      {
        var n := nodes[i];
        assert nodes[..i + 1][..i] == nodes[..i];
        if IsFansNode(n) {
          followers := NearestDigitsOf(n.ancestors, followers);
        }
        i := i + 1;
      }
      assert nodes[..i] == nodes;
    }
    c := Counts(visitors, originals, followers, following);
  }

  /** The inner loop of stage 3 for one text node: up to three steps up the
      parent chain, stopping at the first ancestor whose text has a digit; the
      follower text is replaced only when one is found. */
  method NearestDigitsOf(ancestors: seq<string>, current: string) returns (followers: string)
    ensures followers == NearbyDigits(ancestors).GetOr(current)
  {
    followers := current;
    var parent := 0;  // the index of `parent` in the chain; |ancestors| once it is None
    for k := 0 to Levels
      invariant parent == if k <= |ancestors| then k else |ancestors|
      invariant forall j :: 0 <= j < parent ==> !HasDigit(ancestors[j])
      invariant followers == current
    {
      if parent < |ancestors| {
        if HasDigit(ancestors[parent]) {
          FirstWhereUnique(Nearby(ancestors), HasDigit, parent);
          followers := FirstDigitRun(ancestors[parent]).value;
          return;
        }
        parent := parent + 1;
      }
    }
    FirstWhereNone(Nearby(ancestors), HasDigit);
  }

  // ---------------------------------------------------------------------------
  // What the cascade promises
  // ---------------------------------------------------------------------------

  /** Stage 1 alone decides the visitor, original and following counters: the
      first, second and fourth statistics texts when there are at least four,
      "0" otherwise. */
  lemma {:induction false} CascadeSection(page: Page)
    ensures var c := Cascade(page);
            var s := page.statNums;
            if |s| >= 4 then c.visitors == Strip(s[0]) && c.originals == Strip(s[1]) && c.following == Strip(s[3])
            else c.visitors == Unresolved && c.originals == Unresolved && c.following == Unresolved
  {
  }

  /** An earlier stage wins: a follower text stage 1 found is kept whatever the
      blocks and text nodes hold. */
  lemma {:induction false} SectionWins(page: Page)
    requires |page.statNums| >= 4 && Strip(page.statNums[2]) != Unresolved
    ensures Cascade(page).followers == Strip(page.statNums[2])
  {
  }

  /** When stage 1 leaves the follower count unresolved, the first block with a
      粉丝 text and a statistics element supplies it, unless that too is "0". */
  lemma {:induction false} FirstFansBlockWins(page: Page, k: nat)
    requires SectionCounts(page.statNums).followers == Unresolved
    requires k < |page.blocks| && IsFansBlock(page.blocks[k])
    requires forall j :: 0 <= j < k ==> !IsFansBlock(page.blocks[j])
    requires Strip(page.blocks[k].statNum.value) != Unresolved
    ensures Cascade(page).followers == Strip(page.blocks[k].statNum.value)
  {
    FirstWhereUnique(page.blocks, IsFansBlock, k);
  }

  /** Stage 3 ends with the number of the last text node that yields one. */
  lemma {:induction false} LastHitWins(nodes: seq<TextNode>, current: string, k: nat)
    requires k < |nodes| && IsHit(nodes[k])
    requires forall j :: k < j < |nodes| ==> !IsHit(nodes[j])
    ensures FansNodeDigits(nodes, current) == NearbyDigits(nodes[k].ancestors).value
  {
    if k < |nodes| - 1 {
      var front := nodes[..|nodes| - 1];
      assert front[k] == nodes[k];
      LastHitWins(front, current, k);
    }
  }

  /** Stage 3 without a hit leaves the follower text as it was. */
  lemma {:induction false} NoHitKeeps(nodes: seq<TextNode>, current: string)
    requires forall j :: 0 <= j < |nodes| ==> !IsHit(nodes[j])
    ensures FansNodeDigits(nodes, current) == current
  {
    if nodes != [] {
      NoHitKeeps(nodes[..|nodes| - 1], current);
    }
  }

  /** The number stage 3 takes from one node comes from the nearest of its
      first three ancestors that has a digit, and is that ancestor's first run
      of digits. */
  lemma {:induction false} NearbyDigitsPlace(ancestors: seq<string>, k: nat)
    requires k < |ancestors| && k < Levels && HasDigit(ancestors[k])
    requires forall j :: 0 <= j < k ==> !HasDigit(ancestors[j])
    ensures NearbyDigits(ancestors) == FirstDigitRun(ancestors[k])
  {
    FirstWhereUnique(Nearby(ancestors), HasDigit, k);
  }

  /** A text node whose first three ancestors hold no digit gives nothing, even
      when a higher ancestor does. */
  lemma {:induction false} NearbyDigitsNone(ancestors: seq<string>)
    requires forall j :: 0 <= j < |ancestors| && j < Levels ==> !HasDigit(ancestors[j])
    ensures NearbyDigits(ancestors).None?
  {
    FirstWhereNone(Nearby(ancestors), HasDigit);
  }

  // ---------------------------------------------------------------------------
  // Sanitise, test, store
  // ---------------------------------------------------------------------------

  function Fields(c: Counts): seq<string> {
    [c.visitors, c.originals, c.followers, c.following]
  }

  /** Each counter with its non-digits removed, an empty one replaced by "0". */
  function Sanitised(c: Counts): (r: Counts)
    ensures forall i :: 0 <= i < 4 ==> Fields(r)[i] == Sanitise(Fields(c)[i])
  {
    var r := Counts(Sanitise(c.visitors), Sanitise(c.originals), Sanitise(c.followers), Sanitise(c.following));
    assert forall i :: 0 <= i < 4 ==> Fields(r)[i] == Sanitise(Fields(c)[i]) by {
      forall i | 0 <= i < 4 ensures Fields(r)[i] == Sanitise(Fields(c)[i]) {
        if i == 0 {} else if i == 1 {} else if i == 2 {} else {}
      }
    }
    r
  }

  /** The dictionary `extract_csdn_stats` returns. */
  datatype CsdnStats = CsdnStats(
    timestamp: string,
    visitors: string,
    originals: string,
    followers: string,
    following: string,
    site: string,
    dataComplete: bool)

  const Site := "CSDN"
  const Header := "更新时间,总访问量,原创,粉丝数,关注数"
  const ErrorText := "Error"

  /** What the scraper returns after any exception. */
  function ErrorRecord(stamp: string): CsdnStats {
    CsdnStats(stamp, ErrorText, ErrorText, ErrorText, ErrorText, Site, false)
  }

  function Record(stamp: string, c: Counts, complete: bool): CsdnStats {
    CsdnStats(stamp, c.visitors, c.originals, c.followers, c.following, Site, complete)
  }

  /** The log row: the second clock reading, then the four counters. */
  function LogRow(stamp: string, c: Counts): string {
    Row([stamp] + Fields(c))
  }

  /** The sanitised counters of a fetched page. */
  function Sample(page: Page): Counts {
    Sanitised(Cascade(page))
  }

  /** The record returned and the log file left by one call. `fetched` is None
      when the page could not be fetched or was empty; storeOk says whether
      the log file can be opened and written. */
  function Outcome(fetched: Option<Page>, file: Option<seq<string>>, clock: Stamps, storeOk: bool): (CsdnStats, Option<seq<string>>) {
    match fetched
    case None => (ErrorRecord(clock.failure), file)
    case Some(page) => Stored(Sample(page), file, clock, storeOk)
  }

  /** The record returned and the log left once the sanitised counters c are
      known: the test, then the append of a complete sample. */
  function Stored(c: Counts, file: Option<seq<string>>, clock: Stamps, storeOk: bool): (CsdnStats, Option<seq<string>>) {
    match Settle(Fields(c), file, Header, clock.row, storeOk)
    case Failed => (ErrorRecord(clock.failure), file)
    case Settled(complete, after) => (Record(clock.record, c, complete), after)
  }

  /** `extract_csdn_stats`: run the cascade, sanitise, test, and append the
      sample to the log when it is complete. */
  method ExtractCsdnStats(fetched: Option<Page>, log: LogFile, clock: Stamps, storeOk: bool) returns (stats: CsdnStats)
    modifies log
    ensures (stats, log.lines) == Outcome(fetched, old(log.lines), clock, storeOk)
  {
    if fetched.None? {
      return ErrorRecord(clock.failure);
    }
    var raw := ExtractCounts(fetched.value);
    var c := Sanitised(raw);
    assert c == Sample(fetched.value);
    var check := AllPositive(Conversions(Fields(c)));
    if check.Raised? {
      return ErrorRecord(clock.failure);
    }
    var dataComplete := check.complete;
    if dataComplete {
      if !storeOk {
        return ErrorRecord(clock.failure);
      }
      log.Append(Header, LogRow(clock.row, c));
    }
    stats := Record(clock.record, c, dataComplete);
  }

  // ---------------------------------------------------------------------------
  // What a call promises
  // ---------------------------------------------------------------------------

  /** The sample is complete exactly when the page was fetched, every sanitised
      counter is a number above 0, and the log could be written. */
  lemma {:induction false} CompleteIff(fetched: Option<Page>, file: Option<seq<string>>, clock: Stamps, storeOk: bool)
    ensures Outcome(fetched, file, clock, storeOk).0.dataComplete <==>
            fetched.Some? && storeOk && forall i :: 0 <= i < 4 ==> Positive(Fields(Sample(fetched.value))[i])
  {
    if fetched.Some? {
      SettleComplete(Fields(Sample(fetched.value)), file, Header, clock.row, storeOk);
    }
  }

  /** The log is either left as it was or extended by the sample's row, and it
      is extended exactly when the returned record is complete. */
  lemma {:induction false} AppendOnlyWhenComplete(fetched: Option<Page>, file: Option<seq<string>>, clock: Stamps, storeOk: bool)
    ensures var (stats, after) := Outcome(fetched, file, clock, storeOk);
            (stats.dataComplete ==> after == Appended(file, Header, LogRow(clock.row, Sample(fetched.value)))) &&
            (!stats.dataComplete ==> after == file)
  {
    if fetched.Some? {
      SettleAppendsOnlyComplete(Fields(Sample(fetched.value)), file, Header, clock.row, storeOk);
    }
  }

  /** A page that could not be fetched gives the error record. */
  lemma {:induction false} FetchFailureIsError(file: Option<seq<string>>, clock: Stamps, storeOk: bool)
    ensures Outcome(None, file, clock, storeOk) == (ErrorRecord(clock.failure), file)
  {
  }

  /** A counter with text but no digit sanitises to "", and `int("")` raises
      when every counter before it is positive: the call gives the error record
      and writes nothing. */
  lemma {:induction false} DigitlessCounterIsError(page: Page, file: Option<seq<string>>, clock: Stamps, storeOk: bool, i: nat)
    requires i < 4
    requires var raw := Fields(Cascade(page)); raw[i] != [] && !HasDigit(raw[i])
    requires forall j :: 0 <= j < i ==> Positive(Fields(Sample(page))[j])
    ensures Outcome(Some(page), file, clock, storeOk) == (ErrorRecord(clock.failure), file)
  {
    SanitisedRaises(Fields(Cascade(page))[i]);
    SettleFailsOnRaise(Fields(Sample(page)), file, Header, clock.row, storeOk, i);
  }

  /** Unless it is the error record, the returned record carries exactly the
      sanitised counters that were checked, and the row written carries them in
      the order visitors, originals, followers, following. */
  lemma {:induction false} RecordCarriesSample(page: Page, file: Option<seq<string>>, clock: Stamps, storeOk: bool)
    requires Outcome(Some(page), file, clock, storeOk).0 != ErrorRecord(clock.failure)
    ensures var stats := Outcome(Some(page), file, clock, storeOk).0;
            var c := Sample(page);
            stats.timestamp == clock.record && stats.site == Site &&
            stats.visitors == c.visitors && stats.originals == c.originals &&
            stats.followers == c.followers && stats.following == c.following
  {
  }

  /** The row reads back as the stamp and the four counters: the counters are
      digits, so none holds a comma. */
  lemma {:induction false} LogRowFields(stamp: string, page: Page)
    requires ',' !in stamp
    ensures CsvLog.Fields(LogRow(stamp, Sample(page))) == [stamp] + Fields(Sample(page))
  {
    var c := Sample(page);
    var fields := [stamp] + Fields(c);
    forall i | 1 <= i < 5 ensures ',' !in fields[i] {
      DigitsExclude(fields[i], ',');
    }
    FieldsOfRow(fields);
  }
}
