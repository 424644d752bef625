/** The menu-bar application's display: it holds the last CSDN and Toutiao
    records and alternates the title between the CSDN follower count and the
    Toutiao fan count, moving on only when the platform on show has data. */
module MenuBar {
  import opened Wrappers
  import Csdn
  import Toutiao

  /** `current_display`: "csdn" or "toutiao". */
  datatype Display = ShowCsdn | ShowToutiao

  /** What the menu bar shows: the platform next in turn and the title (None
      until a title is first set, while the application's name is shown). */
  datatype View = View(display: Display, title: Option<string>)

  function CsdnTitle(r: Csdn.CsdnStats): string {
    "CSDN: " + r.followers
  }

  function ToutiaoTitle(r: Toutiao.ToutiaoStats): string {
    "头条: " + r.fans
  }

  /** One pass of the `rotate_display` loop. A record is a non-empty
      dictionary, so it is truthy exactly when it is present. */
  function Rotated(csdn: Option<Csdn.CsdnStats>, toutiao: Option<Toutiao.ToutiaoStats>, v: View): View {
    if v.display == ShowCsdn && csdn.Some? then View(ShowToutiao, Some(CsdnTitle(csdn.value)))
    else if v.display == ShowToutiao && toutiao.Some? then View(ShowCsdn, Some(ToutiaoTitle(toutiao.value)))
    else v
  }

  /** The title update at the end of `collect_data`. */
  function Refreshed(csdn: Option<Csdn.CsdnStats>, toutiao: Option<Toutiao.ToutiaoStats>, v: View): View {
    if v.display == ShowCsdn && csdn.Some? then View(v.display, Some(CsdnTitle(csdn.value)))
    else if v.display == ShowToutiao && toutiao.Some? then View(v.display, Some(ToutiaoTitle(toutiao.value)))
    else v
  }

  class MenuBarApp {
    var csdnData: Option<Csdn.CsdnStats>
    var toutiaoData: Option<Toutiao.ToutiaoStats>
    var currentDisplay: Display
    var title: Option<string>

    /** Both records absent, CSDN first. */
    constructor()
      ensures csdnData == None && toutiaoData == None
      ensures currentDisplay == ShowCsdn && title == None
    {
      csdnData := None;
      toutiaoData := None;
      currentDisplay := ShowCsdn;
      title := None;
    }

    /** One pass of the rotation loop, before its sleep. */
    method RotateStep()
      modifies this
      ensures View(currentDisplay, title) == Rotated(csdnData, toutiaoData, old(View(currentDisplay, title)))
      ensures csdnData == old(csdnData) && toutiaoData == old(toutiaoData)
    {
      if currentDisplay == ShowCsdn && csdnData.Some? {
        title := Some(CsdnTitle(csdnData.value));
        currentDisplay := ShowToutiao;
      } else if currentDisplay == ShowToutiao && toutiaoData.Some? {
        title := Some(ToutiaoTitle(toutiaoData.value));
        currentDisplay := ShowCsdn;
      }
    }

    /** `collect_data`, given what the two scrapers returned: the CSDN
        scraper always returns a record, the Toutiao one may return None. */
    method CollectData(csdn: Csdn.CsdnStats, toutiao: Option<Toutiao.ToutiaoStats>)
      modifies this
      ensures csdnData == Some(csdn) && toutiaoData == toutiao
      ensures View(currentDisplay, title) == Refreshed(csdnData, toutiaoData, old(View(currentDisplay, title)))
    {
      csdnData := Some(csdn);
      toutiaoData := toutiao;
      if currentDisplay == ShowCsdn && csdnData.Some? {
        title := Some(CsdnTitle(csdnData.value));
      } else if currentDisplay == ShowToutiao && toutiaoData.Some? {
        title := Some(ToutiaoTitle(toutiaoData.value));
      }
    }
  }

  // ---------------------------------------------------------------------------
  // What the display promises
  // ---------------------------------------------------------------------------

  /** On CSDN with CSDN data: show its followers and turn to Toutiao; on
      Toutiao with Toutiao data: show its fans and turn to CSDN; otherwise
      nothing changes. */
  lemma {:induction false} RotateStepCases(csdn: Option<Csdn.CsdnStats>, toutiao: Option<Toutiao.ToutiaoStats>, v: View)
    ensures var r := Rotated(csdn, toutiao, v);
            (v.display == ShowCsdn && csdn.Some? ==> r == View(ShowToutiao, Some("CSDN: " + csdn.value.followers))) &&
            (v.display == ShowToutiao && toutiao.Some? ==> r == View(ShowCsdn, Some("头条: " + toutiao.value.fans))) &&
            ((v.display == ShowCsdn && csdn.None?) || (v.display == ShowToutiao && toutiao.None?) ==> r == v)
  {
  }

  /** The display moves on exactly when the platform on show has data; it
      stalls on a platform without data whatever the other one holds. */
  lemma {:induction false} AdvancesOnlyWithData(csdn: Option<Csdn.CsdnStats>, toutiao: Option<Toutiao.ToutiaoStats>, v: View)
    ensures Rotated(csdn, toutiao, v).display != v.display <==>
            (if v.display == ShowCsdn then csdn.Some? else toutiao.Some?)
  {
  }

  /** A changed title always comes from a present record: the CSDN one's
      followers or the Toutiao one's fans. */
  lemma {:induction false} TitleFromPresentRecord(csdn: Option<Csdn.CsdnStats>, toutiao: Option<Toutiao.ToutiaoStats>, v: View)
    ensures var r := Rotated(csdn, toutiao, v);
            var s := Refreshed(csdn, toutiao, v);
            (r.title != v.title ==> (csdn.Some? && r.title == Some(CsdnTitle(csdn.value))) ||
                                    (toutiao.Some? && r.title == Some(ToutiaoTitle(toutiao.value)))) &&
            (s.title != v.title ==> (csdn.Some? && s.title == Some(CsdnTitle(csdn.value))) ||
                                    (toutiao.Some? && s.title == Some(ToutiaoTitle(toutiao.value))))
  {
  }

  /** The immediate title update never changes which platform is next, and
      shows what the next rotation step would show. */
  lemma {:induction false} RefreshKeepsDisplay(csdn: Option<Csdn.CsdnStats>, toutiao: Option<Toutiao.ToutiaoStats>, v: View)
    ensures Refreshed(csdn, toutiao, v).display == v.display
    ensures Refreshed(csdn, toutiao, v).title == Rotated(csdn, toutiao, v).title
  {
  }

  /** With both records present the display alternates: two steps come back
      to the same platform, having shown both. */
  lemma {:induction false} AlternatesWithBoth(csdn: Csdn.CsdnStats, toutiao: Toutiao.ToutiaoStats, v: View)
    ensures var once := Rotated(Some(csdn), Some(toutiao), v);
            var twice := Rotated(Some(csdn), Some(toutiao), once);
            twice.display == v.display && once.display != v.display &&
            {once.title, twice.title} == {Some(CsdnTitle(csdn)), Some(ToutiaoTitle(toutiao))}
  {
  }
}
