/** Searching a sequence in order, as the scrapers' `for ... : if ...: break`
    loops and BeautifulSoup's `find` do. */
module Lists {
  import opened Wrappers

  /** The index of the first element of s that satisfies p. */
  function FirstWhere<T>(s: seq<T>, p: T -> bool): (r: Option<nat>)
    ensures r.Some? ==> r.value < |s| && p(s[r.value])
    ensures forall j :: 0 <= j < |s| && (r.None? || j < r.value) ==> !p(s[j])
  {
    if s == [] then None
    else if p(s[0]) then Some(0)
    else
      match FirstWhere(s[1..], p)
      case None => None
      case Some(k) => Some(k + 1)
  }

  /** The first index is the only one with the two properties FirstWhere
      promises; this is how a loop that breaks at its first hit is tied to it. */
  lemma {:induction false} FirstWhereUnique<T>(s: seq<T>, p: T -> bool, i: nat)
    requires i < |s| && p(s[i])
    requires forall j :: 0 <= j < i ==> !p(s[j])
    ensures FirstWhere(s, p) == Some(i)
  {
  }

  /** When no element satisfies p, nothing is found. */
  lemma {:induction false} FirstWhereNone<T>(s: seq<T>, p: T -> bool)
    requires forall j :: 0 <= j < |s| ==> !p(s[j])
    ensures FirstWhere(s, p) == None
  {
  }
}
