/** Cutting an edge off a window and loading it again restores the feed, because the freshness of what was cut is forgotten. */
module Trimming {
  import opened Feed
  import opened SyncRules
  import FeedSafety

  lemma DedupeOfFeed(s: seq<Msg>)
    requires FeedOk(s)
    ensures Dedupe(s) == s
  {
    hide Dedupe, Before;
    DedupeMakesFeed(s);
    forall x | x in s ensures IsLast(s, x) {
      var i :| 0 <= i < |s| && s[i] == x;
      assert forall j | i < j < |s| :: s[j].id != s[i].id;
    }
    SortedUnique(Dedupe(s), s);
  }

  /** A page whose messages are neither gone nor known in a newer view is taken whole. */
  lemma {:induction false} IncomingWhole(s: State, have: seq<Msg>, page: Page, ms: seq<Msg>)
    requires forall m | m in ms :: m.id !in s.gone && !Newer_(s, page, m.id)
    ensures IncomingOf(s, have, page, ms) == ms
  {
    if ms != [] {
      var t, z := ms[..|ms| - 1], ms[|ms| - 1];
      IncomingWhole(s, have, page, t);
      TakenWhole(s, have, page, z);
      hide Taken, Newer_;
      assert ms == t + [z];
    }
  }

  lemma TakenWhole(s: State, have: seq<Msg>, page: Page, m: Msg)
    requires m.id !in s.gone && !Newer_(s, page, m.id)
    ensures Taken(s, have, page, m) == [m]
  {
  }

  lemma SliceMembers(list: seq<Msg>, k: nat)
    requires UniqueIds(list) && k <= |list|
    ensures forall x | x in list[..k] :: x in list && x.id !in Ids(list[k..])
    ensures forall x | x in list[k..] :: x in list && x.id !in Ids(list[..k])
  {
    forall x, y | x in list[..k] && y in list[k..] ensures x.id != y.id {
      var i :| 0 <= i < k && list[i] == x;
      var j :| 0 <= j < |list| - k && list[k..][j] == y;
      assert list[k + j] == y;
    }
  }

  /**
   * A cut takes so many messages off one edge, tells the window that there is more beyond it, and forgets the numbers of
   * what it took; it never takes everything, and without a window, or for no messages, it takes nothing.
   */
  lemma TrimCutsEdge(s: State, list: seq<Msg>, c: Id, side: Side, count: int)
    ensures var r := TrimWindow(s, list, c, side, count);
      (c in s.windows && 0 < count < |list| ==>
        r.list == Some(if side == Top then list[count..] else list[..|list| - count]) &&
        r.state == s.(msgPts := r.state.msgPts, windows := r.state.windows) && r.state.windows.Keys == s.windows.Keys &&
        (forall k | k in s.windows && k != c :: r.state.windows[k] == s.windows[k]) &&
        r.state.windows[c].basePts == s.windows[c].basePts && r.state.windows[c].stale == s.windows[c].stale &&
        r.state.windows[c].hasMoreBefore == (side == Top || s.windows[c].hasMoreBefore) &&
        r.state.windows[c].hasMoreAfter == (side == Bottom || s.windows[c].hasMoreAfter) &&
        r.state.msgPts == s.msgPts - Ids(if side == Top then list[..count] else list[|list| - count..])) &&
      (!(c in s.windows && 0 < count < |list|) ==> r == Merged(s, Some(list)))
  {
    hide Ids;
  }

  /**
   * Cut at the top, then merge an older page that carries exactly the messages that were cut: the same feed, whatever
   * number the page has, with every freshness number the trim left alone untouched.
   */
  lemma TrimTopThenOlder(s: State, list: seq<Msg>, c: Id, count: int, page: Page)
    requires FeedOk(list) && c in s.windows && 0 < count < |list|
    requires forall m | m in list :: m.id !in s.gone
    requires page.messages == list[..count]
    ensures var t := TrimWindow(s, list, c, Top, count);
      var r := ApplyPage(t.state, t.list, c, page, Older);
      r.list == Some(list) &&
      r.state.windows == s.windows[c := s.windows[c].(hasMoreBefore := page.hasMoreBefore)] &&
      r.state.msgPts == s.msgPts - Ids(list[..count]) + map id | id in Ids(list[..count]) :: page.pts
  {
    hide Dedupe, IncomingOf, Before;
    var t := TrimWindow(s, list, c, Top, count);
    SliceMembers(list, count);
    IncomingWhole(t.state, Have(t.list), page, page.messages);
    assert list[..count] + list[count..] == list;
    DedupeOfFeed(list);
    assert Retagged(t.state, page) == Ids(list[..count]);
  }

  /** The same at the bottom, with a newer page; the number of the tail snapshot grows only if the page reaches the end. */
  lemma TrimBottomThenNewer(s: State, list: seq<Msg>, c: Id, count: int, page: Page)
    requires FeedOk(list) && c in s.windows && 0 < count < |list|
    requires forall m | m in list :: m.id !in s.gone
    requires page.messages == list[|list| - count..]
    ensures var t := TrimWindow(s, list, c, Bottom, count);
      var r := ApplyPage(t.state, t.list, c, page, Newer);
      r.list == Some(list) &&
      r.state.windows[c].hasMoreBefore == s.windows[c].hasMoreBefore &&
      r.state.windows[c].hasMoreAfter == page.hasMoreAfter &&
      r.state.windows[c].basePts ==
        (if page.hasMoreAfter then s.windows[c].basePts else Max(s.windows[c].basePts, page.pts))
  {
    hide TrimWindow, MergedList, MergedWindow, PageTags, FeedOk, Ids;
    var t, k := TrimWindow(s, list, c, Bottom, count), |list| - count;
    BottomCut(s, list, c, count);
    NotLeft(s.msgPts, Ids(list[k..]));
    BottomReloaded(t.state, list, c, k, page);
    NewerWindow(t.state, list[..k], c, page);
  }

  lemma NotLeft(m: map<Id, nat>, ids: set<Id>)
    ensures forall id | id in ids :: id !in m - ids
  {
  }

  lemma NewerWindow(t: State, have: seq<Msg>, c: Id, page: Page)
    requires c in t.windows
    ensures MergedWindow(t, have, c, page, Newer) == t.windows[c].(hasMoreAfter := page.hasMoreAfter,
      basePts := if page.hasMoreAfter then t.windows[c].basePts else Max(t.windows[c].basePts, page.pts))
  {
    hide OlderPart, Incoming;
  }

  lemma BottomCut(s: State, list: seq<Msg>, c: Id, count: int)
    requires c in s.windows && 0 < count < |list|
    ensures var t, k := TrimWindow(s, list, c, Bottom, count), |list| - count;
      t.list == Some(list[..k]) && t.state.gone == s.gone && t.state.msgPts == s.msgPts - Ids(list[k..]) &&
      t.state.windows == s.windows[c := s.windows[c].(hasMoreAfter := true)]
  {
    hide Ids;
  }

  lemma BottomReloaded(t: State, list: seq<Msg>, c: Id, k: nat, page: Page)
    requires FeedOk(list) && 0 < k < |list| && page.messages == list[k..] && c in t.windows
    requires (forall m | m in list :: m.id !in t.gone) && forall id | id in Ids(list[k..]) :: id !in t.msgPts
    ensures MergedList(t, list[..k], c, page, Newer) == list
  {
    hide IncomingOf, Dedupe, OlderPart, NewerThanPage, FeedOk, Before;
    SliceIsFeed(list, k);
    assert forall m | m in list[k..] :: m in list && m.id in Ids(list[k..]);
    IncomingWhole(t, list[..k], page, page.messages);
    assert list[..k] + list[k..] == list;
    DedupeOfFeed(list);
  }

  lemma SliceIsFeed(list: seq<Msg>, k: nat)
    requires FeedOk(list) && k <= |list|
    ensures FeedOk(list[k..])
  {
  }

  /** The window as trimmed at the top, had the freshness of the cut messages been kept. */
  function TrimKeepingTags(s: State, c: Id): State
    requires c in s.windows
  {
    s.(windows := s.windows[c := s.windows[c].(hasMoreBefore := true)])
  }

  lemma {:induction false} IncomingMisses(s: State, have: seq<Msg>, page: Page, ms: seq<Msg>, m: Msg)
    requires Newer_(s, page, m.id) && m.id !in Ids(have)
    ensures m !in IncomingOf(s, have, page, ms)
  {
    FeedSafety.IncomingFacts(s, have, page, ms);
  }

  /**
   * Why the numbers are forgotten: had they been kept, reloading would restore the feed exactly when no cut message is
   * known in a view newer than the page.
   */
  lemma KeptTagsRestoreIff(s: State, list: seq<Msg>, c: Id, count: int, page: Page)
    requires FeedOk(list) && c in s.windows && 0 < count < |list|
    requires forall m | m in list :: m.id !in s.gone
    requires page.messages == list[..count]
    ensures MergedList(TrimKeepingTags(s, c), list[count..], c, page, Older) == list
       <==> forall m | m in list[..count] :: TagOf(s, m.id) <= page.pts
  {
    hide Dedupe, IncomingOf, Before;
    var t, cut, rest := TrimKeepingTags(s, c), list[..count], list[count..];
    SliceMembers(list, count);
    assert cut + rest == list;
    if forall m | m in cut :: TagOf(s, m.id) <= page.pts {
      IncomingWhole(t, rest, page, cut);
      DedupeOfFeed(list);
    } else {
      var m :| m in cut && TagOf(s, m.id) > page.pts;
      IncomingMisses(t, rest, page, cut, m);
      FeedSafety.MergedComesFromInputs(t, rest, c, page, Older);
      assert m !in MergedList(t, rest, c, page, Older) by {
        assert m.id in Ids(cut);
        assert m !in rest;
      }
      assert m in list;
    }
  }
}
