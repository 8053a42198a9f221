/** Pages keep the window invariant: exactly when, and simpler conditions that are enough, kind by kind. */
module PageSafety {
  import opened Feed
  import opened SyncRules
  import opened Journal
  import opened Windows
  import opened PageMerge
  import FeedSafety

  // ----- windows and pages in terms of birth numbers -----

  ghost predicate InsideR(J: seq<Change>, list: seq<Msg>, win: Window, n: nat) {
    if list == [] then !win.hasMoreBefore && !win.hasMoreAfter
    else (win.hasMoreBefore ==> Rank(J, list[0].id) <= n) && (win.hasMoreAfter ==> n <= Rank(J, list[|list| - 1].id))
  }

  lemma InsideByRank(J: seq<Change>, c: Id, list: seq<Msg>, win: Window, n: nat)
    requires Lawful(J) && AllPlaced(J, c, list) && BirthIn(J, n, c)
    ensures InsideWindow(list, win, BirthMsg(J, n)) <==> InsideR(J, list, win, n)
  {
    BirthIsPlaced(J, n, c);
    RankOrder(J, c);
    hide Lawful, Before, Placed, Rank;
    if list != [] { assert list[0] in list && list[|list| - 1] in list; }
  }

  ghost predicate CoveredR(J: seq<Change>, page: Page, kind: PageKind, cursor: Msg, n: nat) {
    (kind != Newer && page.hasMoreBefore ==> page.messages != [] && Rank(J, page.messages[0].id) <= n) &&
    (kind != Older && page.hasMoreAfter ==> page.messages != [] && n <= Rank(J, page.messages[|page.messages| - 1].id)) &&
    (kind == Older ==> n < Rank(J, cursor.id)) &&
    (kind == Newer ==> Rank(J, cursor.id) < n)
  }

  lemma CoveredByRank(J: seq<Change>, c: Id, page: Page, kind: PageKind, cursor: Msg, n: nat)
    requires Lawful(J) && AllPlaced(J, c, page.messages) && BirthIn(J, n, c)
    requires kind == Older || kind == Newer ==> Placed(J, c, cursor)
    ensures Covered(page, kind, cursor, BirthMsg(J, n)) <==> CoveredR(J, page, kind, cursor, n)
  {
    BirthIsPlaced(J, n, c);
    RankOrder(J, c);
    hide Lawful, Before, Placed, Rank;
    if page.messages != [] {
      assert page.messages[0] in page.messages && page.messages[|page.messages| - 1] in page.messages;
    }
  }

  /** A message that still exists, was born by the page's number and lies in the covered part is on the page, and taken from it. */
  lemma InPage(J: seq<Change>, s: State, have: seq<Msg>, c: Id, page: Page, kind: PageKind, cursor: Msg, inc: seq<Msg>, n: nat)
    requires Lawful(J) && StateOk(J, s) && PageOk(J, c, page, kind, cursor) && IncHolds(J, s, have, c, page, inc)
    requires BirthIn(J, n, c) && Lasting(J, BirthMsg(J, n).id) && n <= page.pts && Covered(page, kind, cursor, BirthMsg(J, n))
    ensures BirthMsg(J, n).id in Ids(page.messages)
    ensures !Dropped(s, have, page, BirthMsg(J, n).id) ==> BirthMsg(J, n).id in Ids(inc)
  {
    var id := BirthMsg(J, n).id;
    AliveFromBirth(J, id, n, page.pts);
    hide Lawful, Covered, Placed, Rank, Before, ViewAt, Sorted, UniqueIds, Dropped;
    assert id in Ids(page.messages);
    var p :| p in page.messages && p.id == id;
  }

  /** Ends of the lists, as birth numbers. */
  ghost predicate RankedList(J: seq<Change>, s: seq<Msg>) {
    s != [] ==> s[0] in s && s[|s| - 1] in s && forall x | x in s :: Rank(J, s[0].id) <= Rank(J, x.id) <= Rank(J, s[|s| - 1].id)
  }

  lemma Ranked(J: seq<Change>, c: Id, s: seq<Msg>)
    requires Lawful(J) && FeedOk(s) && AllPlaced(J, c, s)
    ensures RankedList(J, s)
  {
    RanksGrow(J, c, s);
  }

  /** Everything the hole arguments need about one merge, in terms of birth numbers. */
  ghost predicate Setting(J: seq<Change>, s: State, have: seq<Msg>, c: Id, page: Page, kind: PageKind, cursor: Msg,
                          inc: seq<Msg>, merged: seq<Msg>) {
    RankedList(J, have) && RankedList(J, page.messages) && RankedList(J, merged) && RankedList(J, inc) &&
    (forall x | x in inc :: x.id in Ids(page.messages) && x in merged) &&
    (forall x | x in merged :: x in inc || KeptOld(s, have, c, page, kind, x)) &&
    (forall x | KeptOld(s, have, c, page, kind, x) :: x.id in Ids(merged)) &&
    (forall p | p in page.messages :: Rank(J, p.id) <= page.pts)
  }

  lemma PageRanks(J: seq<Change>, c: Id, page: Page, kind: PageKind, cursor: Msg)
    requires Lawful(J) && PageOk(J, c, page, kind, cursor)
    ensures forall p | p in page.messages :: Rank(J, p.id) <= page.pts
  {
    forall p | p in page.messages ensures Rank(J, p.id) <= page.pts {
      var b := ViewHasBirth(J, p.id, page.pts);
      RankIs(J, p.id, b);
    }
  }

  lemma CoveredTaken(J: seq<Change>, s: State, have: seq<Msg>, c: Id, page: Page, kind: PageKind, cursor: Msg, inc: seq<Msg>, n: nat)
    requires Lawful(J) && StateOk(J, s) && PageOk(J, c, page, kind, cursor) && AllPlaced(J, c, page.messages)
    requires IncHolds(J, s, have, c, page, inc) && BirthIn(J, n, c) && Lasting(J, BirthMsg(J, n).id)
    requires !(BirthMsg(J, n).id in Ids(page.messages) && Dropped(s, have, page, BirthMsg(J, n).id))
    ensures n <= page.pts && CoveredR(J, page, kind, cursor, n) ==> BirthMsg(J, n).id in Ids(inc)
  {
    assert kind == Older || kind == Newer ==> Placed(J, c, cursor);
    hide CoveredR, Placed, Rank, Lawful, StateOk, PageOk, Lasting, IncHolds, AllPlaced, Covered, Dropped;
    if n <= page.pts && CoveredR(J, page, kind, cursor, n) {
      CoveredByRank(J, c, page, kind, cursor, n);
      InPage(J, s, have, c, page, kind, cursor, inc, n);
    }
  }

  lemma SettingFrom(J: seq<Change>, s: State, have: seq<Msg>, c: Id, page: Page, kind: PageKind, cursor: Msg,
                    inc: seq<Msg>, merged: seq<Msg>)
    requires Lawful(J) && StateOk(J, s) && PageOk(J, c, page, kind, cursor)
    requires Inputs(J, s, have, c, page) && IncHolds(J, s, have, c, page, inc)
    requires ListHolds(J, s, have, c, page, kind, inc, merged)
    ensures Setting(J, s, have, c, page, kind, cursor, inc, merged)
  {
    Ranked(J, c, have);
    Ranked(J, c, page.messages);
    Ranked(J, c, merged);
    Ranked(J, c, inc);
    PageRanks(J, c, page, kind, cursor);
    hide RankedList, KeptOld, Placed, Rank, Sorted, UniqueIds, Newer_, Lawful, StateOk, PageOk, Lasting, Inputs;
    hide AllPlaced, Dropped;
  }

  // ----- holes, kind by kind -----

  /** A birth inside the merged list is in the merged list: one lemma for one birth, for pages asked from the top edge. */
  lemma OlderHole(J: seq<Change>, s: State, have: seq<Msg>, c: Id, page: Page, cursor: Msg, inc: seq<Msg>, merged: seq<Msg>, n: nat)
    requires Setting(J, s, have, c, page, Older, cursor, inc, merged)
    requires have != [] && Rank(J, have[0].id) == Rank(J, cursor.id) <= page.pts
    requires forall p | p in page.messages :: Rank(J, p.id) < Rank(J, cursor.id)
    requires c in s.windows && BirthIn(J, n, c) && Lasting(J, BirthMsg(J, n).id)
    requires InsideR(J, merged, s.windows[c].(hasMoreBefore := page.hasMoreBefore), n)
    requires InsideR(J, have, s.windows[c], n) ==> BirthMsg(J, n).id in Ids(have)
    requires n <= page.pts && CoveredR(J, page, Older, cursor, n) ==> BirthMsg(J, n).id in Ids(inc)
    ensures BirthMsg(J, n).id in Ids(merged)
  {
    hide Rank, Lasting, Newer_, OlderPart;
    var k := have[0];
    assert KeptOld(s, have, c, page, Older, k);
    assert merged != [];
    if n < Rank(J, cursor.id) {
      assert CoveredR(J, page, Older, cursor, n) by {
        if page.hasMoreBefore {
          var p :| p in page.messages && p.id == merged[0].id;
        }
      }
    } else {
      var z := merged[|merged| - 1];
      assert z in inc || z in have;
      assert InsideR(J, have, s.windows[c], n);
      var y :| y in have && y.id == BirthMsg(J, n).id;
      assert KeptOld(s, have, c, page, Older, y);
    }
  }

  lemma NewerHole(J: seq<Change>, s: State, have: seq<Msg>, c: Id, page: Page, cursor: Msg, inc: seq<Msg>, merged: seq<Msg>, n: nat)
    requires Setting(J, s, have, c, page, Newer, cursor, inc, merged)
    requires have != [] && Rank(J, have[|have| - 1].id) == Rank(J, cursor.id)
    requires forall p | p in page.messages :: Rank(J, cursor.id) < Rank(J, p.id)
    requires c in s.windows && BirthIn(J, n, c) && Lasting(J, BirthMsg(J, n).id)
    requires InsideR(J, merged, s.windows[c].(hasMoreAfter := page.hasMoreAfter), n)
    requires InsideR(J, have, s.windows[c], n) && n <= Rank(J, cursor.id) ==> BirthMsg(J, n).id in Ids(have)
    requires page.hasMoreAfter || n <= page.pts || BirthMsg(J, n).id in Ids(have)
    requires n <= page.pts && CoveredR(J, page, Newer, cursor, n) ==> BirthMsg(J, n).id in Ids(inc)
    ensures BirthMsg(J, n).id in Ids(merged)
  {
    hide Rank, Lasting, Newer_, OlderPart;
    assert KeptOld(s, have, c, page, Newer, have[0]) && KeptOld(s, have, c, page, Newer, have[|have| - 1]);
    assert merged != [];
    var f, z := merged[0], merged[|merged| - 1];
    assert (f in inc || f in have) && (z in inc || z in have);
    assert s.windows[c].hasMoreBefore ==> Rank(J, have[0].id) <= n;
    if BirthMsg(J, n).id in Ids(have) {
      var y :| y in have && y.id == BirthMsg(J, n).id;
      assert KeptOld(s, have, c, page, Newer, y);
    } else {
      assert CoveredR(J, page, Newer, cursor, n);
      assert n <= page.pts;
    }
  }

  /** Latest and jump pages: the old window goes except for what is kept by its number, or joins from below. */
  lemma ReplacingHole(J: seq<Change>, s: State, have: seq<Msg>, c: Id, page: Page, kind: PageKind, cursor: Msg,
                      inc: seq<Msg>, merged: seq<Msg>, win': Window, n: nat)
    requires Setting(J, s, have, c, page, kind, cursor, inc, merged) && (kind == Latest || kind == Jump)
    requires win'.hasMoreAfter == page.hasMoreAfter && win'.hasMoreBefore == page.hasMoreBefore
    requires BirthIn(J, n, c) && Lasting(J, BirthMsg(J, n).id) && InsideR(J, merged, win', n)
    requires page.hasMoreAfter ==> forall x | x in merged :: x in inc
    requires !page.hasMoreAfter && n > page.pts ==> KeptBirth(J, s, have, c, page, kind, n)
    requires page.hasMoreBefore && (exists x :: KeptOld(s, have, c, page, kind, x) && Rank(J, x.id) <= n) &&
             (page.messages == [] || n < Rank(J, page.messages[0].id)) ==>
      KeptBirth(J, s, have, c, page, kind, n)
    requires n <= page.pts && CoveredR(J, page, kind, cursor, n) ==> BirthMsg(J, n).id in Ids(inc)
    ensures BirthMsg(J, n).id in Ids(merged)
  {
    hide Rank, Lasting, KeptOld;
    if KeptBirth(J, s, have, c, page, kind, n) {
      var x :| KeptOld(s, have, c, page, kind, x) && x.id == BirthMsg(J, n).id;
    } else {
      assert CoveredR(J, page, kind, cursor, n) by {
        if page.hasMoreBefore && merged != [] {
          assert merged[0] in inc || KeptOld(s, have, c, page, kind, merged[0]);
          if merged[0] in inc { var p :| p in page.messages && p.id == merged[0].id; }
        }
        if page.hasMoreAfter && merged != [] {
          assert merged[|merged| - 1] in inc;
          var p :| p in page.messages && p.id == merged[|merged| - 1].id;
        }
      }
      assert page.hasMoreAfter ==> n <= Rank(J, page.messages[|page.messages| - 1].id);
      var x :| x in inc && x.id == BirthMsg(J, n).id;
    }
  }

  lemma KeptIsOld(s: State, have: seq<Msg>, c: Id, page: Page, kind: PageKind)
    ensures forall x | KeptOld(s, have, c, page, kind, x) :: x in have
  {
  }

  /** A latest page that joins the old window from above: below the page the old window still answers. */
  lemma JoinedHole(J: seq<Change>, s: State, have: seq<Msg>, c: Id, page: Page, cursor: Msg,
                   inc: seq<Msg>, merged: seq<Msg>, win': Window, n: nat)
    requires Setting(J, s, have, c, page, Latest, cursor, inc, merged) && !page.hasMoreAfter && c in s.windows
    requires inc != [] && win'.hasMoreBefore == s.windows[c].hasMoreBefore && !win'.hasMoreAfter
    requires BirthIn(J, n, c) && Lasting(J, BirthMsg(J, n).id) && InsideR(J, merged, win', n)
    requires forall x | x in have && Rank(J, x.id) < Rank(J, inc[0].id) :: KeptOld(s, have, c, page, Latest, x)
    requires exists x :: x in have && Rank(J, inc[0].id) <= Rank(J, x.id)
    requires exists x :: x in have && Rank(J, x.id) < Rank(J, inc[0].id)
    requires InsideR(J, have, s.windows[c], n) && n < Rank(J, inc[0].id) ==> BirthMsg(J, n).id in Ids(have)
    requires Rank(J, BirthMsg(J, n).id) == n
    requires n > page.pts ==> exists x :: KeptOld(s, have, c, page, Latest, x) && x.id == BirthMsg(J, n).id
    requires n <= page.pts && CoveredR(J, page, Latest, cursor, n) ==> BirthMsg(J, n).id in Ids(inc)
    ensures BirthMsg(J, n).id in Ids(merged)
  {
    hide Rank, Lasting, KeptOld;
    if n > page.pts {
      var x :| KeptOld(s, have, c, page, Latest, x) && x.id == BirthMsg(J, n).id;
    } else if Rank(J, inc[0].id) <= n {
      assert inc[0] in inc;
      var p :| p in page.messages && p.id == inc[0].id;
      assert CoveredR(J, page, Latest, cursor, n);
      var x :| x in inc && x.id == BirthMsg(J, n).id;
    } else {
      var hi :| hi in have && Rank(J, inc[0].id) <= Rank(J, hi.id);
      var lo :| lo in have && Rank(J, lo.id) < Rank(J, inc[0].id);
      assert KeptOld(s, have, c, page, Latest, lo);
      assert merged != [];
      assert merged[0] in inc || merged[0] in have by {
        assert merged[0] in inc || KeptOld(s, have, c, page, Latest, merged[0]);
        KeptIsOld(s, have, c, page, Latest);
      }
      assert InsideR(J, have, s.windows[c], n);
      var y :| y in have && y.id == BirthMsg(J, n).id;
      assert KeptOld(s, have, c, page, Latest, y);
    }
  }

  // ----- the listed messages -----

  /** Where a merged message comes from, and the number it then carries. */
  lemma MergedTags(J: seq<Change>, s: State, have: seq<Msg>, c: Id, page: Page, kind: PageKind, inc: seq<Msg>, merged: seq<Msg>)
    requires IncHolds(J, s, have, c, page, inc) && ListHolds(J, s, have, c, page, kind, inc, merged)
    ensures forall x | x in merged ::
      (x in page.messages && x.id in Retagged(s, page)) || (x in have && x.id !in Retagged(s, page))
  {
    KeptIsOld(s, have, c, page, kind);
    hide KeptOld, Sorted, AllPlaced;
    forall x | x in merged
      ensures (x in page.messages && x.id in Retagged(s, page)) || (x in have && x.id !in Retagged(s, page))
    {
      if x.id in Retagged(s, page) {
        var p :| p in page.messages && p.id !in s.gone && !Newer_(s, page, p.id) && p.id == x.id;
        var y :| y in inc && y.id == p.id;
        FeedSafety.SameIdSameMsg(merged, x, y);
      }
    }
  }

  lemma RetaggedTag(s: State, page: Page, id: Id)
    ensures id in Retagged(s, page) ==> id in PageTags(s, page) && PageTags(s, page)[id] == page.pts
    ensures id !in Retagged(s, page) ==> (id in PageTags(s, page) <==> id in s.msgPts)
    ensures id !in Retagged(s, page) && id in s.msgPts ==> PageTags(s, page)[id] == s.msgPts[id]
  {
    hide Retagged;
  }

  /** A page view is as fresh as the window needs when nothing touched it since. */
  lemma PageViewFresh(J: seq<Change>, s: State, page: Page, x: Msg)
    requires StateOk(J, s) && ViewsCurrent(J, s, page)
    requires page.pts <= |J| && x in page.messages && ViewAt(J, x.id, page.pts) == Alive(x) && x.id in Retagged(s, page)
    ensures Fresh(J, x, Max(PtsOf(s), page.pts))
    ensures forall n: nat | n <= PtsOf(s) && Touches(J, n, x.id) :: n <= page.pts
  {
    ViewIsFresh(J, x, page.pts);
    hide ViewAt, Fresh, Touches;
    assert x.id !in s.gone && !Newer_(s, page, x.id);
    if page.pts < PtsOf(s) { FreshAdvances(J, x, page.pts, PtsOf(s)); }
  }

  lemma MergedFeedPart(J: seq<Change>, s: State, have: seq<Msg>, c: Id, page: Page, s': State, merged: seq<Msg>)
    requires FeedOk(merged) && (forall x | x in have :: x.conv == c && x.id !in s.gone && x.id in s.msgPts)
    requires StateOk(J, s) && page.pts <= |J| && forall m | m in page.messages :: m.conv == c
    requires s'.msgPts == PageTags(s, page) && s'.gone == s.gone && s'.pts == s.pts
    requires forall x | x in merged ::
      (x in page.messages && x.id in Retagged(s, page)) || (x in have && x.id !in Retagged(s, page))
    ensures StateOk(J, s') && FeedPart(s', merged, c)
  {
    hide ViewAt, FeedOk;
    forall x | x in merged ensures x.conv == c && x.id !in s.gone && x.id in s'.msgPts { RetaggedTag(s, page, x.id); }
    hide Retagged;
    forall id | id in s'.msgPts ensures s'.msgPts[id] <= |J| { RetaggedTag(s, page, id); }
  }

  lemma MergedViews(J: seq<Change>, s: State, have: seq<Msg>, c: Id, page: Page, s': State, merged: seq<Msg>)
    requires forall x | x in have :: x.id in s.msgPts
    requires FreshPart(J, s, have) && StampPart(J, s, have) && StateOk(J, s) && ViewsCurrent(J, s, page)
    requires page.pts <= |J| && forall m | m in page.messages :: ViewAt(J, m.id, page.pts) == Alive(m)
    requires s'.msgPts == PageTags(s, page) && s'.pts == s.pts
    requires forall x | x in merged ::
      (x in page.messages && x.id in Retagged(s, page)) || (x in have && x.id !in Retagged(s, page))
    ensures FreshPart(J, s', merged) && StampPart(J, s', merged)
  {
    hide ViewAt, Fresh, Touches, ViewsCurrent;
    forall x | x in merged
      ensures Fresh(J, x, Max(PtsOf(s'), TagOf(s', x.id)))
      ensures forall n: nat | n <= PtsOf(s') && Touches(J, n, x.id) :: n <= TagOf(s', x.id)
    {
      RetaggedTag(s, page, x.id);
      if x.id in Retagged(s, page) { PageViewFresh(J, s, page, x); }
    }
  }

  /** Without `ViewsCurrent` a taken view misses a change that the client has consumed. */
  lemma StampsNeedCurrent(J: seq<Change>, s: State, have: seq<Msg>, c: Id, page: Page, kind: PageKind,
                          inc: seq<Msg>, merged: seq<Msg>, s': State)
    requires IncHolds(J, s, have, c, page, inc) && ListHolds(J, s, have, c, page, kind, inc, merged)
    requires s'.msgPts == PageTags(s, page) && s'.pts == s.pts && StampPart(J, s', merged)
    ensures ViewsCurrent(J, s, page)
  {
    hide Touches, KeptOld, AllPlaced, FeedOk;
    forall m, n: nat | m in page.messages && m.id !in s.gone && !Newer_(s, page, m.id) && page.pts < n <= PtsOf(s)
      ensures !Touches(J, n, m.id)
    {
      assert m.id in Retagged(s, page) && !Dropped(s, have, page, m.id);
      RetaggedTag(s, page, m.id);
      hide Retagged, PageTags;
      var y :| y in inc && y.id == m.id;
      assert y in merged;
    }
  }

  // ----- the exact condition for holes -----

  /** Something of this id stays, exactly when it is in the merged list. */
  lemma StaysIffMerged(J: seq<Change>, s: State, have: seq<Msg>, c: Id, page: Page, kind: PageKind,
                       inc: seq<Msg>, merged: seq<Msg>, id: Id)
    requires inc == Incoming(s, have, page) && ListHolds(J, s, have, c, page, kind, inc, merged)
    ensures id in Ids(merged) <==> exists x :: Stays(s, have, c, page, kind, x) && x.id == id
  {
    hide IncomingOf, KeptOld, FeedOk, AllPlaced;
    if id in Ids(merged) {
      var x :| x in merged && x.id == id;
      assert Stays(s, have, c, page, kind, x);
    }
  }

  lemma StaysPlaced(J: seq<Change>, s: State, have: seq<Msg>, c: Id, page: Page, kind: PageKind, inc: seq<Msg>, x: Msg)
    requires inc == Incoming(s, have, page) && AllPlaced(J, c, inc) && AllPlaced(J, c, have) && Stays(s, have, c, page, kind, x)
    ensures Placed(J, c, x)
  {
    hide IncomingOf, Placed, OlderPart;
  }

  /** `Within` says in terms of the inputs that a birth falls inside the merged window. */
  lemma WithinIsInside(J: seq<Change>, s: State, have: seq<Msg>, c: Id, page: Page, kind: PageKind,
                       inc: seq<Msg>, merged: seq<Msg>, n: nat)
    requires Lawful(J) && BirthIn(J, n, c) && inc == Incoming(s, have, page) && AllPlaced(J, c, inc) && AllPlaced(J, c, have)
    requires ListHolds(J, s, have, c, page, kind, inc, merged)
    ensures Within(s, have, c, page, kind, BirthMsg(J, n)) <==>
      InsideWindow(merged, MergedWindow(s, have, c, page, kind), BirthMsg(J, n))
  {
    Ranked(J, c, merged);
    assert AllPlaced(J, c, merged);
    InsideByRank(J, c, merged, MergedWindow(s, have, c, page, kind), n);
    BirthIsPlaced(J, n, c);
    RankOrder(J, c);
    hide Lawful, Before, Placed, Rank, InsideWindow, MergedWindow, AllPlaced, IncomingOf, KeptOld, Stays, ListHolds;
    forall x | Stays(s, have, c, page, kind, x)
      ensures Placed(J, c, x) && exists z :: z in merged && z.id == x.id
    {
      StaysPlaced(J, s, have, c, page, kind, inc, x);
      StaysIffMerged(J, s, have, c, page, kind, inc, merged, x.id);
    }
    if merged != [] {
      StaysOf(J, s, have, c, page, kind, inc, merged, merged[0]);
      StaysOf(J, s, have, c, page, kind, inc, merged, merged[|merged| - 1]);
    }
  }

  lemma StaysOf(J: seq<Change>, s: State, have: seq<Msg>, c: Id, page: Page, kind: PageKind,
                inc: seq<Msg>, merged: seq<Msg>, z: Msg)
    requires inc == Incoming(s, have, page) && ListHolds(J, s, have, c, page, kind, inc, merged) && z in merged
    ensures Stays(s, have, c, page, kind, z)
  {
    hide IncomingOf, KeptOld, FeedOk, AllPlaced;
  }

  /** Every message of a page lies in the part the page covers, and was born by its number. */
  lemma PageCovers(J: seq<Change>, c: Id, page: Page, kind: PageKind, cursor: Msg, n: nat)
    requires Lawful(J) && PageOk(J, c, page, kind, cursor) && AllPlaced(J, c, page.messages)
    requires BirthIn(J, n, c) && BirthMsg(J, n).id in Ids(page.messages)
    ensures n <= page.pts && Covered(page, kind, cursor, BirthMsg(J, n))
  {
    Ranked(J, c, page.messages);
    PageRanks(J, c, page, kind, cursor);
    RankIs(J, BirthMsg(J, n).id, n);
    RankOrder(J, c);
    CoveredByRank(J, c, page, kind, cursor, n);
    hide Lawful, Before, Placed, Rank, Covered, ViewAt, Sorted, UniqueIds;
    var p :| p in page.messages && p.id == BirthMsg(J, n).id;
    assert Placed(J, c, p);
  }

  /** A message that still exists is in the merged list exactly when the page brings it or it stays. */
  lemma ListedIff(J: seq<Change>, s: State, have: seq<Msg>, c: Id, page: Page, kind: PageKind,
                  cursor: Msg, inc: seq<Msg>, merged: seq<Msg>, n: nat)
    requires Lawful(J) && StateOk(J, s) && PageOk(J, c, page, kind, cursor) && inc == Incoming(s, have, page)
    requires AllPlaced(J, c, page.messages)
    requires IncHolds(J, s, have, c, page, inc) && ListHolds(J, s, have, c, page, kind, inc, merged)
    requires BirthIn(J, n, c) && Lasting(J, BirthMsg(J, n).id)
    ensures BirthMsg(J, n).id in Ids(merged) <==>
      (n <= page.pts && Covered(page, kind, cursor, BirthMsg(J, n)) && !Dropped(s, have, page, BirthMsg(J, n).id)) ||
      exists x :: KeptOld(s, have, c, page, kind, x) && x.id == BirthMsg(J, n).id
  {
    var id := BirthMsg(J, n).id;
    if n <= page.pts && Covered(page, kind, cursor, BirthMsg(J, n)) { InPage(J, s, have, c, page, kind, cursor, inc, n); }
    if id in Ids(inc) { PageCovers(J, c, page, kind, cursor, n); }
    hide Lawful, StateOk, PageOk, AllPlaced, KeptOld, Covered, IncomingOf, Lasting, FeedOk;
    assert id in Ids(inc) ==> !Dropped(s, have, page, id);
    hide Dropped;
    assert id in Ids(inc) ==> id in Ids(merged);
    if id in Ids(merged) {
      var x :| x in merged && x.id == id;
      assert x in inc || KeptOld(s, have, c, page, kind, x);
    }
  }

  // ----- holes, birth by birth -----

  /** The four conditions, for one birth. */
  ghost predicate BirthFits(J: seq<Change>, s: State, have: seq<Msg>, c: Id, page: Page, kind: PageKind, cursor: Msg, n: nat)
    requires IsBirth(J, n)
  {
    var y := BirthMsg(J, n);
    !(y.id in Ids(page.messages) && Dropped(s, have, page, y.id)) &&
    (kind != Older && !page.hasMoreAfter && page.pts < n ==> KeptBirth(J, s, have, c, page, kind, n)) &&
    (c in s.windows && BelowAnchor(s, have, c, page, kind, cursor, y) && InsideWindow(have, s.windows[c], y) ==> y.id in Ids(have)) &&
    (Replacing(s, have, c, page, kind) && (exists x :: KeptOld(s, have, c, page, kind, x) && !Before(y, x)) &&
     (page.messages == [] || Before(y, page.messages[0])) ==>
       KeptBirth(J, s, have, c, page, kind, n))
  }

  lemma WithinByKey(s: State, have: seq<Msg>, c: Id, page: Page, kind: PageKind, x: Msg, y: Msg)
    requires SameKey(x, y)
    ensures Within(s, have, c, page, kind, x) <==> Within(s, have, c, page, kind, y)
  {
    hide Stays, MergedWindow, IdLess;
    assert forall z: Msg :: (Before(x, z) <==> Before(y, z)) && (Before(z, x) <==> Before(z, y));
    hide Before;
  }

  lemma FitsEach(J: seq<Change>, s: State, have: seq<Msg>, c: Id, page: Page, kind: PageKind, cursor: Msg, n: nat)
    requires Lawful(J) && AllPlaced(J, c, page.messages) && HolesFit(J, s, have, c, page, kind, cursor)
    requires Owed(J, s, c, page, kind, n) && Within(s, have, c, page, kind, BirthMsg(J, n))
    ensures BirthFits(J, s, have, c, page, kind, cursor, n)
  {
    var id := BirthMsg(J, n).id;
    BirthIsPlaced(J, n, c);
    hide Lawful, Placed, Within, KnownAfter, Lasting, KeptOld, BelowAnchor, Dropped, Replacing, InsideWindow, Before;
    if id in Ids(page.messages) {
      var p :| p in page.messages && p.id == id;
      PlacedSameKey(J, c, p, BirthMsg(J, n));
      WithinByKey(s, have, c, page, kind, p, BirthMsg(J, n));
    }
  }

  lemma OldHoles(J: seq<Change>, known: set<nat>, s: State, have: seq<Msg>, c: Id, n: nat)
    requires Lawful(J) && AllPlaced(J, c, have) && c in s.windows && HolesPart(J, known, have, s.windows[c], c)
    requires n in known && BirthIn(J, n, c) && Lasting(J, BirthMsg(J, n).id) && InsideR(J, have, s.windows[c], n)
    ensures BirthMsg(J, n).id in Ids(have)
  {
    InsideByRank(J, c, have, s.windows[c], n);
    hide InsideR, InsideWindow, Lasting, Placed;
  }

  /** Where the merged window vouches for no more than the old one did, the old one lists it. */
  lemma OwedOld(J: seq<Change>, known: set<nat>, s: State, have: seq<Msg>, c: Id, page: Page, kind: PageKind, n: nat)
    requires Lawful(J) && AllPlaced(J, c, have) && c in s.windows && HolesPart(J, known, have, s.windows[c], c)
    requires RemnantPart(J, known, s, have, c) && KnownPart(J, known, s, s.windows[c])
    requires Owed(J, s, c, page, kind, n) && BaseAfter(s, c, page, kind) == BaseOf(s, c) && InsideR(J, have, s.windows[c], n)
    ensures BirthMsg(J, n).id in Ids(have)
  {
    InsideByRank(J, c, have, s.windows[c], n);
    hide Lawful, InsideR, InsideWindow, Lasting, Placed, BaseAfter, Ids, AllPlaced;
    assert n <= Max(PtsOf(s), BaseOf(s, c)) ==> n in known;
  }

  /** What the guards of the loaders and the request from an edge come to. */
  lemma EdgeFacts(J: seq<Change>, known: set<nat>, s: State, list: seq<Msg>, c: Id, page: Page, kind: PageKind, cursor: Msg)
    requires PageCase(J, known, s, Some(list), c, page, kind, cursor) && (kind == Older || kind == Newer)
    ensures Lawful(J) && c in s.windows && list != [] && Placed(J, c, cursor) && Rank(J, cursor.id) <= page.pts
    ensures HolesPart(J, known, list, s.windows[c], c) && RemnantPart(J, known, s, list, c) && KnownPart(J, known, s, s.windows[c])
    ensures (if kind == Older then list[0] else list[|list| - 1]).id == cursor.id
    ensures forall p | p in page.messages ::
      if kind == Older then Rank(J, p.id) < Rank(J, cursor.id) else Rank(J, cursor.id) < Rank(J, p.id)
  {
    EdgePagesDisjoint(J, known, s, Some(list), c, page, kind, cursor);
    hide Lawful, StateOk, FeedPart, FreshPart, StampPart, HolesPart, RemnantPart, KnownPart, Rank, Placed, Covered, FeedOk, ViewAt;
    assert list[0] in list && list[|list| - 1] in list;
  }

  lemma OlderOne(J: seq<Change>, known: set<nat>, s: State, list: seq<Msg>, c: Id, page: Page, cursor: Msg,
                 inc: seq<Msg>, merged: seq<Msg>, n: nat)
    requires PageCase(J, known, s, Some(list), c, page, Older, cursor) && AllPlaced(J, c, list) && AllPlaced(J, c, merged)
    requires Setting(J, s, list, c, page, Older, cursor, inc, merged) && Owed(J, s, c, page, Older, n)
    requires n <= page.pts && CoveredR(J, page, Older, cursor, n) ==> BirthMsg(J, n).id in Ids(inc)
    requires InsideWindow(merged, s.windows[c].(hasMoreBefore := page.hasMoreBefore), BirthMsg(J, n))
    ensures BirthMsg(J, n).id in Ids(merged)
  {
    hide PageCase, Lasting, Placed, Rank, Setting, InsideWindow, InsideR, Lawful, HolesPart, KnownAfter, KnownPart, RemnantPart;
    hide CoveredR, AllPlaced;
    EdgeFacts(J, known, s, list, c, page, Older, cursor);
    InsideByRank(J, c, merged, s.windows[c].(hasMoreBefore := page.hasMoreBefore), n);
    if InsideR(J, list, s.windows[c], n) { OwedOld(J, known, s, list, c, page, Older, n); }
    OlderHole(J, s, list, c, page, cursor, inc, merged, n);
  }

  /** The old window lists what a newer page does not cover. */
  lemma NewerOld(J: seq<Change>, known: set<nat>, s: State, list: seq<Msg>, c: Id, page: Page, cursor: Msg, n: nat)
    requires Lawful(J) && AllPlaced(J, c, list) && c in s.windows && HolesPart(J, known, list, s.windows[c], c)
    requires RemnantPart(J, known, s, list, c) && KnownPart(J, known, s, s.windows[c]) && Placed(J, c, cursor)
    requires Owed(J, s, c, page, Newer, n) && BirthFits(J, s, list, c, page, Newer, cursor, n)
    ensures InsideR(J, list, s.windows[c], n) && n <= Rank(J, cursor.id) ==> BirthMsg(J, n).id in Ids(list)
    ensures page.hasMoreAfter || n <= page.pts || BirthMsg(J, n).id in Ids(list)
  {
    BirthIsPlaced(J, n, c);
    RankOrder(J, c);
    InsideByRank(J, c, list, s.windows[c], n);
    assert n <= Rank(J, cursor.id) && !page.hasMoreAfter ==> BelowAnchor(s, list, c, page, Newer, cursor, BirthMsg(J, n)) by {
      hide Lawful, Placed, Rank, Before;
    }
    hide Lawful, Placed, Rank, Before, KnownAfter, InsideR, BelowAnchor, Lasting, HolesPart, KnownPart, RemnantPart, AllPlaced;
    hide Replacing, Dropped, InsideWindow;
    if page.hasMoreAfter && InsideR(J, list, s.windows[c], n) { OwedOld(J, known, s, list, c, page, Newer, n); }
  }

  lemma NewerOne(J: seq<Change>, known: set<nat>, s: State, list: seq<Msg>, c: Id, page: Page, cursor: Msg,
                 inc: seq<Msg>, merged: seq<Msg>, win': Window, n: nat)
    requires PageCase(J, known, s, Some(list), c, page, Newer, cursor) && AllPlaced(J, c, list) && AllPlaced(J, c, merged)
    requires Setting(J, s, list, c, page, Newer, cursor, inc, merged) && Owed(J, s, c, page, Newer, n)
    requires n <= page.pts && CoveredR(J, page, Newer, cursor, n) ==> BirthMsg(J, n).id in Ids(inc)
    requires BirthFits(J, s, list, c, page, Newer, cursor, n)
    requires win'.hasMoreAfter == page.hasMoreAfter && win'.hasMoreBefore == s.windows[c].hasMoreBefore
    requires InsideWindow(merged, win', BirthMsg(J, n))
    ensures BirthMsg(J, n).id in Ids(merged)
  {
    hide PageCase, Lasting, Placed, Rank, Setting, InsideWindow, InsideR, Lawful, HolesPart, KnownPart, RemnantPart, KnownAfter;
    hide BirthFits, CoveredR, AllPlaced;
    EdgeFacts(J, known, s, list, c, page, Newer, cursor);
    InsideByRank(J, c, merged, win', n);
    InsideFlags(J, merged, win', s.windows[c].(hasMoreAfter := page.hasMoreAfter), n);
    NewerOld(J, known, s, list, c, page, cursor, n);
    NewerHole(J, s, list, c, page, cursor, inc, merged, n);
  }

  lemma InsideFlags(J: seq<Change>, list: seq<Msg>, win: Window, win': Window, n: nat)
    requires InsideR(J, list, win, n) && win.hasMoreBefore == win'.hasMoreBefore && win.hasMoreAfter == win'.hasMoreAfter
    ensures InsideR(J, list, win', n)
  {
  }

  lemma HolesIntro(J: seq<Change>, known: set<nat>, list: seq<Msg>, win: Window, c: Id)
    requires forall n | n in known && BirthIn(J, n, c) && Lasting(J, BirthMsg(J, n).id) && InsideWindow(list, win, BirthMsg(J, n)) ::
      BirthMsg(J, n).id in Ids(list)
    ensures HolesPart(J, known, list, win, c)
  {
  }

  // ----- pages that replace the window, or join it from above -----

  /** A page that does not join keeps old messages by their number only. */
  lemma KeptByTag(s: State, have: seq<Msg>, c: Id, page: Page, kind: PageKind)
    requires kind == Jump || (kind == Latest && OlderPart(s, have, c, page, Incoming(s, have, page)) == [])
    ensures forall x | KeptOld(s, have, c, page, kind, x) ::
      x in have && TagOf(s, x.id) > page.pts && (kind == Jump ==> !page.hasMoreAfter)
  {
    hide OlderPart, IncomingOf;
  }

  /** `BirthFits` for a replacing page, in birth numbers. */
  lemma ReplacingFits(J: seq<Change>, s: State, have: seq<Msg>, c: Id, page: Page, kind: PageKind, cursor: Msg, n: nat)
    requires Lawful(J) && AllPlaced(J, c, have) && AllPlaced(J, c, page.messages) && BirthIn(J, n, c)
    requires kind == Jump || (kind == Latest && OlderPart(s, have, c, page, Incoming(s, have, page)) == [])
    requires BirthFits(J, s, have, c, page, kind, cursor, n)
    ensures page.hasMoreBefore && (exists x :: KeptOld(s, have, c, page, kind, x) && Rank(J, x.id) <= n) &&
            (page.messages == [] || n < Rank(J, page.messages[0].id)) ==>
      KeptBirth(J, s, have, c, page, kind, n)
    ensures !page.hasMoreAfter && n > page.pts ==> KeptBirth(J, s, have, c, page, kind, n)
  {
    BirthIsPlaced(J, n, c);
    RankOrder(J, c);
    KeptByTag(s, have, c, page, kind);
    assert page.messages != [] ==> page.messages[0] in page.messages;
    hide Lawful, Before, Placed, Rank, KeptOld, OlderPart, Incoming, BelowAnchor, Dropped, InsideWindow;
    if page.hasMoreBefore && (exists x :: KeptOld(s, have, c, page, kind, x) && Rank(J, x.id) <= n) &&
       (page.messages == [] || n < Rank(J, page.messages[0].id)) {
      var x :| KeptOld(s, have, c, page, kind, x) && Rank(J, x.id) <= n;
      assert !Before(BirthMsg(J, n), x);
    }
  }

  lemma ReplacingOne(J: seq<Change>, s: State, have: seq<Msg>, c: Id, page: Page, kind: PageKind,
                     cursor: Msg, inc: seq<Msg>, merged: seq<Msg>, win': Window, n: nat)
    requires Lawful(J) && AllPlaced(J, c, have) && AllPlaced(J, c, page.messages) && AllPlaced(J, c, merged)
    requires Setting(J, s, have, c, page, kind, cursor, inc, merged) && inc == Incoming(s, have, page)
    requires kind == Jump || (kind == Latest && !page.hasMoreAfter && OlderPart(s, have, c, page, inc) == [])
    requires win'.hasMoreAfter == page.hasMoreAfter && win'.hasMoreBefore == page.hasMoreBefore
    requires Owed(J, s, c, page, kind, n) && BirthFits(J, s, have, c, page, kind, cursor, n)
    requires n <= page.pts && CoveredR(J, page, kind, cursor, n) ==> BirthMsg(J, n).id in Ids(inc)
    requires InsideWindow(merged, win', BirthMsg(J, n))
    ensures BirthMsg(J, n).id in Ids(merged)
  {
    InsideByRank(J, c, merged, win', n);
    KeptByTag(s, have, c, page, kind);
    hide OlderPart, IncomingOf, InsideWindow, InsideR, Lasting, KnownAfter, BirthFits, CoveredR;
    ReplacingFits(J, s, have, c, page, kind, cursor, n);
    assert page.hasMoreAfter ==> forall x | x in merged :: x in inc;
    hide KeptOld, Sorted, UniqueIds, Rank, Lawful, Before, Placed, AllPlaced, Setting;
    ReplacingHole(J, s, have, c, page, kind, cursor, inc, merged, win', n);
  }

  lemma OlderPartFacts(J: seq<Change>, s: State, have: seq<Msg>, c: Id, page: Page)
    requires Lawful(J) && AllPlaced(J, c, have) && AllPlaced(J, c, Incoming(s, have, page))
    requires OlderPart(s, have, c, page, Incoming(s, have, page)) != []
    ensures var inc := Incoming(s, have, page);
      inc != [] && page.hasMoreBefore &&
      (forall x | x in have && Rank(J, x.id) < Rank(J, inc[0].id) :: KeptOld(s, have, c, page, Latest, x)) &&
      (exists x :: x in have && Rank(J, inc[0].id) <= Rank(J, x.id)) &&
      (exists x :: x in have && Rank(J, x.id) < Rank(J, inc[0].id))
  {
    RankOrder(J, c);
    hide Lawful, Before, Placed, Rank, IncomingOf;
    var inc := Incoming(s, have, page);
    var older := OlderPart(s, have, c, page, inc);
    assert inc[0] in inc;
    var hi :| hi in have && TagOf(s, hi.id) <= page.pts && !Before(hi, inc[0]);
    assert Rank(J, inc[0].id) <= Rank(J, hi.id);
    assert older[0] in older;
    assert older[0] in have && Before(older[0], inc[0]);
    assert Rank(J, older[0].id) < Rank(J, inc[0].id);
  }

  /** The old window lists what lies below a page that joins. */
  lemma JoinedOld(J: seq<Change>, s: State, list: seq<Msg>, c: Id, page: Page, inc: seq<Msg>, cursor: Msg, n: nat)
    requires Lawful(J) && c in s.windows && inc == Incoming(s, list, page) && inc != []
    requires AllPlaced(J, c, list) && AllPlaced(J, c, inc) && OlderPart(s, list, c, page, inc) != []
    requires BirthIn(J, n, c) && BirthFits(J, s, list, c, page, Latest, cursor, n)
    requires InsideR(J, list, s.windows[c], n) && n < Rank(J, inc[0].id)
    ensures BirthMsg(J, n).id in Ids(list)
  {
    BirthIsPlaced(J, n, c);
    RankOrder(J, c);
    InsideByRank(J, c, list, s.windows[c], n);
    assert BelowAnchor(s, list, c, page, Latest, cursor, BirthMsg(J, n)) by {
      hide Lawful, Placed, Rank, Before, IncomingOf, OlderPart;
      assert inc[0] in inc;
    }
    hide Lawful, Placed, Rank, Before, IncomingOf, OlderPart, InsideR, BelowAnchor, AllPlaced, Dropped, KeptBirth, Replacing, InsideWindow;
  }

  lemma JoinedOne(J: seq<Change>, s: State, list: seq<Msg>, c: Id, page: Page,
                  cursor: Msg, inc: seq<Msg>, merged: seq<Msg>, win': Window, n: nat)
    requires Lawful(J) && c in s.windows && inc == Incoming(s, list, page)
    requires AllPlaced(J, c, list) && AllPlaced(J, c, merged) && AllPlaced(J, c, inc)
    requires Setting(J, s, list, c, page, Latest, cursor, inc, merged) && !page.hasMoreAfter
    requires OlderPart(s, list, c, page, inc) != []
    requires win'.hasMoreBefore == s.windows[c].hasMoreBefore && !win'.hasMoreAfter
    requires Owed(J, s, c, page, Latest, n) && BirthFits(J, s, list, c, page, Latest, cursor, n)
    requires n <= page.pts && CoveredR(J, page, Latest, cursor, n) ==> BirthMsg(J, n).id in Ids(inc)
    requires InsideWindow(merged, win', BirthMsg(J, n))
    ensures BirthMsg(J, n).id in Ids(merged)
  {
    InsideByRank(J, c, merged, win', n);
    RankIs(J, BirthMsg(J, n).id, n);
    OlderPartFacts(J, s, list, c, page);
    assert n > page.pts ==> KeptBirth(J, s, list, c, page, Latest, n);
    hide InsideWindow, Lasting, Rank, IncomingOf, OlderPart, InsideR, KnownAfter, BirthFits, CoveredR;
    hide KeptOld, Sorted, UniqueIds, Lawful, Before, Placed, AllPlaced, Setting;
    if InsideR(J, list, s.windows[c], n) && n < Rank(J, inc[0].id) { JoinedOld(J, s, list, c, page, inc, cursor, n); }
    JoinedHole(J, s, list, c, page, cursor, inc, merged, win', n);
  }

  lemma OlderOfNone(s: State, c: Id, page: Page, inc: seq<Msg>)
    ensures OlderPart(s, [], c, page, inc) == []
  {
  }

  lemma LatestJumpOne(J: seq<Change>, known: set<nat>, s: State, list: Option<seq<Msg>>, c: Id, page: Page, kind: PageKind,
                      cursor: Msg, inc: seq<Msg>, merged: seq<Msg>, n: nat)
    requires PageCase(J, known, s, list, c, page, kind, cursor) && (kind == Latest || kind == Jump)
    requires inc == Incoming(s, Have(list), page)
    requires AllPlaced(J, c, Have(list)) && AllPlaced(J, c, page.messages) && AllPlaced(J, c, merged) && AllPlaced(J, c, inc)
    requires Setting(J, s, Have(list), c, page, kind, cursor, inc, merged)
    requires Owed(J, s, c, page, kind, n) && BirthFits(J, s, Have(list), c, page, kind, cursor, n)
    requires n <= page.pts && CoveredR(J, page, kind, cursor, n) ==> BirthMsg(J, n).id in Ids(inc)
    requires InsideWindow(merged, MergedWindow(s, Have(list), c, page, kind), BirthMsg(J, n))
    ensures BirthMsg(J, n).id in Ids(merged)
  {
    var win' := MergedWindow(s, Have(list), c, page, kind);
    var joined := kind == Latest && OlderPart(s, Have(list), c, page, inc) != [];
    assert kind == Latest ==> !page.hasMoreAfter;
    assert joined ==> list.Some? by { if list.None? { OlderOfNone(s, c, page, inc); } }
    hide PageOk, StateOk, WinInv, IncomingOf, InsideWindow, Lasting, Setting, OlderPart, BirthFits, CoveredR, AllPlaced, Lawful;
    hide Before, KnownAfter;
    if joined {
      JoinedOne(J, s, list.value, c, page, cursor, inc, merged, win', n);
    } else {
      ReplacingOne(J, s, Have(list), c, page, kind, cursor, inc, merged, win', n);
    }
  }

  // ----- numbers of unlisted messages -----

  lemma NotRetagged(J: seq<Change>, s: State, have: seq<Msg>, c: Id, page: Page, kind: PageKind, inc: seq<Msg>, merged: seq<Msg>, id: Id)
    requires IncHolds(J, s, have, c, page, inc) && ListHolds(J, s, have, c, page, kind, inc, merged)
    requires id !in Ids(merged)
    ensures id !in Retagged(s, page)
  {
    hide KeptOld, Sorted, UniqueIds, AllPlaced, Newer_;
    forall p | p in page.messages && p.id !in s.gone && !Dropped(s, have, page, p.id) ensures p.id != id {
      var y :| y in inc && y.id == p.id;
      assert y in merged;
    }
  }

  /** Numbers that stay behind are accounted for. */
  lemma PageRemnants(J: seq<Change>, known: set<nat>, s: State, list: Option<seq<Msg>>, c: Id, page: Page, kind: PageKind, cursor: Msg)
    requires PageCase(J, known, s, list, c, page, kind, cursor)
    ensures RemnantPart(J, KnownAfter(J, s, c, page, kind), ApplyPage(s, list, c, page, kind).state,
                        MergedList(s, Have(list), c, page, kind), c)
  {
    var have, inc := Have(list), Incoming(s, Have(list), page);
    var merged, s' := MergedList(s, have, c, page, kind), ApplyPage(s, list, c, page, kind).state;
    MergedMembers(J, known, s, list, c, page, kind, cursor);
    assert s'.msgPts == PageTags(s, page);
    assert forall n | n in Tagged(J, s, c) :: n in KnownAfter(J, s, c, page, kind);
    hide PageCase, Inputs, IncHolds, ListHolds, MergedList, Incoming, PageTags, ApplyPage, KnownAfter, Lasting;
    forall n | BirthIn(J, n, c) && Lasting(J, BirthMsg(J, n).id) && BirthMsg(J, n).id !in Ids(merged) &&
               BirthMsg(J, n).id in s'.msgPts && n <= s'.msgPts[BirthMsg(J, n).id]
      ensures n in KnownAfter(J, s, c, page, kind)
    {
      NotRetagged(J, s, have, c, page, kind, inc, merged, BirthMsg(J, n).id);
      RetaggedTag(s, page, BirthMsg(J, n).id);
      assert n in Tagged(J, s, c);
    }
  }

  lemma BaseIs(s: State, have: seq<Msg>, c: Id, page: Page, kind: PageKind)
    requires kind == Older || kind == Newer ==> c in s.windows
    requires kind == Latest ==> !page.hasMoreAfter
    ensures MergedWindow(s, have, c, page, kind).basePts == BaseAfter(s, c, page, kind)
  {
    hide OlderPart, IncomingOf;
  }

  /** The least that any account of the merged window holds. */
  lemma PageAccount(J: seq<Change>, s: State, list: Option<seq<Msg>>, c: Id, page: Page, kind: PageKind)
    requires kind == Older || kind == Newer ==> c in s.windows
    requires kind == Latest ==> !page.hasMoreAfter
    ensures var t := ApplyPage(s, list, c, page, kind).state;
      BaseOf(t, c) == BaseAfter(s, c, page, kind) && KnownAfter(J, s, c, page, kind) <= Account(J, t, BaseOf(t, c), c)
  {
    BaseIs(s, Have(list), c, page, kind);
    var t := ApplyPage(s, list, c, page, kind).state;
    assert t.msgPts == PageTags(s, page) && PtsOf(t) == PtsOf(s) && BaseOf(t, c) == BaseAfter(s, c, page, kind);
    hide ApplyPage, PageTags, BaseAfter, BaseOf;
    forall n | n in Tagged(J, s, c) ensures n in Tagged(J, t, c) {
      var id := BirthMsg(J, n).id;
      RetaggedTag(s, page, id);
      assert id in Retagged(s, page) ==> s.msgPts[id] <= page.pts;
      hide Retagged;
    }
  }

  // ----- the theorems -----

  lemma KnownPartAfter(J: seq<Change>, known: set<nat>, s: State, list: Option<seq<Msg>>, c: Id, page: Page, kind: PageKind, cursor: Msg)
    requires PageCase(J, known, s, list, c, page, kind, cursor)
    ensures KnownPart(J, KnownAfter(J, s, c, page, kind), s, MergedWindow(s, Have(list), c, page, kind))
  {
    PagePreparts(J, known, s, list, c, page, kind, cursor);
    BaseIs(s, Have(list), c, page, kind);
    hide PageCase, MergedWindow, FreshPart, StampPart, RemnantPart, Lawful, ViewAt, Covered, PageOk;
    assert BaseAfter(s, c, page, kind) <= |J|;
    hide BaseAfter;
  }

  lemma MergedIsFeed(J: seq<Change>, s: State, have: seq<Msg>, c: Id, page: Page, kind: PageKind, inc: seq<Msg>, merged: seq<Msg>)
    requires ListHolds(J, s, have, c, page, kind, inc, merged)
    ensures FeedOk(merged)
  {
  }

  lemma PlacedParts(J: seq<Change>, s: State, have: seq<Msg>, c: Id, page: Page, kind: PageKind, inc: seq<Msg>, merged: seq<Msg>)
    requires Inputs(J, s, have, c, page) && IncHolds(J, s, have, c, page, inc) && ListHolds(J, s, have, c, page, kind, inc, merged)
    ensures AllPlaced(J, c, have) && AllPlaced(J, c, page.messages) && AllPlaced(J, c, inc) && AllPlaced(J, c, merged)
  {
  }

  /** What the last steps of the theorems need from the case. */
  lemma PagePreparts(J: seq<Change>, known: set<nat>, s: State, list: Option<seq<Msg>>, c: Id, page: Page, kind: PageKind, cursor: Msg)
    requires PageCase(J, known, s, list, c, page, kind, cursor)
    ensures Lawful(J) && StateOk(J, s) && page.pts <= |J| && PageOk(J, c, page, kind, cursor)
    ensures FreshPart(J, s, Have(list)) && StampPart(J, s, Have(list))
    ensures forall x | x in Have(list) :: x.conv == c && x.id !in s.gone && x.id in s.msgPts
    ensures forall m | m in page.messages :: m.conv == c && ViewAt(J, m.id, page.pts) == Alive(m)
    ensures list.Some? <==> c in s.windows
    ensures list.Some? ==> RemnantPart(J, known, s, list.value, c) && KnownPart(J, known, s, s.windows[c])
    ensures kind == Older || kind == Newer ==> list.Some?
    ensures kind == Latest ==> !page.hasMoreAfter
  {
    hide ViewAt, FeedOk, Covered, Lasting, InsideWindow, HolesPart, Fresh, Lawful;
  }

  lemma PageFeedPart(J: seq<Change>, known: set<nat>, s: State, list: Option<seq<Msg>>, c: Id, page: Page, kind: PageKind, cursor: Msg)
    requires PageCase(J, known, s, list, c, page, kind, cursor)
    ensures var s', merged := ApplyPage(s, list, c, page, kind).state, MergedList(s, Have(list), c, page, kind);
      StateOk(J, s') && FeedPart(s', merged, c) &&
      forall x | x in merged ::
        (x in page.messages && x.id in Retagged(s, page)) || (x in Have(list) && x.id !in Retagged(s, page))
  {
    var have, inc := Have(list), Incoming(s, Have(list), page);
    var merged, s' := MergedList(s, have, c, page, kind), ApplyPage(s, list, c, page, kind).state;
    MergedMembers(J, known, s, list, c, page, kind, cursor);
    PagePreparts(J, known, s, list, c, page, kind, cursor);
    hide PageCase, Inputs, IncHolds, ListHolds, MergedList, IncomingOf, FreshPart, StampPart, StateOk, PageOk, Lawful;
    hide RemnantPart, KnownPart, Retagged, FeedOk, MergedWindow, PageTags, FeedPart;
    MergedTags(J, s, have, c, page, kind, inc, merged);
    MergedIsFeed(J, s, have, c, page, kind, inc, merged);
    MergedFeedPart(J, s, have, c, page, s', merged);
  }

  lemma PageViewsIff(J: seq<Change>, known: set<nat>, s: State, list: Option<seq<Msg>>, c: Id, page: Page, kind: PageKind, cursor: Msg)
    requires PageCase(J, known, s, list, c, page, kind, cursor)
    ensures var s', merged := ApplyPage(s, list, c, page, kind).state, MergedList(s, Have(list), c, page, kind);
      (StampPart(J, s', merged) <==> ViewsCurrent(J, s, page)) && (StampPart(J, s', merged) ==> FreshPart(J, s', merged))
  {
    var have, inc := Have(list), Incoming(s, Have(list), page);
    var merged, s' := MergedList(s, have, c, page, kind), ApplyPage(s, list, c, page, kind).state;
    MergedMembers(J, known, s, list, c, page, kind, cursor);
    PagePreparts(J, known, s, list, c, page, kind, cursor);
    PageFeedPart(J, known, s, list, c, page, kind, cursor);
    hide PageCase, Inputs, IncHolds, ListHolds, MergedList, IncomingOf, FreshPart, StampPart, StateOk, PageOk, Lawful;
    hide RemnantPart, KnownPart, Retagged, FeedOk, MergedWindow, PageTags, FeedPart, ViewsCurrent;
    if StampPart(J, s', merged) { StampsNeedCurrent(J, s, have, c, page, kind, inc, merged, s'); }
    if ViewsCurrent(J, s, page) { MergedViews(J, s, have, c, page, s', merged); }
  }

  /** Where a birth falls, and whether it is listed, in terms of what is there before the merge. */
  lemma BirthAfter(J: seq<Change>, known: set<nat>, s: State, list: Option<seq<Msg>>, c: Id, page: Page, kind: PageKind, cursor: Msg, n: nat)
    requires PageCase(J, known, s, list, c, page, kind, cursor) && BirthIn(J, n, c) && Lasting(J, BirthMsg(J, n).id)
    ensures var have, y := Have(list), BirthMsg(J, n);
      (Within(s, have, c, page, kind, y) <==> InsideWindow(MergedList(s, have, c, page, kind), MergedWindow(s, have, c, page, kind), y)) &&
      (y.id in Ids(MergedList(s, have, c, page, kind)) <==>
       (n <= page.pts && Covered(page, kind, cursor, y) && !Dropped(s, have, page, y.id)) || KeptBirth(J, s, have, c, page, kind, n))
  {
    var have, inc := Have(list), Incoming(s, Have(list), page);
    var merged := MergedList(s, have, c, page, kind);
    MergedMembers(J, known, s, list, c, page, kind, cursor);
    PagePreparts(J, known, s, list, c, page, kind, cursor);
    PlacedParts(J, s, have, c, page, kind, inc, merged);
    hide PageCase, Inputs, IncHolds, ListHolds, MergedList, Incoming, FreshPart, StampPart, StateOk, PageOk, Lawful, Within;
    hide RemnantPart, KnownPart, MergedWindow, AllPlaced, Covered, Dropped, KeptOld, InsideWindow, Lasting;
    WithinIsInside(J, s, have, c, page, kind, inc, merged, n);
    ListedIff(J, s, have, c, page, kind, cursor, inc, merged, n);
  }

  /** A birth that meets the four conditions and falls inside the merged window is listed there. */
  lemma PageHole(J: seq<Change>, known: set<nat>, s: State, list: Option<seq<Msg>>, c: Id, page: Page, kind: PageKind, cursor: Msg, n: nat)
    requires PageCase(J, known, s, list, c, page, kind, cursor)
    requires Owed(J, s, c, page, kind, n) && BirthFits(J, s, Have(list), c, page, kind, cursor, n)
    requires Within(s, Have(list), c, page, kind, BirthMsg(J, n))
    ensures BirthMsg(J, n).id in Ids(MergedList(s, Have(list), c, page, kind))
  {
    var have, inc := Have(list), Incoming(s, Have(list), page);
    var merged, win' := MergedList(s, have, c, page, kind), MergedWindow(s, have, c, page, kind);
    assert BirthIn(J, n, c) && Lasting(J, BirthMsg(J, n).id);
    assert !(BirthMsg(J, n).id in Ids(page.messages) && Dropped(s, have, page, BirthMsg(J, n).id));
    hide PageCase, Inputs, IncHolds, ListHolds, MergedList, Incoming, FreshPart, StampPart, StateOk, PageOk, Lawful, Within, Owed;
    hide RemnantPart, KnownPart, MergedWindow, AllPlaced, Dropped, InsideWindow, Lasting, BirthFits, Setting, CoveredR;
    MergedMembers(J, known, s, list, c, page, kind, cursor);
    PagePreparts(J, known, s, list, c, page, kind, cursor);
    MakeSetting(J, known, s, list, c, page, kind, cursor);
    BirthAfter(J, known, s, list, c, page, kind, cursor, n);
    CoveredTaken(J, s, have, c, page, kind, cursor, inc, n);
    if kind == Older || kind == Newer {
      EdgeWindow(s, have, c, page, kind);
      if kind == Older { OlderOne(J, known, s, list.value, c, page, cursor, inc, merged, n); }
      else { NewerOne(J, known, s, list.value, c, page, cursor, inc, merged, win', n); }
    } else {
      LatestJumpOne(J, known, s, list, c, page, kind, cursor, inc, merged, n);
    }
  }

  lemma EdgeWindow(s: State, have: seq<Msg>, c: Id, page: Page, kind: PageKind)
    requires c in s.windows && (kind == Older || kind == Newer)
    ensures var win' := MergedWindow(s, have, c, page, kind);
      (kind == Older ==> win' == s.windows[c].(hasMoreBefore := page.hasMoreBefore)) &&
      (kind == Newer ==> win'.hasMoreAfter == page.hasMoreAfter && win'.hasMoreBefore == s.windows[c].hasMoreBefore)
  {
  }

  lemma HolesEnough(J: seq<Change>, known: set<nat>, s: State, list: Option<seq<Msg>>, c: Id, page: Page, kind: PageKind, cursor: Msg)
    requires PageCase(J, known, s, list, c, page, kind, cursor) && HolesFit(J, s, Have(list), c, page, kind, cursor)
    ensures NoHoles(J, s, Have(list), c, page, kind)
  {
    var have := Have(list);
    var merged, win' := MergedList(s, have, c, page, kind), MergedWindow(s, have, c, page, kind);
    MergeInputs(J, known, s, list, c, page, kind, cursor);
    PagePreparts(J, known, s, list, c, page, kind, cursor);
    assert AllPlaced(J, c, page.messages);
    hide PageCase, PageOk, StateOk, Inputs, AllPlaced, Lawful, FreshPart, StampPart, RemnantPart, KnownPart, HolesFit, BirthFits, Within;
    hide MergedList, MergedWindow, InsideWindow, Lasting, KnownAfter, Covered, Dropped, KeptBirth;
    forall n | n in KnownAfter(J, s, c, page, kind) && BirthIn(J, n, c) && Lasting(J, BirthMsg(J, n).id) &&
               InsideWindow(merged, win', BirthMsg(J, n))
      ensures BirthMsg(J, n).id in Ids(merged)
    {
      BirthAfter(J, known, s, list, c, page, kind, cursor, n);
      FitsEach(J, s, have, c, page, kind, cursor, n);
      PageHole(J, known, s, list, c, page, kind, cursor, n);
    }
    HolesIntro(J, KnownAfter(J, s, c, page, kind), merged, win', c);
  }

  /** What has to be listed inside the merged window is brought by the page, or stays. */
  ghost predicate ListedAll(J: seq<Change>, s: State, have: seq<Msg>, c: Id, page: Page, kind: PageKind, cursor: Msg) {
    forall n: nat | Owed(J, s, c, page, kind, n) && Within(s, have, c, page, kind, BirthMsg(J, n)) ::
      (n <= page.pts && Covered(page, kind, cursor, BirthMsg(J, n)) && !Dropped(s, have, page, BirthMsg(J, n).id)) ||
      KeptBirth(J, s, have, c, page, kind, n)
  }

  lemma ListedFromHoles(J: seq<Change>, known: set<nat>, s: State, list: Option<seq<Msg>>, c: Id, page: Page, kind: PageKind, cursor: Msg)
    requires PageCase(J, known, s, list, c, page, kind, cursor)
    requires NoHoles(J, s, Have(list), c, page, kind)
    ensures ListedAll(J, s, Have(list), c, page, kind, cursor)
  {
    hide PageCase, Within, MergedList, MergedWindow, InsideWindow, Lasting, KnownAfter, Covered, Dropped, KeptBirth;
    forall n: nat | Owed(J, s, c, page, kind, n) && Within(s, Have(list), c, page, kind, BirthMsg(J, n))
      ensures BirthMsg(J, n).id in Ids(MergedList(s, Have(list), c, page, kind))
      ensures (n <= page.pts && Covered(page, kind, cursor, BirthMsg(J, n)) && !Dropped(s, Have(list), page, BirthMsg(J, n).id)) ||
              KeptBirth(J, s, Have(list), c, page, kind, n)
    {
      BirthAfter(J, known, s, list, c, page, kind, cursor, n);
    }
  }

  /** A message of the page that is dropped is owed: the client keeps its number. */
  lemma DroppedOwed(J: seq<Change>, s: State, have: seq<Msg>, c: Id, page: Page, kind: PageKind, cursor: Msg, m: Msg)
    requires Lawful(J) && PageOk(J, c, page, kind, cursor) && AllPlaced(J, c, page.messages)
    requires m in page.messages && Dropped(s, have, page, m.id) && Lasting(J, m.id)
    ensures var n := Rank(J, m.id); BornAt(J, m.id, n) && SameKey(m, BirthMsg(J, n)) && Owed(J, s, c, page, kind, n)
  {
    PageRanks(J, c, page, kind, cursor);
    assert Placed(J, c, m);
    hide Lawful, PageOk, AllPlaced, Lasting, Rank, BaseAfter;
    assert Rank(J, m.id) in Tagged(J, s, c);
  }

  lemma DroppedNeeded(J: seq<Change>, s: State, have: seq<Msg>, c: Id, page: Page, kind: PageKind, cursor: Msg)
    requires Lawful(J) && PageOk(J, c, page, kind, cursor) && AllPlaced(J, c, page.messages)
    requires ListedAll(J, s, have, c, page, kind, cursor)
    ensures DroppedFits(J, s, have, c, page, kind)
  {
    forall m | m in page.messages && Dropped(s, have, page, m.id) && Lasting(J, m.id) ensures !Within(s, have, c, page, kind, m) {
      var n := Rank(J, m.id);
      DroppedOwed(J, s, have, c, page, kind, cursor, m);
      hide Lawful, PageOk, AllPlaced, Lasting, Rank, Within, Covered, Owed, OlderPart;
      WithinByKey(s, have, c, page, kind, m, BirthMsg(J, n));
      KeptIsOld(s, have, c, page, kind);
      hide KeptOld;
      assert !KeptBirth(J, s, have, c, page, kind, n);
    }
  }

  lemma BelowNeeded(J: seq<Change>, s: State, have: seq<Msg>, c: Id, page: Page, kind: PageKind, cursor: Msg)
    requires PageOk(J, c, page, kind, cursor) && ListedAll(J, s, have, c, page, kind, cursor)
    ensures BelowFits(J, s, have, c, page, kind)
  {
    if Replacing(s, have, c, page, kind) {
      assert kind == Latest ==> !page.hasMoreAfter;
      KeptByTag(s, have, c, page, kind);
      hide PageOk, Owed, OlderPart, Incoming, Before, KeptBirth, KeptOld, Dropped;
      forall n, x | Owed(J, s, c, page, kind, n) && KeptOld(s, have, c, page, kind, x) && BirthIn(J, n, c) && !Before(BirthMsg(J, n), x) &&
                    (page.messages == [] || Before(BirthMsg(J, n), page.messages[0]))
        ensures KeptBirth(J, s, have, c, page, kind, n)
      {
        assert Stays(s, have, c, page, kind, x);
        assert Within(s, have, c, page, kind, BirthMsg(J, n));
      }
      assert forall n | Owed(J, s, c, page, kind, n) :: BirthIn(J, n, c) by { OwedBirth(J, s, c, page, kind); }
    }
  }

  lemma OwedBirth(J: seq<Change>, s: State, c: Id, page: Page, kind: PageKind)
    ensures forall n | Owed(J, s, c, page, kind, n) :: BirthIn(J, n, c)
  {
  }

  lemma AnchorNeeded(J: seq<Change>, known: set<nat>, s: State, list: Option<seq<Msg>>, c: Id, page: Page, kind: PageKind, cursor: Msg)
    requires PageCase(J, known, s, list, c, page, kind, cursor)
    requires NoHoles(J, s, Have(list), c, page, kind)
    ensures AnchorFits(J, s, Have(list), c, page, kind, cursor)
  {
    var have := Have(list);
    assert list.Some? <==> c in s.windows;
    hide PageCase, KnownAfter, MergedList, MergedWindow, Lasting, InsideWindow, BelowAnchor, KeptOld;
    forall n: nat | Owed(J, s, c, page, kind, n) && c in s.windows && BelowAnchor(s, have, c, page, kind, cursor, BirthMsg(J, n)) &&
               InsideWindow(have, s.windows[c], BirthMsg(J, n))
      ensures BirthMsg(J, n).id in Ids(have)
    {
      AnchorInside(J, known, s, have, c, page, kind, cursor, n);
      BelowIsOld(J, known, s, list, c, page, kind, cursor, n);
    }
  }

  /**
   * When a merged page leaves no hole, exactly: in each of four ways nothing is lost. With three of the conditions in
   * place the fourth is exactly what is missing.
   */
  lemma PageHolesIff(J: seq<Change>, known: set<nat>, s: State, list: Option<seq<Msg>>, c: Id, page: Page, kind: PageKind, cursor: Msg)
    requires PageCase(J, known, s, list, c, page, kind, cursor)
    ensures NoHoles(J, s, Have(list), c, page, kind) <==> HolesFit(J, s, Have(list), c, page, kind, cursor)
  {
    var have := Have(list);
    if HolesFit(J, s, have, c, page, kind, cursor) { HolesEnough(J, known, s, list, c, page, kind, cursor); }
    if NoHoles(J, s, have, c, page, kind) {
      MergeInputs(J, known, s, list, c, page, kind, cursor);
      PagePreparts(J, known, s, list, c, page, kind, cursor);
      assert AllPlaced(J, c, page.messages);
      hide PageCase, MergedList, MergedWindow, HolesPart, KnownAfter, Inputs, PageOk, Lawful, AllPlaced, FreshPart, StampPart, Within;
      hide RemnantPart, KnownPart, StateOk, DroppedFits, AnchorFits, BelowFits, KeptBirth, Owed, Covered, Dropped;
      ListedFromHoles(J, known, s, list, c, page, kind, cursor);
      DroppedNeeded(J, s, have, c, page, kind, cursor);
      BelowNeeded(J, s, have, c, page, kind, cursor);
      AnchorNeeded(J, known, s, list, c, page, kind, cursor);
    }
  }

  /** Whatever else it accounts for, a merged window that is right is right with `KnownAfter`. */
  lemma PageLeast(J: seq<Change>, known: set<nat>, s: State, list: Option<seq<Msg>>, c: Id, page: Page, kind: PageKind, cursor: Msg, k: set<nat>)
    requires PageCase(J, known, s, list, c, page, kind, cursor)
    requires var r := ApplyPage(s, list, c, page, kind); WinInv(J, k, r.state, r.list.value, c)
    ensures NoHoles(J, s, Have(list), c, page, kind)
  {
    var r := ApplyPage(s, list, c, page, kind);
    PagePreparts(J, known, s, list, c, page, kind, cursor);
    PageFeedPart(J, known, s, list, c, page, kind, cursor);
    PageAccount(J, s, list, c, page, kind);
    assert r.list.value == MergedList(s, Have(list), c, page, kind) && r.state.windows[c] == MergedWindow(s, Have(list), c, page, kind);
    hide PageCase, ApplyPage, MergedList, MergedWindow, KnownAfter, Lawful, StateOk, PageOk, FreshPart, StampPart, RemnantPart, KnownPart;
    hide FeedPart, Account, Lasting, InsideWindow;
    AccountEnough(J, k, r.state, r.list.value, c);
  }

  /**
   * When a merged page leaves a right window, exactly: for every journal, every window in any state the invariant allows
   * (or none), every page of every kind that is a snapshot of the journal, under the loaders' guards. Otherwise the window
   * is right in no sense.
   */
  lemma PageKeepsWindowIff(J: seq<Change>, known: set<nat>, s: State, list: Option<seq<Msg>>, c: Id,
                           page: Page, kind: PageKind, cursor: Msg)
    requires PageCase(J, known, s, list, c, page, kind, cursor)
    ensures var r, fits := ApplyPage(s, list, c, page, kind), MergeFits(J, s, Have(list), c, page, kind, cursor);
      StateOk(J, r.state) && r.list.Some? && (fits ==> WinInv(J, KnownAfter(J, s, c, page, kind), r.state, r.list.value, c)) &&
      (fits <==> exists k :: WinInv(J, k, r.state, r.list.value, c))
  {
    hide PageCase, MergedList, MergedWindow, HolesPart, FreshPart, StampPart, StateOk, RemnantPart, KnownPart, KnownAfter;
    hide FeedPart, PageTags, HolesFit, ViewsCurrent, Retagged;
    var r := ApplyPage(s, list, c, page, kind);
    PageFeedPart(J, known, s, list, c, page, kind, cursor);
    PageViewsIff(J, known, s, list, c, page, kind, cursor);
    PageHolesIff(J, known, s, list, c, page, kind, cursor);
    PageRemnants(J, known, s, list, c, page, kind, cursor);
    KnownPartAfter(J, known, s, list, c, page, kind, cursor);
    var known', win' := KnownAfter(J, s, c, page, kind), MergedWindow(s, Have(list), c, page, kind);
    KnownSame(J, known', s, r.state, win');
    forall k | WinInv(J, k, r.state, r.list.value, c) ensures MergeFits(J, s, Have(list), c, page, kind, cursor) {
      PageLeast(J, known, s, list, c, page, kind, cursor, k);
    }
  }

  /** The client's own check of the views is enough: what it lists already carries the number of its last change. */
  lemma SafeIsCurrent(J: seq<Change>, s: State, have: seq<Msg>, page: Page)
    requires StampPart(J, s, have) && ViewsSafe(s, have, page)
    ensures ViewsCurrent(J, s, page)
  {
    hide Touches;
    if page.pts < PtsOf(s) {
      forall m, n: nat | m in page.messages && m.id !in s.gone && !Newer_(s, page, m.id) && page.pts < n <= PtsOf(s)
        ensures !Touches(J, n, m.id)
      {
        var y :| y in have && y.id == m.id;
        assert Touches(J, n, y.id) ==> n <= TagOf(s, y.id);
      }
    }
  }

  /** The client's own check of the end is enough: a window at the tail lists what came after the page was taken. */
  lemma SafeTail(J: seq<Change>, known: set<nat>, s: State, list: Option<seq<Msg>>, c: Id, page: Page, kind: PageKind, cursor: Msg)
    requires PageCase(J, known, s, list, c, page, kind, cursor) && TailSafe(s, Have(list), c, page, kind)
    requires RemnantSafe(J, s, Have(list), c, page, kind)
    ensures TailFits(J, s, Have(list), c, page, kind)
  {
    var have := Have(list);
    PagePreparts(J, known, s, list, c, page, kind, cursor);
    hide PageCase, Lawful, StateOk, PageOk, FreshPart, StampPart, RemnantPart, KnownPart, Lasting, KeptOld, Within, BaseAfter, TailReaches;
    forall n: nat | Owed(J, s, c, page, kind, n) && page.pts < n && kind != Older && !page.hasMoreAfter
      ensures KeptBirth(J, s, have, c, page, kind, n)
    {
      if n <= TailNumber(s, c, page, kind) {
        NewBirthStays(J, known, s, list.value, c, page, kind, cursor, n);
      } else {
        TaggedStays(J, s, have, c, page, kind, n);
      }
    }
  }

  /** A listed message whose number is beyond the page stays. */
  lemma TaggedStays(J: seq<Change>, s: State, have: seq<Msg>, c: Id, page: Page, kind: PageKind, n: nat)
    requires Owed(J, s, c, page, kind, n) && TailNumber(s, c, page, kind) < n && page.pts < n && kind != Older && !page.hasMoreAfter
    requires RemnantSafe(J, s, have, c, page, kind)
    ensures KeptBirth(J, s, have, c, page, kind, n)
  {
    hide Lasting, OlderPart, IncomingOf, BaseAfter;
    assert n in Tagged(J, s, c);
    var x :| x in have && x.id == BirthMsg(J, n).id;
    assert KeptOld(s, have, c, page, kind, x);
  }

  lemma TailInside(J: seq<Change>, s: State, list: seq<Msg>, c: Id, page: Page, kind: PageKind, n: nat)
    requires Lawful(J) && AllPlaced(J, c, list) && AllPlaced(J, c, page.messages) && RankedList(J, list) && c in s.windows
    requires page.pts < n && forall p | p in page.messages :: Rank(J, p.id) <= page.pts
    requires !s.windows[c].hasMoreAfter
    requires if kind == Newer then list != [] && Rank(J, list[|list| - 1].id) <= page.pts else TailReaches(s, list, c, page)
    ensures InsideR(J, list, s.windows[c], n)
  {
    RankOrder(J, c);
    hide Lawful, Rank, Placed, Before;
    if s.windows[c].hasMoreBefore && kind != Newer {
      assert list[0] in list && page.messages[|page.messages| - 1] in page.messages;
    }
  }

  /** A birth that came after the page was taken is listed in a window at the tail, and stays. */
  lemma NewBirthStays(J: seq<Change>, known: set<nat>, s: State, list: seq<Msg>, c: Id, page: Page, kind: PageKind, cursor: Msg, n: nat)
    requires PageCase(J, known, s, Some(list), c, page, kind, cursor) && kind != Older && !page.hasMoreAfter
    requires page.pts < n <= TailNumber(s, c, page, kind) && BirthIn(J, n, c) && Lasting(J, BirthMsg(J, n).id)
    requires if kind == Newer then !s.windows[c].hasMoreAfter
             else TailNumber(s, c, page, kind) == PtsOf(s) && TailReaches(s, list, c, page)
    ensures KeptBirth(J, s, list, c, page, kind, n)
  {
    MergeInputs(J, known, s, Some(list), c, page, kind, cursor);
    PagePreparts(J, known, s, Some(list), c, page, kind, cursor);
    Ranked(J, c, list);
    Ranked(J, c, page.messages);
    PageRanks(J, c, page, kind, cursor);
    assert HolesPart(J, known, list, s.windows[c], c);
    assert n in known;
    if kind == Newer { assert list != [] && Rank(J, list[|list| - 1].id) == Rank(J, cursor.id) <= page.pts; }
    hide PageCase, Lawful, StateOk, PageOk, FreshPart, RemnantPart, KnownPart, Lasting, FeedOk, Rank, Placed, HolesPart, Before, OlderPart;
    TailInside(J, s, list, c, page, kind, n);
    OldHoles(J, known, s, list, c, n);
    var y :| y in list && y.id == BirthMsg(J, n).id;
    assert Touches(J, n, y.id);
    assert KeptOld(s, list, c, page, kind, y);
  }

  /** Nothing sticks out below the page, so nothing is missing there. */
  lemma SafeBelow(J: seq<Change>, s: State, have: seq<Msg>, c: Id, page: Page, kind: PageKind)
    requires Lawful(J) && AllPlaced(J, c, have) && AllPlaced(J, c, page.messages) && NothingBelow(s, have, c, page, kind)
    ensures BelowFits(J, s, have, c, page, kind)
  {
    if Replacing(s, have, c, page, kind) {
      KeptByTag(s, have, c, page, kind);
      RankOrder(J, c);
      hide Lawful, Placed, Rank, Before, KeptOld, OlderPart, Incoming, Lasting, KnownAfter, KeptBirth;
      forall n, x | Owed(J, s, c, page, kind, n) && KeptOld(s, have, c, page, kind, x) && !Before(BirthMsg(J, n), x)
        ensures page.messages != [] && !Before(BirthMsg(J, n), page.messages[0])
      {
        BirthIsPlaced(J, n, c);
        assert page.messages != [] ==> page.messages[0] in page.messages;
      }
    }
  }

  /** The client's own checks, numbers that are not ahead and a firm anchor are enough for the four conditions. */
  lemma SafeHoles(J: seq<Change>, known: set<nat>, s: State, list: Option<seq<Msg>>, c: Id, page: Page, kind: PageKind, cursor: Msg)
    requires Mergeable(J, known, s, list, c, page, kind, cursor)
    ensures HolesFit(J, s, Have(list), c, page, kind, cursor)
  {
    MergeInputs(J, known, s, list, c, page, kind, cursor);
    PagePreparts(J, known, s, list, c, page, kind, cursor);
    assert AllPlaced(J, c, page.messages) && AllPlaced(J, c, Have(list));
    hide PageCase, Inputs, PageOk, Lawful, AllPlaced, FreshPart, StampPart, RemnantPart, KnownPart, StateOk, AnchorFits, BelowFits;
    hide TailSafe, NothingBelow, RemnantSafe, TailFits, Within, Dropped, ViewsSafe;
    SafeTail(J, known, s, list, c, page, kind, cursor);
    SafeBelow(J, s, Have(list), c, page, kind);
  }

  lemma MakeSetting(J: seq<Change>, known: set<nat>, s: State, list: Option<seq<Msg>>, c: Id,
                    page: Page, kind: PageKind, cursor: Msg)
    requires PageCase(J, known, s, list, c, page, kind, cursor)
    ensures var inc, merged := Incoming(s, Have(list), page), MergedList(s, Have(list), c, page, kind);
      Setting(J, s, Have(list), c, page, kind, cursor, inc, merged) &&
      AllPlaced(J, c, Have(list)) && AllPlaced(J, c, page.messages) && AllPlaced(J, c, inc) && AllPlaced(J, c, merged)
  {
    var have, inc := Have(list), Incoming(s, Have(list), page);
    var merged := MergedList(s, have, c, page, kind);
    MergedMembers(J, known, s, list, c, page, kind, cursor);
    PagePreparts(J, known, s, list, c, page, kind, cursor);
    hide PageCase, Lawful, StateOk, PageOk, Inputs, IncHolds, ListHolds, Setting, Incoming, MergedList, AllPlaced;
    PlacedParts(J, s, have, c, page, kind, inc, merged);
    SettingFrom(J, s, have, c, page, kind, cursor, inc, merged);
  }

  /**
   * The simpler conditions are enough: what the client can check itself (`Admissible`), numbers of unlisted messages that
   * are not ahead, and an anchor below which the old window is whole.
   */
  lemma PageKeepsWindow(J: seq<Change>, known: set<nat>, s: State, list: Option<seq<Msg>>, c: Id,
                        page: Page, kind: PageKind, cursor: Msg)
    requires Mergeable(J, known, s, list, c, page, kind, cursor)
    ensures MergeFits(J, s, Have(list), c, page, kind, cursor)
    ensures var r := ApplyPage(s, list, c, page, kind);
      r.list.Some? && WinInv(J, KnownAfter(J, s, c, page, kind), r.state, r.list.value, c)
  {
    assert StampPart(J, s, Have(list)) by { PagePreparts(J, known, s, list, c, page, kind, cursor); }
    SafeHoles(J, known, s, list, c, page, kind, cursor);
    hide PageCase, StampPart, HolesFit, ViewsCurrent, KnownAfter, WinInv, ApplyPage, AnchorFits, RemnantSafe, TailSafe, NoneDropped;
    hide NothingBelow, ViewsSafe;
    SafeIsCurrent(J, s, Have(list), page);
    PageKeepsWindowIff(J, known, s, list, c, page, kind, cursor);
  }

  // ----- each condition on its own -----

  /** With no hole opened, a merged page leaves a right window exactly when the views it brings are current. */
  lemma PageIsCurrentIff(J: seq<Change>, known: set<nat>, s: State, list: Option<seq<Msg>>, c: Id,
                         page: Page, kind: PageKind, cursor: Msg)
    requires PageCase(J, known, s, list, c, page, kind, cursor) && HolesFit(J, s, Have(list), c, page, kind, cursor)
    ensures var r := ApplyPage(s, list, c, page, kind);
      r.list.Some? && (ViewsCurrent(J, s, page) <==> exists k :: WinInv(J, k, r.state, r.list.value, c))
  {
    hide PageCase, ViewsCurrent, KnownAfter, WinInv, ApplyPage, HolesFit;
    PageKeepsWindowIff(J, known, s, list, c, page, kind, cursor);
  }

  /** The views taken from the page contain all their changes up to the position. */
  ghost predicate ViewsFresh(J: seq<Change>, s: State, page: Page) {
    forall m | m in page.messages && m.id !in s.gone && !Newer_(s, page, m.id) :: Fresh(J, m, Max(PtsOf(s), page.pts))
  }

  /** A view taken from the page is listed as it is on the page. */
  lemma TakenIsListed(J: seq<Change>, s: State, have: seq<Msg>, c: Id, page: Page, kind: PageKind, inc: seq<Msg>, merged: seq<Msg>, m: Msg)
    requires IncHolds(J, s, have, c, page, inc) && ListHolds(J, s, have, c, page, kind, inc, merged) && FeedOk(page.messages)
    requires m in page.messages && m.id !in s.gone && !Newer_(s, page, m.id)
    ensures m in merged && m.id in Retagged(s, page)
  {
    hide AllPlaced, KeptOld, Sorted, UniqueIds;
    var y :| y in inc && y.id == m.id;
    FeedSafety.SameIdSameMsg(page.messages, y, m);
  }

  lemma FreshOfTaken(J: seq<Change>, s: State, t: State, have: seq<Msg>, page: Page, merged: seq<Msg>)
    requires t.msgPts == PageTags(s, page) && PtsOf(t) == PtsOf(s) && FreshPart(J, s, have)
    requires forall x | x in merged :: (x in page.messages && x.id in Retagged(s, page)) || (x in have && x.id !in Retagged(s, page))
    requires forall m | m in page.messages && m.id !in s.gone && !Newer_(s, page, m.id) :: m in merged && m.id in Retagged(s, page)
    ensures FreshPart(J, t, merged) <==> ViewsFresh(J, s, page)
  {
    hide Fresh;
    forall x: Msg
      ensures TagOf(t, x.id) == if x.id in Retagged(s, page) then page.pts else TagOf(s, x.id)
      ensures x.id in Retagged(s, page) ==> x.id !in s.gone && !Newer_(s, page, x.id)
    {
      RetaggedTag(s, page, x.id);
    }
    hide Retagged, Newer_, TagOf, PageTags;
  }

  /**
   * What a person sees: every view in the merged feed is as new as the position exactly when those taken from the page
   * are. A change that alters nothing in a view, between the number of the page and the position, does no harm here.
   */
  lemma PageShowsCurrentIff(J: seq<Change>, known: set<nat>, s: State, list: Option<seq<Msg>>, c: Id,
                            page: Page, kind: PageKind, cursor: Msg)
    requires PageCase(J, known, s, list, c, page, kind, cursor)
    ensures var r := ApplyPage(s, list, c, page, kind);
      r.list.Some? && (FreshPart(J, r.state, r.list.value) <==> ViewsFresh(J, s, page))
  {
    var have, inc := Have(list), Incoming(s, Have(list), page);
    var merged, t := MergedList(s, have, c, page, kind), ApplyPage(s, list, c, page, kind).state;
    MergedMembers(J, known, s, list, c, page, kind, cursor);
    PagePreparts(J, known, s, list, c, page, kind, cursor);
    PageFeedPart(J, known, s, list, c, page, kind, cursor);
    assert t.msgPts == PageTags(s, page) && PtsOf(t) == PtsOf(s) && FeedOk(page.messages);
    hide PageCase, Inputs, IncHolds, ListHolds, MergedList, Incoming, FreshPart, StampPart, StateOk, PageOk, Lawful, FeedOk, PageTags;
    hide RemnantPart, KnownPart, FeedPart, MergedWindow, ViewsFresh, Retagged, Newer_;
    forall m | m in page.messages && m.id !in s.gone && !Newer_(s, page, m.id) ensures m in merged && m.id in Retagged(s, page) {
      TakenIsListed(J, s, have, c, page, kind, inc, merged, m);
    }
    FreshOfTaken(J, s, t, have, page, merged);
  }

  /**
   * Messages left behind by their numbers: with nothing sticking out below, the end and the anchor in order, there is no
   * hole exactly when no message of the page that still exists is dropped inside the merged window.
   */
  lemma DroppedIff(J: seq<Change>, known: set<nat>, s: State, list: Option<seq<Msg>>, c: Id, page: Page, kind: PageKind, cursor: Msg)
    requires PageCase(J, known, s, list, c, page, kind, cursor) && NothingBelow(s, Have(list), c, page, kind)
    requires TailFits(J, s, Have(list), c, page, kind) && AnchorFits(J, s, Have(list), c, page, kind, cursor)
    ensures NoHoles(J, s, Have(list), c, page, kind) <==>
      forall m | m in page.messages && Dropped(s, Have(list), page, m.id) && Lasting(J, m.id) :: !Within(s, Have(list), c, page, kind, m)
  {
    MergeInputs(J, known, s, list, c, page, kind, cursor);
    PagePreparts(J, known, s, list, c, page, kind, cursor);
    assert AllPlaced(J, c, page.messages) && AllPlaced(J, c, Have(list));
    hide PageCase, Inputs, PageOk, Lawful, AllPlaced, FreshPart, StampPart, RemnantPart, KnownPart, StateOk, AnchorFits, BelowFits;
    hide NothingBelow, TailFits, Within, Dropped, Lasting, MergedList, MergedWindow, HolesPart, KnownAfter;
    SafeBelow(J, s, Have(list), c, page, kind);
    PageHolesIff(J, known, s, list, c, page, kind, cursor);
  }

  /**
   * Old messages that an event touched during the request: with nothing dropped, the end and the anchor in order, there is
   * no hole exactly when everything between a kept one and the page is listed.
   */
  lemma BelowIff(J: seq<Change>, known: set<nat>, s: State, list: Option<seq<Msg>>, c: Id, page: Page, kind: PageKind, cursor: Msg)
    requires PageCase(J, known, s, list, c, page, kind, cursor) && NoneDropped(s, Have(list), page)
    requires TailFits(J, s, Have(list), c, page, kind) && AnchorFits(J, s, Have(list), c, page, kind, cursor)
    ensures NoHoles(J, s, Have(list), c, page, kind) <==> BelowFits(J, s, Have(list), c, page, kind)
  {
    hide PageCase, AnchorFits, BelowFits, TailFits, Within, Dropped, Lasting, MergedList, MergedWindow, HolesPart, KnownAfter;
    PageHolesIff(J, known, s, list, c, page, kind, cursor);
  }

  /** A merged window that keeps the first old message and the old flag above starts no higher than the old one. */
  lemma StartsNoHigher(J: seq<Change>, s: State, have: seq<Msg>, c: Id, page: Page, kind: PageKind, cursor: Msg,
                       inc: seq<Msg>, merged: seq<Msg>, win: Window, win': Window, n: nat)
    requires Setting(J, s, have, c, page, kind, cursor, inc, merged) && have != [] && KeptOld(s, have, c, page, kind, have[0])
    requires InsideR(J, have, win, n) && win'.hasMoreBefore == win.hasMoreBefore && !win'.hasMoreAfter
    ensures InsideR(J, merged, win', n)
  {
    hide KeptOld, Rank, CoveredR;
    var z :| z in merged && z.id == have[0].id;
  }

  lemma NewerAnchor(J: seq<Change>, known: set<nat>, s: State, list: seq<Msg>, c: Id, page: Page, cursor: Msg, n: nat)
    requires PageCase(J, known, s, Some(list), c, page, Newer, cursor) && AllPlaced(J, c, Incoming(s, list, page))
    requires BirthIn(J, n, c) && BelowAnchor(s, list, c, page, Newer, cursor, BirthMsg(J, n))
    requires IncHolds(J, s, list, c, page, Incoming(s, list, page))
    ensures list != [] && KeptOld(s, list, c, page, Newer, list[0])
    ensures forall x | x in Incoming(s, list, page) :: n < Rank(J, x.id)
  {
    EdgePagesDisjoint(J, known, s, Some(list), c, page, Newer, cursor);
    BirthIsPlaced(J, n, c);
    RankOrder(J, c);
    assert n <= Rank(J, cursor.id) && list != [] && list[|list| - 1].id == cursor.id && list[|list| - 1] in list;
    hide PageCase, Placed, Rank, Before, IncomingOf, Lawful, FeedOk;
    forall x | x in Incoming(s, list, page) ensures n < Rank(J, x.id) {
      var p :| p in page.messages && p.id == x.id;
    }
  }

  lemma JoinedAnchor(J: seq<Change>, s: State, list: seq<Msg>, c: Id, page: Page, cursor: Msg, n: nat)
    requires Lawful(J) && FeedOk(list) && AllPlaced(J, c, list) && AllPlaced(J, c, Incoming(s, list, page)) && FeedOk(Incoming(s, list, page))
    requires BirthIn(J, n, c) && BelowAnchor(s, list, c, page, Latest, cursor, BirthMsg(J, n))
    ensures list != [] && KeptOld(s, list, c, page, Latest, list[0])
    ensures forall x | x in Incoming(s, list, page) :: n < Rank(J, x.id)
  {
    var inc := Incoming(s, list, page);
    OlderPartFacts(J, s, list, c, page);
    Ranked(J, c, list);
    Ranked(J, c, inc);
    BirthIsPlaced(J, n, c);
    RankOrder(J, c);
    hide Placed, Rank, Before, IncomingOf, Lawful, FeedOk, OlderPart, KeptOld;
    assert inc[0] in inc;
  }

  /** What lies inside the old window below the anchor lies inside the merged one, and nothing of the page lies so low. */
  lemma AnchorInside(J: seq<Change>, known: set<nat>, s: State, list: seq<Msg>, c: Id, page: Page, kind: PageKind, cursor: Msg, n: nat)
    requires PageCase(J, known, s, Some(list), c, page, kind, cursor)
    requires BirthIn(J, n, c) && BelowAnchor(s, list, c, page, kind, cursor, BirthMsg(J, n))
    requires InsideWindow(list, s.windows[c], BirthMsg(J, n))
    ensures InsideWindow(MergedList(s, list, c, page, kind), MergedWindow(s, list, c, page, kind), BirthMsg(J, n))
    ensures forall x | x in Incoming(s, list, page) :: n < Rank(J, x.id)
  {
    var inc, merged := Incoming(s, list, page), MergedList(s, list, c, page, kind);
    MergedMembers(J, known, s, Some(list), c, page, kind, cursor);
    MakeSetting(J, known, s, Some(list), c, page, kind, cursor);
    PagePreparts(J, known, s, Some(list), c, page, kind, cursor);
    InsideByRank(J, c, list, s.windows[c], n);
    InsideByRank(J, c, merged, MergedWindow(s, list, c, page, kind), n);
    if kind == Newer { NewerAnchor(J, known, s, list, c, page, cursor, n); } else { JoinedAnchor(J, s, list, c, page, cursor, n); }
    AnchorWindow(s, list, c, page, kind, cursor, BirthMsg(J, n));
    hide PageCase, Setting, MergedList, Incoming, MergedWindow, KeptOld, InsideR, InsideWindow, BelowAnchor, AllPlaced, Lawful, Rank;
    hide IncHolds, ListHolds, Inputs, StateOk, PageOk, FreshPart, StampPart, RemnantPart, KnownPart;
    StartsNoHigher(J, s, list, c, page, kind, cursor, inc, merged, s.windows[c], MergedWindow(s, list, c, page, kind), n);
  }

  lemma AnchorWindow(s: State, have: seq<Msg>, c: Id, page: Page, kind: PageKind, cursor: Msg, y: Msg)
    requires BelowAnchor(s, have, c, page, kind, cursor, y) && c in s.windows && (kind == Latest ==> !page.hasMoreAfter)
    ensures var win' := MergedWindow(s, have, c, page, kind);
      win'.hasMoreBefore == s.windows[c].hasMoreBefore && !win'.hasMoreAfter && (kind == Newer || kind == Latest)
  {
    hide OlderPart, IncomingOf;
  }

  /**
   * A latest page that joins, or a newer page that reaches the end: with the rest in order there is no hole exactly when,
   * below what ties the page to it, the old window lists also what it did not vouch for.
   */
  lemma AnchorIff(J: seq<Change>, known: set<nat>, s: State, list: Option<seq<Msg>>, c: Id, page: Page, kind: PageKind, cursor: Msg)
    requires PageCase(J, known, s, list, c, page, kind, cursor) && NoneDropped(s, Have(list), page)
    requires TailFits(J, s, Have(list), c, page, kind) && BelowFits(J, s, Have(list), c, page, kind)
    ensures NoHoles(J, s, Have(list), c, page, kind) <==> AnchorFits(J, s, Have(list), c, page, kind, cursor)
  {
    hide PageCase, AnchorFits, BelowFits, TailFits, Within, Dropped, Lasting, MergedList, MergedWindow, HolesPart, KnownAfter;
    PageHolesIff(J, known, s, list, c, page, kind, cursor);
  }

  /**
   * A page that reaches the end: with the rest in order there is no hole exactly when everything the merged window vouches
   * for beyond the page stays.
   */
  lemma TailIff(J: seq<Change>, known: set<nat>, s: State, list: Option<seq<Msg>>, c: Id, page: Page, kind: PageKind, cursor: Msg)
    requires PageCase(J, known, s, list, c, page, kind, cursor) && NoneDropped(s, Have(list), page)
    requires AnchorFits(J, s, Have(list), c, page, kind, cursor) && BelowFits(J, s, Have(list), c, page, kind)
    ensures NoHoles(J, s, Have(list), c, page, kind) <==> TailFits(J, s, Have(list), c, page, kind)
  {
    hide PageCase, AnchorFits, BelowFits, TailFits, Within, Dropped, Lasting, MergedList, MergedWindow, HolesPart, KnownAfter;
    PageHolesIff(J, known, s, list, c, page, kind, cursor);
  }

  /** A listed birth below everything taken from the page was listed before. */
  lemma BelowIsOld(J: seq<Change>, known: set<nat>, s: State, list: Option<seq<Msg>>, c: Id, page: Page, kind: PageKind, cursor: Msg, n: nat)
    requires PageCase(J, known, s, list, c, page, kind, cursor) && BirthIn(J, n, c)
    requires BirthMsg(J, n).id in Ids(MergedList(s, Have(list), c, page, kind))
    requires forall x | x in Incoming(s, Have(list), page) :: n < Rank(J, x.id)
    ensures BirthMsg(J, n).id in Ids(Have(list))
    ensures exists x :: KeptOld(s, Have(list), c, page, kind, x) && x.id == BirthMsg(J, n).id
  {
    MergedMembers(J, known, s, list, c, page, kind, cursor);
    BirthIsPlaced(J, n, c);
    KeptIsOld(s, Have(list), c, page, kind);
    hide PageCase, MergedList, Incoming, Rank, Placed, Inputs, IncHolds, KeptOld, FeedOk, AllPlaced;
    var x :| x in MergedList(s, Have(list), c, page, kind) && x.id == BirthMsg(J, n).id;
  }

  lemma CursorStays(J: seq<Change>, known: set<nat>, s: State, list: Option<seq<Msg>>, c: Id, page: Page, cursor: Msg)
    requires PageCase(J, known, s, list, c, page, Newer, cursor)
    ensures Have(list) != [] && Rank(J, Have(list)[|Have(list)| - 1].id) <= page.pts
    ensures KeptOld(s, Have(list), c, page, Newer, Have(list)[|Have(list)| - 1])
  {
    hide Lawful, StateOk, WinInv, Rank, Placed, Before, ViewAt;
  }

  /**
   * A newer page that reaches the end but was taken before the position: the merged window has no hole exactly when no
   * message that was sent in between still exists.
   */
  lemma NewerTailIff(J: seq<Change>, known: set<nat>, s: State, list: Option<seq<Msg>>, c: Id, page: Page, cursor: Msg)
    requires PageCase(J, known, s, list, c, page, Newer, cursor) && !page.hasMoreAfter
    requires BaseOf(s, c) <= page.pts < PtsOf(s) && NoneDropped(s, Have(list), page)
    requires AnchorFits(J, s, Have(list), c, page, Newer, cursor)
    ensures HolesPart(J, UpTo(PtsOf(s)), MergedList(s, Have(list), c, page, Newer), MergedWindow(s, Have(list), c, page, Newer), c) <==>
      forall n | page.pts < n <= PtsOf(s) && BirthIn(J, n, c) :: !Lasting(J, BirthMsg(J, n).id)
  {
    var have := Have(list);
    var merged, win' := MergedList(s, have, c, page, Newer), MergedWindow(s, have, c, page, Newer);
    assert forall n | n in UpTo(PtsOf(s)) :: n in KnownAfter(J, s, c, page, Newer);
    hide PageCase, KnownAfter, MergedList, MergedWindow, Lasting, InsideWindow, Within, Covered, Dropped, AnchorFits, HolesPart;
    if forall n | page.pts < n <= PtsOf(s) && BirthIn(J, n, c) :: !Lasting(J, BirthMsg(J, n).id) {
      forall n | n in UpTo(PtsOf(s)) && BirthIn(J, n, c) && Lasting(J, BirthMsg(J, n).id) && InsideWindow(merged, win', BirthMsg(J, n))
        ensures BirthMsg(J, n).id in Ids(merged)
      {
        BirthAfter(J, known, s, list, c, page, Newer, cursor, n);
        NewerFits(J, s, have, c, page, cursor, n);
        PageHole(J, known, s, list, c, page, Newer, cursor, n);
      }
      HolesIntro(J, UpTo(PtsOf(s)), merged, win', c);
    }
    if HolesPart(J, UpTo(PtsOf(s)), merged, win', c) {
      forall n: nat | page.pts < n <= PtsOf(s) && BirthIn(J, n, c) ensures !Lasting(J, BirthMsg(J, n).id) {
        NotStill(J, known, s, list, c, page, cursor, n);
      }
    }
  }

  /** What was sent after the page was taken would have to be in the old feed, where it is not. */
  lemma NotStill(J: seq<Change>, known: set<nat>, s: State, list: Option<seq<Msg>>, c: Id, page: Page, cursor: Msg, n: nat)
    requires PageCase(J, known, s, list, c, page, Newer, cursor) && !page.hasMoreAfter
    requires HolesPart(J, UpTo(PtsOf(s)), MergedList(s, Have(list), c, page, Newer), MergedWindow(s, Have(list), c, page, Newer), c)
    requires page.pts < n <= PtsOf(s) && BirthIn(J, n, c)
    ensures !Lasting(J, BirthMsg(J, n).id)
  {
    var id, merged := BirthMsg(J, n).id, MergedList(s, Have(list), c, page, Newer);
    BeyondPage(J, known, s, list, c, page, cursor, n);
    ListedByPage(J, known, s, list, c, page, cursor, n);
    KeptIsOld(s, Have(list), c, page, Newer);
    hide PageCase, MergedList, MergedWindow, InsideWindow, Within, Covered, Dropped, KeptOld, Lasting;
    if Lasting(J, id) { BirthAfter(J, known, s, list, c, page, Newer, cursor, n); }
  }

  lemma NewerFits(J: seq<Change>, s: State, have: seq<Msg>, c: Id, page: Page, cursor: Msg, n: nat)
    requires NoneDropped(s, have, page) && AnchorFits(J, s, have, c, page, Newer, cursor) && Owed(J, s, c, page, Newer, n) && n <= page.pts
    ensures BirthFits(J, s, have, c, page, Newer, cursor, n)
  {
    hide KnownAfter, Lasting, BelowAnchor, Dropped, InsideWindow;
  }

  /** What was sent after a newer page was taken falls inside the merged window. */
  lemma BeyondPage(J: seq<Change>, known: set<nat>, s: State, list: Option<seq<Msg>>, c: Id, page: Page, cursor: Msg, n: nat)
    requires PageCase(J, known, s, list, c, page, Newer, cursor) && !page.hasMoreAfter && page.pts < n && BirthIn(J, n, c)
    ensures Within(s, Have(list), c, page, Newer, BirthMsg(J, n))
  {
    CursorStays(J, known, s, list, c, page, cursor);
    MergeInputs(J, known, s, list, c, page, Newer, cursor);
    PagePreparts(J, known, s, list, c, page, Newer, cursor);
    var z := Have(list)[|Have(list)| - 1];
    assert z in Have(list) && Placed(J, c, z);
    BirthIsPlaced(J, n, c);
    RankOrder(J, c);
    EdgeWindow(s, Have(list), c, page, Newer);
    hide PageCase, Inputs, Rank, Placed, Before, Lawful, MergedWindow, KeptOld;
    assert Stays(s, Have(list), c, page, Newer, z);
  }

  /** A message that was sent after a newer page was taken was not in the feed before it. */
  lemma ListedByPage(J: seq<Change>, known: set<nat>, s: State, list: Option<seq<Msg>>, c: Id, page: Page, cursor: Msg, n: nat)
    requires PageCase(J, known, s, list, c, page, Newer, cursor) && page.pts < n && BirthIn(J, n, c)
    ensures BirthMsg(J, n).id !in Ids(Have(list))
  {
    MergeInputs(J, known, s, list, c, page, Newer, cursor);
    RankIs(J, BirthMsg(J, n).id, n);
    CursorStays(J, known, s, list, c, page, cursor);
    assert Lawful(J) && FeedOk(Have(list)) && AllPlaced(J, c, Have(list));
    hide PageCase, Rank, KeptOld, Inputs;
    Ranked(J, c, Have(list));
  }

  /** An anchor that the window vouches for is enough. */
  lemma KnownAnchor(J: seq<Change>, known: set<nat>, s: State, list: Option<seq<Msg>>, c: Id, page: Page, kind: PageKind, cursor: Msg, x: Msg)
    requires PageCase(J, known, s, list, c, page, kind, cursor) && c in s.windows
    requires Placed(J, c, x) && Rank(J, x.id) <= Max(PtsOf(s), BaseOf(s, c))
    requires kind == Newer ==> x == cursor
    requires kind == Latest && Incoming(s, Have(list), page) != [] ==> !Before(x, Incoming(s, Have(list), page)[0])
    ensures AnchorFits(J, s, Have(list), c, page, kind, cursor)
  {
    assert HolesPart(J, known, Have(list), s.windows[c], c) by { hide Lawful, HolesPart, PageOk, StateOk; }
    hide PageCase, Incoming, Placed, Rank, Before, MergedList, AnchorFits, StateOk, PageOk, Lawful, KnownPart;
    PagePreparts(J, known, s, list, c, page, kind, cursor);
    IncomingPlaced(J, known, s, list, c, page, kind, cursor);
    hide HolesPart;
    KnownBelow(J, known, s, Have(list), c, page, kind, cursor, x);
  }

  lemma IncomingPlaced(J: seq<Change>, known: set<nat>, s: State, list: Option<seq<Msg>>, c: Id, page: Page, kind: PageKind, cursor: Msg)
    requires PageCase(J, known, s, list, c, page, kind, cursor)
    ensures AllPlaced(J, c, Incoming(s, Have(list), page))
  {
    MergedMembers(J, known, s, list, c, page, kind, cursor);
    hide PageCase, Incoming, Inputs, ListHolds, MergedList, AllPlaced, FeedOk;
  }

  lemma KnownBelow(J: seq<Change>, known: set<nat>, s: State, have: seq<Msg>, c: Id, page: Page, kind: PageKind, cursor: Msg, x: Msg)
    requires Lawful(J) && c in s.windows && KnownPart(J, known, s, s.windows[c]) && AllPlaced(J, c, Incoming(s, have, page))
    requires HolesPart(J, known, have, s.windows[c], c)
    requires Placed(J, c, x) && Rank(J, x.id) <= Max(PtsOf(s), BaseOf(s, c))
    requires kind == Newer ==> x == cursor
    requires kind == Latest && Incoming(s, have, page) != [] ==> !Before(x, Incoming(s, have, page)[0])
    ensures AnchorFits(J, s, have, c, page, kind, cursor)
  {
    hide KnownAfter, Lasting, InsideWindow, BelowAnchor, Lawful, Placed, Rank, AllPlaced, Incoming, Before;
    forall n: nat | BirthIn(J, n, c) && BelowAnchor(s, have, c, page, kind, cursor, BirthMsg(J, n)) ensures n in known {
      BelowKnown(J, s, have, c, page, kind, cursor, x, n);
      assert 1 <= n <= Rank(J, x.id);
    }
  }

  lemma BelowKnown(J: seq<Change>, s: State, have: seq<Msg>, c: Id, page: Page, kind: PageKind, cursor: Msg, x: Msg, n: nat)
    requires Lawful(J) && Placed(J, c, x) && AllPlaced(J, c, Incoming(s, have, page))
    requires kind == Newer ==> x == cursor
    requires kind == Latest && Incoming(s, have, page) != [] ==> !Before(x, Incoming(s, have, page)[0])
    requires BirthIn(J, n, c) && BelowAnchor(s, have, c, page, kind, cursor, BirthMsg(J, n))
    ensures n <= Rank(J, x.id)
  {
    BirthIsPlaced(J, n, c);
    RankOrder(J, c);
    hide Lawful, Rank, Placed, Before, OlderPart, IncomingOf;
    var inc := Incoming(s, have, page);
    assert inc != [] ==> inc[0] in inc;
  }
}
