/**
 * Short histories in which the client does exactly what its rules say and a window ends up wrong, each beside the
 * condition that decides, for all inputs, whether that can happen.
 */
module Races {
  import opened Feed
  import opened SyncRules
  import opened Journal
  import opened Windows
  import opened WindowRules
  import opened PageMerge
  import PageSafety
  import opened Buffering
  import opened StoreSteps
  import Cache
  import opened FeedSafety
  import Trimming

  const A := Msg("a", "c", 1, Edit("", None), "")
  const B := Msg("b", "c", 2, Edit("", None), "")
  const D := Msg("d", "c", 3, Edit("", None), "")
  const LIKED := Msg("a", "c", 1, Edit("", None), "x")

  function At(P: nat, win: Window, tags: map<Id, nat>): State {
    EMPTY.(pts := Some(P), phase := Live_, windows := map["c" := win], msgPts := tags)
  }

  // ----- a page older than the position shows an old view -----

  /** A and B are sent, then somebody likes A. */
  const LIKE: seq<Change> := [Sent(A), Sent(B), Reacted("a", "x")]

  lemma LikeViews()
    ensures Lawful(LIKE)
    ensures ViewAt(LIKE, "a", 1) == ViewAt(LIKE, "a", 2) == Alive(A) && ViewAt(LIKE, "a", 3) == Alive(LIKED)
    ensures ViewAt(LIKE, "b", 1).Absent? && ViewAt(LIKE, "b", 2) == ViewAt(LIKE, "b", 3) == Alive(B)
  {
    assert ViewAt(LIKE, "a", 0).Absent? && ViewAt(LIKE, "b", 0).Absent?;
    assert ViewAt(LIKE, "a", 1) == Alive(A) && ViewAt(LIKE, "b", 1).Absent?;
    assert ViewAt(LIKE, "a", 2) == Alive(A) && ViewAt(LIKE, "b", 2) == Alive(B);
    forall n | 0 <= n < |LIKE| ensures LawfulAt(LIKE, n) {}
  }

  /**
   * The client shows B, asks for what is older, and takes the like of A while it waits: A is not listed, so the like
   * leaves no trace. The page was assembled before the like. The client has caught up and shows A without it.
   */
  lemma LatePageShowsOldView()
    ensures var s, page := At(2, Window(2, true, false, false), map["b" := 2]), Page(2, [A], false, true);
      var s3 := s.(pts := Some(3));
      Lawful(LIKE) && WinInv(LIKE, UpTo(2), s, [B], "c") && PageOk(LIKE, "c", page, Older, B) &&
      ApplyMessage(s, Some([B]), Live(LIKED), 3) == Merged(s, Some([B])) &&
      WinInv(LIKE, UpTo(3), s3, [B], "c") &&
      EdgeUnchanged(Some([B]), Older, B) && MergedList(s3, [B], "c", page, Older) == [A, B] &&
      PtsOf(s3) == |LIKE| && ViewAt(LIKE, "a", |LIKE|) != Alive(A)
  {
    var s, page := At(2, Window(2, true, false, false), map["b" := 2]), Page(2, [A], false, true);
    var s3 := s.(pts := Some(3));
    LikeViews();
    WindowOfB(s, 2);
    WindowOfB(s3, 3);
    LikePage(page);
    LateDrop(s);
    LateMerge(s3, page);
    hide Lawful, ViewAt, WinInv, PageOk, ApplyMessage, MergedList;
  }

  lemma LateDrop(s: State)
    requires s == At(2, Window(2, true, false, false), map["b" := 2])
    ensures ApplyMessage(s, Some([B]), Live(LIKED), 3) == Merged(s, Some([B]))
  {
    hide Sort;
    assert Before(LIKED, B) && IndexOf([B], "a") < 0;
  }

  lemma LateMerge(s: State, page: Page)
    requires s == At(3, Window(2, true, false, false), map["b" := 2]) && page == Page(2, [A], false, true)
    ensures MergedList(s, [B], "c", page, Older) == [A, B]
  {
    assert FeedOk([A, B]);
    Trimming.IncomingWhole(s, [B], page, [A]);
    assert [A] + [B] == [A, B];
    Trimming.DedupeOfFeed([A, B]);
    hide Dedupe, IncomingOf;
  }

  lemma LikePage(page: Page)
    requires page == Page(2, [A], false, true)
    ensures PageOk(LIKE, "c", page, Older, B)
  {
    LikeViews();
    hide Lawful, ViewAt;
    assert FeedOk([A]) && Before(A, B);
    assert BornAt(LIKE, "b", 2);
    LikeRank();
    forall n: nat | n <= 2 && BirthIn(LIKE, n, "c") && Before(BirthMsg(LIKE, n), B) ensures BirthMsg(LIKE, n) == A {
      assert n == 1 || n == 2;
      Order();
    }
    assert A in [A];
  }

  lemma LikeRank()
    ensures Rank(LIKE, "b") == 2
  {
    LikeViews();
    assert BornAt(LIKE, "b", 2);
    RankIs(LIKE, "b", 2);
  }

  lemma WindowOfB(s: State, P: nat)
    requires 2 <= P <= 3 && s == At(P, Window(2, true, false, false), map["b" := 2])
    ensures WinInv(LIKE, UpTo(P), s, [B], "c")
  {
    LikeViews();
    hide Lawful, ViewAt;
    assert FeedOk([B]);
    assert ShowsEdit(LIKE, B, 3) && ShowsReactions(LIKE, B, 3);
    assert Fresh(LIKE, B, P);
    assert StampPart(LIKE, s, [B]) by {
      forall n: nat | n <= P && Touches(LIKE, n, "b") ensures n <= 2 { assert n == 1 || n == 2 || n == 3; }
    }
    assert Before(A, B);
    forall n | BirthIn(LIKE, n, "c") ensures BirthMsg(LIKE, n) == A || BirthMsg(LIKE, n) == B { assert n == 1 || n == 2 || n == 3; }
    assert Ids([B]) == {"b"} by { assert B in [B]; }
  }

  /**
   * An older page for a right window, none of whose messages is known in a newer view that is gone from the feed: the
   * window is right afterwards exactly when nothing touched the messages of the page between its number and the position.
   */
  lemma OlderPageIsCurrentIff(J: seq<Change>, known: set<nat>, s: State, list: seq<Msg>, c: Id, page: Page, cursor: Msg)
    requires PageCase(J, known, s, Some(list), c, page, Older, cursor) && NoneDropped(s, list, page)
    ensures var r := ApplyPage(s, Some(list), c, page, Older);
      r.list.Some? && ((exists k :: WinInv(J, k, r.state, r.list.value, c)) <==>
        forall m, n: nat | m in page.messages && m.id !in s.gone && !Newer_(s, page, m.id) && page.pts < n <= PtsOf(s) ::
          !Touches(J, n, m.id))
  {
    assert HolesFit(J, s, list, c, page, Older, cursor) by { hide PageCase, Lasting, InsideWindow, Within, Owed; }
    hide PageCase, ApplyPage, WinInv, HolesFit;
    PageSafety.PageIsCurrentIff(J, known, s, Some(list), c, page, Older, cursor);
  }

  // ----- a last page older than the position hides a message for good -----

  /** Three messages are sent. */
  const THREE: seq<Change> := [Sent(A), Sent(B), Sent(D)]

  lemma ThreeViews()
    ensures Lawful(THREE)
    ensures ViewAt(THREE, "a", 1) == ViewAt(THREE, "a", 2) == ViewAt(THREE, "a", 3) == Alive(A)
    ensures ViewAt(THREE, "b", 1).Absent? && ViewAt(THREE, "b", 2) == ViewAt(THREE, "b", 3) == Alive(B)
    ensures ViewAt(THREE, "d", 2).Absent? && ViewAt(THREE, "d", 3) == Alive(D)
  {
    assert ViewAt(THREE, "a", 0).Absent? && ViewAt(THREE, "b", 0).Absent? && ViewAt(THREE, "d", 0).Absent?;
    assert ViewAt(THREE, "a", 1) == Alive(A) && ViewAt(THREE, "b", 1).Absent? && ViewAt(THREE, "d", 1).Absent?;
    assert ViewAt(THREE, "a", 2) == Alive(A) && ViewAt(THREE, "b", 2) == Alive(B) && ViewAt(THREE, "d", 2).Absent?;
    forall n | 0 <= n < |THREE| ensures LawfulAt(THREE, n) {}
  }

  lemma ThreeBirths(n: nat)
    requires BirthIn(THREE, n, "c")
    ensures (n == 1 && BirthMsg(THREE, n) == A) || (n == 2 && BirthMsg(THREE, n) == B) || (n == 3 && BirthMsg(THREE, n) == D)
  {
    assert n == 1 || n == 2 || n == 3;
  }

  lemma ThreeOrder()
    ensures Before(A, B) && Before(B, D) && Before(A, D) && !Before(B, A) && !Before(D, B) && !Before(D, A)
    ensures FeedOk([A]) && FeedOk([B]) && FeedOk([D]) && FeedOk([A, B]) && FeedOk([A, D])
  {
  }

  /** A window that shows A only, with more after it, at any position. */
  lemma WindowOfA(s: State, P: nat)
    requires 1 <= P <= 3 && s == At(P, Window(1, false, true, false), map["a" := 1])
    ensures WinInv(THREE, UpTo(P), s, [A], "c")
  {
    ThreeViews();
    ThreeOrder();
    hide Lawful, ViewAt, Before;
    assert A in [A] && Ids([A]) == {"a"};
    assert ShowsEdit(THREE, A, 3) && ShowsReactions(THREE, A, 3);
    assert Fresh(THREE, A, P);
    assert StampPart(THREE, s, [A]) by {
      forall n: nat | n <= P && Touches(THREE, n, "a") ensures n <= 1 { assert n == 1 || n == 2 || n == 3; }
    }
    forall n: nat | BirthIn(THREE, n, "c") ensures BirthMsg(THREE, n) == A || Before(A, BirthMsg(THREE, n)) { ThreeBirths(n); }
  }

  lemma NewerPageOfB(page: Page)
    requires page == Page(2, [B], true, false)
    ensures PageOk(THREE, "c", page, Newer, A)
  {
    ThreeViews();
    ThreeOrder();
    assert BornAt(THREE, "a", 1);
    RankIs(THREE, "a", 1);
    hide Lawful, ViewAt, Before;
    assert B in [B];
    forall n: nat | n <= 2 && BirthIn(THREE, n, "c") && Before(A, BirthMsg(THREE, n)) ensures BirthMsg(THREE, n) == B { ThreeBirths(n); }
  }

  /**
   * The client shows A with more below, asks for what is newer, and takes the event of D while it waits: D is outside the
   * window and dropped. The page, assembled before D, says there is no more. The client has caught up, claims to show the
   * end of the conversation, and D is not there.
   */
  lemma LateTailHidesMessage()
    ensures var s, page := At(2, Window(1, false, true, false), map["a" := 1]), Page(2, [B], true, false);
      var s3 := s.(pts := Some(3));
      Lawful(THREE) && WinInv(THREE, UpTo(2), s, [A], "c") && PageOk(THREE, "c", page, Newer, A) &&
      ApplyMessage(s, Some([A]), Live(D), 3) == Merged(s, Some([A])) &&
      WinInv(THREE, UpTo(3), s3, [A], "c") && EdgeUnchanged(Some([A]), Newer, A) &&
      MergedList(s3, [A], "c", page, Newer) == [A, B] && !MergedWindow(s3, [A], "c", page, Newer).hasMoreAfter &&
      PtsOf(s3) == |THREE| && Lasting(THREE, "d")
  {
    var s, page := At(2, Window(1, false, true, false), map["a" := 1]), Page(2, [B], true, false);
    var s3 := s.(pts := Some(3));
    ThreeViews();
    WindowOfA(s, 2);
    WindowOfA(s3, 3);
    NewerPageOfB(page);
    LateTailDrop(s);
    LateTailMerge(s3, page);
    hide Lawful, ViewAt, WinInv, PageOk, ApplyMessage, MergedList;
  }

  lemma LateTailDrop(s: State)
    requires s == At(2, Window(1, false, true, false), map["a" := 1])
    ensures ApplyMessage(s, Some([A]), Live(D), 3) == Merged(s, Some([A]))
  {
    ThreeOrder();
    hide Sort, Before;
    assert IndexOf([A], "d") < 0;
  }

  lemma LateTailMerge(s: State, page: Page)
    requires s == At(3, Window(1, false, true, false), map["a" := 1]) && page == Page(2, [B], true, false)
    ensures MergedList(s, [A], "c", page, Newer) == [A, B]
  {
    ThreeOrder();
    assert [A] + [B] == [A, B];
    hide MergedList, Before;
    NewerTailListsExactly(s, [A], "c", page);
  }

  /** After a newer page a message is listed exactly when it was listed before, or is on the page. */
  lemma NewerTailListsExactly(s: State, list: seq<Msg>, c: Id, page: Page)
    requires c in s.windows && FeedOk(list + page.messages)
    requires forall m | m in page.messages :: m.id !in s.gone && !Newer_(s, page, m.id)
    ensures MergedList(s, list, c, page, Newer) == list + page.messages
  {
    hide Dedupe, IncomingOf, Before;
    Trimming.IncomingWhole(s, list, page, page.messages);
    Trimming.DedupeOfFeed(list + page.messages);
  }

  // ----- a late page whose messages were left behind by a jump -----

  /** All three messages were shown at position 3, then a jump left only D; the numbers of A and B stay. */
  const JUMPED: State := At(3, Window(3, true, false, false), map["a" := 3, "b" := 3, "d" := 3])

  lemma WindowOfD()
    ensures WinInv(THREE, UpTo(3), JUMPED, [D], "c")
  {
    ThreeViews();
    ThreeOrder();
    hide Lawful, ViewAt, Before;
    assert D in [D] && Ids([D]) == {"d"};
    assert ShowsEdit(THREE, D, 3) && ShowsReactions(THREE, D, 3);
    assert Fresh(THREE, D, 3);
    forall n: nat | BirthIn(THREE, n, "c") ensures BirthMsg(THREE, n) == D || Before(BirthMsg(THREE, n), D) { ThreeBirths(n); }
  }

  lemma LastPageOfTwo(page: Page)
    requires page == Page(2, [A, B], false, false)
    ensures PageOk(THREE, "c", page, Latest, A)
  {
    ThreeViews();
    ThreeOrder();
    hide Lawful, ViewAt, Before;
    assert A in [A, B] && B in [A, B];
    forall n: nat | n <= 2 && BirthIn(THREE, n, "c") ensures BirthMsg(THREE, n) in page.messages { ThreeBirths(n); }
  }

  lemma JumpedIncoming(page: Page)
    requires page == Page(2, [A, B], false, false)
    ensures Incoming(JUMPED, [D], page) == []
  {
    assert IndexOf([D], "a") < 0 && IndexOf([D], "b") < 0;
    assert Taken(JUMPED, [D], page, A) == [] && Taken(JUMPED, [D], page, B) == [];
    IncomingNone(JUMPED, [D], page);
    IncomingStep(JUMPED, [D], page, [], A);
    IncomingStep(JUMPED, [D], page, [A], B);
    assert [] + [A] == [A] && [A] + [B] == [A, B];
    hide IncomingOf, Taken;
  }

  lemma JumpedKept(page: Page)
    requires page == Page(2, [A, B], false, false)
    ensures NewerThanPage(JUMPED, [D], page, []) == [D]
  {
    ThreeOrder();
    var r := NewerThanPage(JUMPED, [D], page, []);
    FilterKeepsFeed([D], (x: Msg) => TagOf(JUMPED, x.id) > page.pts && x.id !in Ids([]));
    hide Before, Filter, FeedOk;
    assert forall x :: x in r <==> x == D;
    SortedUnique(r, [D]);
  }

  lemma JumpedDrops(page: Page)
    requires page == Page(2, [A, B], false, false)
    ensures Dropped(JUMPED, [D], page, "a")
  {
    assert Ids([D]) == {"d"} by { assert D in [D]; }
  }

  lemma JumpedMerge(page: Page)
    requires page == Page(2, [A, B], false, false)
    ensures MergedList(JUMPED, [D], "c", page, Latest) == [D]
  {
    hide Incoming, FeedOk, Dedupe, NewerThanPage, Before, OlderPart, JUMPED;
    JumpedIncoming(page);
    JumpedKept(page);
    NothingJoins(JUMPED, [D], "c", page);
    ThreeOrder();
    assert [] + [] + [D] == [D];
    Trimming.DedupeOfFeed([D]);
  }

  lemma NothingJoins(s: State, have: seq<Msg>, c: Id, page: Page)
    ensures OlderPart(s, have, c, page, []) == []
  {
  }

  /**
   * The last page asked for before the jump arrives, taken before D was sent: A and B are known in newer views, so they
   * are not taken, and those views are gone from the feed. The window claims to start at D.
   */
  lemma JumpLeavesNumbers()
    ensures var page, win := Page(2, [A, B], false, false), Window(3, false, false, false);
      PageCase(THREE, UpTo(3), JUMPED, Some([D]), "c", page, Latest, A) && !NoneDropped(JUMPED, [D], page) &&
      MergedList(JUMPED, [D], "c", page, Latest) == [D] && MergedWindow(JUMPED, [D], "c", page, Latest) == win &&
      Lasting(THREE, "a") && InsideWindow([D], win, A) && !HolesPart(THREE, UpTo(3), [D], win, "c")
  {
    var page := Page(2, [A, B], false, false);
    ThreeViews();
    JumpedDrops(page);
    JumpedMerge(page);
    JumpedWindow(page);
    JumpedHole();
    JumpedCase(page);
    assert A in page.messages;
    hide PageCase, Lawful, StateOk, WinInv, PageOk, MergedList, MergedWindow, HolesPart, ViewAt, Dropped, InsideWindow;
  }

  lemma JumpedCase(page: Page)
    requires page == Page(2, [A, B], false, false)
    ensures PageCase(THREE, UpTo(3), JUMPED, Some([D]), "c", page, Latest, A)
  {
    ThreeViews();
    WindowOfD();
    LastPageOfTwo(page);
    assert StateOk(THREE, JUMPED) by { hide ViewAt; }
    hide Lawful, StateOk, WinInv, PageOk;
  }

  lemma JumpedHole()
    ensures InsideWindow([D], Window(3, false, false, false), A) && !HolesPart(THREE, UpTo(3), [D], Window(3, false, false, false), "c")
  {
    ThreeViews();
    hide ViewAt, Lawful;
    assert BirthIn(THREE, 1, "c") && Ids([D]) == {"d"};
  }

  lemma JumpedWindow(page: Page)
    requires page == Page(2, [A, B], false, false)
    ensures MergedWindow(JUMPED, [D], "c", page, Latest) == Window(3, false, false, false)
  {
    hide IncomingOf;
  }

  // ----- an old message touched during the request stays below the page -----

  /** Three messages are sent, then somebody likes the first. */
  const FOUR: seq<Change> := [Sent(A), Sent(B), Sent(D), Reacted("a", "x")]

  /** An old place in the history: A alone, with more below it; what came after it is known to be there. */
  const OLD_PLACE: State := At(3, Window(3, false, true, false), map["a" := 3])
  const TOUCHED: State := At(4, Window(3, false, true, false), map["a" := 4])
  const LAST: Page := Page(3, [D], true, false)

  lemma FourViews()
    ensures Lawful(FOUR)
    ensures ViewAt(FOUR, "a", 3) == Alive(A) && ViewAt(FOUR, "a", 4) == Alive(LIKED)
    ensures ViewAt(FOUR, "b", 3) == ViewAt(FOUR, "b", 4) == Alive(B)
    ensures ViewAt(FOUR, "d", 3) == ViewAt(FOUR, "d", 4) == Alive(D)
  {
    assert ViewAt(FOUR, "a", 0).Absent? && ViewAt(FOUR, "b", 0).Absent? && ViewAt(FOUR, "d", 0).Absent?;
    assert ViewAt(FOUR, "a", 1) == Alive(A) && ViewAt(FOUR, "b", 1).Absent? && ViewAt(FOUR, "d", 1).Absent?;
    assert ViewAt(FOUR, "a", 2) == Alive(A) && ViewAt(FOUR, "b", 2) == Alive(B) && ViewAt(FOUR, "d", 2).Absent?;
    assert ViewAt(FOUR, "a", 3) == Alive(A) && ViewAt(FOUR, "b", 3) == Alive(B) && ViewAt(FOUR, "d", 3) == Alive(D);
    forall n | 0 <= n < |FOUR| ensures LawfulAt(FOUR, n) {}
  }

  lemma FourBirths(n: nat)
    requires BirthIn(FOUR, n, "c")
    ensures (n == 1 && BirthMsg(FOUR, n) == A) || (n == 2 && BirthMsg(FOUR, n) == B) || (n == 3 && BirthMsg(FOUR, n) == D)
  {
    assert n == 1 || n == 2 || n == 3 || n == 4;
  }

  lemma FourOrder()
    ensures Before(LIKED, B) && Before(LIKED, D) && Before(B, D) && !Before(B, LIKED) && !Before(D, LIKED)
    ensures FeedOk([A]) && FeedOk([LIKED]) && FeedOk([D]) && FeedOk([LIKED, D])
  {
  }

  lemma OldPlaceIsRight()
    ensures WinInv(FOUR, UpTo(3), OLD_PLACE, [A], "c")
  {
    FourViews();
    ThreeOrder();
    hide Lawful, ViewAt, Before;
    assert A in [A] && Ids([A]) == {"a"};
    assert ShowsEdit(FOUR, A, 3) && ShowsReactions(FOUR, A, 3);
    assert Fresh(FOUR, A, 3);
    forall n: nat | BirthIn(FOUR, n, "c") ensures BirthMsg(FOUR, n) == A || Before(A, BirthMsg(FOUR, n)) { FourBirths(n); }
  }

  lemma TouchedIsRight()
    ensures WinInv(FOUR, UpTo(4), TOUCHED, [LIKED], "c") && StateOk(FOUR, TOUCHED)
  {
    FourViews();
    FourOrder();
    hide Lawful, ViewAt, Before;
    assert LIKED in [LIKED] && Ids([LIKED]) == {"a"};
    assert ShowsEdit(FOUR, LIKED, 4) && ShowsReactions(FOUR, LIKED, 4);
    assert Fresh(FOUR, LIKED, 4);
    forall n: nat | BirthIn(FOUR, n, "c") ensures BirthMsg(FOUR, n).id == "a" || Before(LIKED, BirthMsg(FOUR, n)) { FourBirths(n); }
  }

  lemma LastIsPage()
    ensures PageOk(FOUR, "c", LAST, Latest, A)
  {
    FourViews();
    FourOrder();
    ThreeOrder();
    hide Lawful, ViewAt, Before;
    assert D in [D];
    forall n: nat | n <= 3 && BirthIn(FOUR, n, "c") && !Before(BirthMsg(FOUR, n), D) ensures BirthMsg(FOUR, n) == D { FourBirths(n); }
  }

  lemma TouchedCase()
    ensures PageCase(FOUR, UpTo(4), TOUCHED, Some([LIKED]), "c", LAST, Latest, A)
  {
    FourViews();
    TouchedIsRight();
    LastIsPage();
    hide Lawful, StateOk, WinInv, PageOk;
  }

  lemma TouchedParts()
    ensures Incoming(TOUCHED, [LIKED], LAST) == [D] && OlderPart(TOUCHED, [LIKED], "c", LAST, [D]) == []
    ensures KeptOld(TOUCHED, [LIKED], "c", LAST, Latest, LIKED) && Replacing(TOUCHED, [LIKED], "c", LAST, Latest)
    ensures MergedWindow(TOUCHED, [LIKED], "c", LAST, Latest) == Window(3, true, false, false)
    ensures !Newer_(TOUCHED, LAST, "d") && TagOf(TOUCHED, "a") == 4
  {
    Trimming.IncomingWhole(TOUCHED, [LIKED], LAST, [D]);
    hide IncomingOf, Before;
    assert LIKED in [LIKED];
  }

  lemma TouchedMerge()
    ensures MergedList(TOUCHED, [LIKED], "c", LAST, Latest) == [LIKED, D]
  {
    hide PageCase, MergedList, Incoming, Before, AllPlaced, OlderPart, FeedOk, Inputs, IncHolds, TOUCHED, LAST, FOUR;
    TouchedCase();
    TouchedParts();
    FourOrder();
    MergedMembers(FOUR, UpTo(4), TOUCHED, Some([LIKED]), "c", LAST, Latest, A);
    var r := MergedList(TOUCHED, [LIKED], "c", LAST, Latest);
    assert FeedOk(r) && D in r;
    assert LIKED in r by {
      var x :| x in r && x.id == "a";
      assert x in [D] || KeptOld(TOUCHED, [LIKED], "c", LAST, Latest, x);
    }
    assert forall x :: x in r <==> x in [LIKED, D];
    hide KeptOld, ListHolds;
    SameFeed(r, [LIKED, D]);
  }

  lemma SameFeed(a: seq<Msg>, b: seq<Msg>)
    requires FeedOk(a) && FeedOk(b) && forall x :: x in a <==> x in b
    ensures a == b
  {
    SortedUnique(a, b);
  }

  lemma TouchedHole()
    ensures var win := Window(3, true, false, false);
      InsideWindow([LIKED, D], win, B) && !HolesPart(FOUR, UpTo(4), [LIKED, D], win, "c")
  {
    FourViews();
    FourOrder();
    hide Lawful, ViewAt, Before;
    assert BirthIn(FOUR, 2, "c") && Ids([LIKED, D]) == {"a", "d"};
  }

  /**
   * The client shows an old place in the history and goes down to the end; while the last page is on its way somebody
   * likes A. The liked A is newer than the page, so it stays, below a page that does not reach it: A and D are
   * neighbours now, and B is missing between them. No other condition fails.
   */
  lemma LikedStaysBelow()
    ensures var win := Window(3, true, false, false);
      WinInv(FOUR, UpTo(3), OLD_PLACE, [A], "c") &&
      ApplyMessage(OLD_PLACE, Some([A]), Live(LIKED), 4) == Merged(TOUCHED.(pts := Some(3)), Some([LIKED])) &&
      PageCase(FOUR, UpTo(4), TOUCHED, Some([LIKED]), "c", LAST, Latest, A) &&
      ApplyPage(TOUCHED, Some([LIKED]), "c", LAST, Latest).list == Some([LIKED, D]) &&
      ApplyPage(TOUCHED, Some([LIKED]), "c", LAST, Latest).state.windows["c"] == win &&
      Lasting(FOUR, "b") && InsideWindow([LIKED, D], win, B) && !HolesPart(FOUR, UpTo(4), [LIKED, D], win, "c")
    ensures ViewsCurrent(FOUR, TOUCHED, LAST) && NoneDropped(TOUCHED, [LIKED], LAST) &&
      TailFits(FOUR, TOUCHED, [LIKED], "c", LAST, Latest) && AnchorFits(FOUR, TOUCHED, [LIKED], "c", LAST, Latest, A) &&
      !BelowFits(FOUR, TOUCHED, [LIKED], "c", LAST, Latest)
  {
    FourViews();
    OldPlaceIsRight();
    TouchedCase();
    TouchedParts();
    TouchedMerge();
    TouchedHole();
    TouchedRest();
    TouchedDelivered();
    hide Lawful, ViewAt, WinInv, PageCase, MergedList, MergedWindow, HolesPart, ApplyMessage, TailFits, AnchorFits, BelowFits, ViewsCurrent;
    hide InsideWindow, NoneDropped;
  }

  lemma TouchedDelivered()
    ensures ApplyMessage(OLD_PLACE, Some([A]), Live(LIKED), 4) == Merged(TOUCHED.(pts := Some(3)), Some([LIKED]))
  {
    hide Sort, Before;
    assert IndexOf([A], "a") == 0;
    assert [A][0 := LIKED] == [LIKED];
  }

  lemma TouchedViews()
    ensures ViewsCurrent(FOUR, TOUCHED, LAST) && NoneDropped(TOUCHED, [LIKED], LAST)
  {
    FourViews();
    hide Lawful, ViewAt, Ids;
    assert forall n: nat | 3 < n <= 4 :: !Touches(FOUR, n, "d");
  }

  lemma TouchedTail()
    ensures TailFits(FOUR, TOUCHED, [LIKED], "c", LAST, Latest)
  {
    hide KnownAfter, Lasting, Within, KeptBirth, FOUR;
    forall n: nat | BirthIn(FOUR, n, "c") ensures n <= 3 { FourBirths(n); }
  }

  lemma TouchedAnchor()
    ensures AnchorFits(FOUR, TOUCHED, [LIKED], "c", LAST, Latest, A)
  {
    TouchedParts();
    hide KnownAfter, Lasting, Incoming, OlderPart, InsideWindow, FOUR;
    assert forall y :: !BelowAnchor(TOUCHED, [LIKED], "c", LAST, Latest, A, y);
  }

  lemma TouchedRest()
    ensures ViewsCurrent(FOUR, TOUCHED, LAST) && NoneDropped(TOUCHED, [LIKED], LAST)
    ensures TailFits(FOUR, TOUCHED, [LIKED], "c", LAST, Latest) && AnchorFits(FOUR, TOUCHED, [LIKED], "c", LAST, Latest, A)
    ensures !BelowFits(FOUR, TOUCHED, [LIKED], "c", LAST, Latest)
  {
    hide *;
    TouchedViews();
    TouchedTail();
    TouchedAnchor();
    TouchedCase();
    TouchedNoHoles();
    assert Have(Some([LIKED])) == [LIKED] by { HaveOf([LIKED]); }
    PageSafety.BelowIff(FOUR, UpTo(4), TOUCHED, Some([LIKED]), "c", LAST, Latest, A);
  }

  lemma HaveOf(list: seq<Msg>)
    ensures Have(Some(list)) == list
  {
  }

  lemma TouchedNoHoles()
    ensures !NoHoles(FOUR, TOUCHED, [LIKED], "c", LAST, Latest)
  {
    TouchedHole();
    TouchedMerge();
    TouchedParts();
    hide MergedList, MergedWindow, InsideWindow, Lasting, Ids;
    assert forall n | n in UpTo(4) :: n in KnownAfter(FOUR, TOUCHED, "c", LAST, Latest);
  }

  // ----- an own message beyond the window opens a hole -----

  /**
   * The window shows A with more below. D is the person's own new message: its reply puts it right after A, and B, which
   * exists, is missing between them.
   */
  lemma SentBeyondWindowOpensHole()
    ensures var s := At(2, Window(1, false, true, false), map["a" := 1]);
      var r := ApplySent(s, Some([A]), D);
      WinInv(THREE, UpTo(2), s, [A], "c") && r.list == Some([A, D]) &&
      InsideWindow([A, D], r.state.windows["c"], B) && Lasting(THREE, "b") && BornAt(THREE, "b", 2) &&
      !HolesPart(THREE, UpTo(2), [A, D], r.state.windows["c"], "c")
  {
    var s := At(2, Window(1, false, true, false), map["a" := 1]);
    ThreeViews();
    ThreeOrder();
    WindowOfA(s, 2);
    assert IndexOf([A], "d") < 0;
    SortOfFeed([A, D]);
    assert [A] + [D] == [A, D];
    hide Lawful, ViewAt, WinInv, Before, Sort, FeedOk;
    assert BirthIn(THREE, 2, "c") && Ids([A, D]) == {"a", "d"};
  }

  /**
   * For every window that has more after its end: appending the reply to an own send opens no hole exactly when nothing
   * the window accounts for lies between its last message and the new one.
   */
  lemma SentBeyondWindowIff(J: seq<Change>, known: set<nat>, list: seq<Msg>, win: Window, c: Id, m: Msg)
    requires HolesPart(J, known, list, win, c) && FeedOk(list + [m]) && list != [] && win.hasMoreAfter
    ensures HolesPart(J, known, list + [m], win, c) <==>
      forall n | n in known && BirthIn(J, n, c) && Lasting(J, BirthMsg(J, n).id) &&
                 Before(list[|list| - 1], BirthMsg(J, n)) && !Before(m, BirthMsg(J, n)) :: BirthMsg(J, n).id in Ids(list + [m])
  {
    var both, last := list + [m], list[|list| - 1];
    Order();
    hide Before, Lasting, Lawful;
    assert both[|list|] == m && both[0] == list[0] && both[|list| - 1] == last;
    assert |list| > 1 ==> Before(list[0], last) by { assert Sorted(both); }
    assert forall x | x in list :: x in both;
    hide FeedOk;
    forall n | n in known && BirthIn(J, n, c) && Lasting(J, BirthMsg(J, n).id)
      ensures var y := BirthMsg(J, n);
        (InsideWindow(both, win, y) && !Before(last, y) ==> y.id in Ids(both)) &&
        (Before(last, y) && !Before(m, y) ==> InsideWindow(both, win, y)) &&
        (InsideWindow(both, win, y) ==> !Before(m, y))
    {
      var y := BirthMsg(J, n);
      assert InsideWindow(both, win, y) && !Before(last, y) ==> InsideWindow(list, win, y);
    }
  }

  // ----- a full list that moves the position past an open window -----

  /** A conversation was opened before there was any list: its last page, taken at 1, shows A. */
  const OPENED: State :=
    EMPTY.(phase := Syncing, windows := map["c" := Window(1, false, false, false)], msgPts := map["a" := 1])

  /** The first list comes with a later number and moves the position; B and D are never asked for. */
  lemma ListPassesWindow()
    ensures var res := ListReply(3, [Summary("c", false, 0, "")], []);
      WinInv(THREE, UpTo(1), OPENED, [A], "c") && "c" in ApplyList(OPENED, res).windows && ApplyList(OPENED, res).pts == Some(3) &&
      !ListFits(THREE, OPENED, [A], "c", res) && forall known :: !WinInv(THREE, known, ApplyList(OPENED, res), [A], "c")
  {
    hide Lawful, ViewAt, ApplyList, Before, WinInv, ListFits, StateOk;
    var res := ListReply(3, [Summary("c", false, 0, "")], []);
    var t := ApplyList(OPENED, res);
    ListedC(res);
    TailOfA(OPENED);
    ThreeViews();
    OpenedOk();
    assert BirthIn(THREE, 2, "c") && Lasting(THREE, "b");
    forall known ensures !WinInv(THREE, known, t, [A], "c") { MissesB(known, t); }
    ListKeepsWindowIff(THREE, UpTo(1), OPENED, [A], "c", res);
  }

  lemma OpenedOk()
    ensures StateOk(THREE, OPENED)
  {
    hide ViewAt;
  }

  lemma MissesB(known: set<nat>, t: State)
    requires t.pts == Some(3) && "c" in t.windows && t.windows["c"] == Window(1, false, false, false)
    requires BirthIn(THREE, 2, "c") && Lasting(THREE, "b")
    ensures !WinInv(THREE, known, t, [A], "c")
  {
    assert Ids([A]) == {"a"};
    hide FreshPart, StampPart, RemnantPart, FeedPart, Lasting, Before;
    assert KnownPart(THREE, known, t, t.windows["c"]) ==> 2 in known;
  }

  lemma ListedC(res: ListReply)
    requires res == ListReply(3, [Summary("c", false, 0, "")], [])
    ensures var t := ApplyList(OPENED, res); "c" in t.windows && t.windows["c"] == Window(1, false, false, false) && t.pts == Some(3)
  {
    hide ListedSummaries, ListedNumbers;
    assert res.conversations[0] in Listed(res) && "c" in SummaryIds(Listed(res));
  }

  lemma TailOfA(s: State)
    requires PtsOf(s) <= 1 && s.gone == {} && s.windows == map["c" := Window(1, false, false, false)] && s.msgPts == map["a" := 1]
    ensures WinInv(THREE, UpTo(1), s, [A], "c")
  {
    ThreeViews();
    ThreeOrder();
    hide Lawful, ViewAt, Before;
    assert A in [A] && Ids([A]) == {"a"};
    assert ShowsEdit(THREE, A, 3) && ShowsReactions(THREE, A, 3);
    assert Fresh(THREE, A, 1);
    forall n: nat | n in UpTo(1) && BirthIn(THREE, n, "c") ensures BirthMsg(THREE, n) == A { ThreeBirths(n); }
  }

  // ----- a last page that joins through the person's own new message -----

  function Name(i: nat): Id { seq(i + 1, _ => 'x') }

  function Nth(i: nat): Msg { Msg(Name(i), "c", i, Edit("", None), "") }

  /** Messages 0 to `n - 1` are sent, one after the other. */
  function Many(n: nat): seq<Change> { seq(n, i requires 0 <= i < n => Sent(Nth(i))) }

  function Stretch(a: nat, b: nat): seq<Msg>
    requires a <= b
  {
    seq(b - a, i requires 0 <= i < b - a => Nth(a + i))
  }

  lemma NamesDiffer(i: nat, j: nat)
    ensures Name(i) == Name(j) <==> i == j
    ensures Before(Nth(i), Nth(j)) <==> i < j
  {
    assert |Name(i)| == i + 1 && |Name(j)| == j + 1;
    assert i != j ==> Name(i) != Name(j);
    if i == j { BeforeIsTotalOrder(Nth(i), Nth(j), Nth(i)); }
  }

  lemma {:induction false} ManyViews(n: nat, i: nat, k: nat)
    requires k <= n && i < n
    ensures ViewAt(Many(n), Name(i), k) == if i < k then Alive(Nth(i)) else Absent
  {
    if k > 0 {
      ManyViews(n, i, k - 1);
      assert Many(n)[k - 1] == Sent(Nth(k - 1));
      NamesDiffer(i, k - 1);
    }
  }

  lemma ManyLawful(n: nat)
    ensures Lawful(Many(n))
  {
    forall k | 0 <= k < n ensures LawfulAt(Many(n), k) {
      assert Many(n)[k] == Sent(Nth(k));
      ManyViews(n, k, k);
      forall j | 0 <= j < k ensures Many(n)[j] == Sent(Nth(j)) {}
    }
  }

  lemma ManyBirths(n: nat, k: nat)
    requires BirthIn(Many(n), k, "c")
    ensures 1 <= k <= n && BirthMsg(Many(n), k) == Nth(k - 1)
  {
    assert Many(n)[k - 1] == Sent(Nth(k - 1));
  }

  lemma StretchIsFeed(a: nat, b: nat)
    requires a <= b
    ensures FeedOk(Stretch(a, b)) && forall m :: m in Stretch(a, b) <==> exists i: nat :: a <= i < b && m == Nth(i)
  {
    var r := Stretch(a, b);
    forall i, j | 0 <= i < j < |r| ensures Before(r[i], r[j]) && r[i].id != r[j].id { NamesDiffer(a + i, a + j); }
    forall i: nat | a <= i < b ensures Nth(i) in r { assert r[i - a] == Nth(i); }
  }

  /** The first message alone, then the stretch of the page: a feed. */
  lemma JoinedFeed(b: nat)
    requires 2 < b
    ensures FeedOk([Nth(0)] + Stretch(2, b))
  {
    var r := [Nth(0)] + Stretch(2, b);
    forall i, j | 0 <= i < j < |r| ensures Before(r[i], r[j]) && r[i].id != r[j].id {
      NamesDiffer(if i == 0 then 0 else 1 + i, 1 + j);
      assert r[j] == Nth(1 + j) && r[i] == Nth(if i == 0 then 0 else 1 + i);
    }
  }

  /** A window at the tail that shows message 0, at position 1. */
  function Tail0(tags: map<Id, nat>): State {
    At(1, Window(1, false, false, false), tags)
  }

  lemma TailOfFirst(n: nat)
    requires n > 0
    ensures WinInv(Many(n), UpTo(1), Tail0(map[Name(0) := 1]), [Nth(0)], "c")
  {
    var J, s := Many(n), Tail0(map[Name(0) := 1]);
    ManyViews(n, 0, n);
    assert FeedOk([Nth(0)]);
    hide ViewAt, Before, Many, Name;
    assert Nth(0) in [Nth(0)] && Ids([Nth(0)]) == {Name(0)};
    assert ShowsEdit(J, Nth(0), n) && ShowsReactions(J, Nth(0), n);
    assert Fresh(J, Nth(0), 1);
    assert |J| == n by { ManyLength(n); }
    forall k: nat | k in UpTo(1) && BirthIn(J, k, "c") ensures BirthMsg(J, k) == Nth(0) { ManyBirths(n, k); }
  }

  lemma ManyLength(n: nat)
    ensures |Many(n)| == n
  {
  }

  /**
   * The window at the tail shows message 0. Others send more messages, the person sends the last one: its reply adds it
   * without a number. A last page of any length that starts after message 1 joins the old window through it, and message
   * 1 stays out between them; the catch-up that brings message 1 has no larger number than the page, so it is dropped.
   */
  lemma OwnMessageJoinsPage(size: nat)
    requires size >= 1
    ensures var n, own := size + 2, Nth(size + 1);
      var s, page := Tail0(map[Name(0) := 1]), Page(n, Stretch(2, n), true, false);
      var sent := ApplySent(s, Some([Nth(0)]), own);
      var merged := ApplyPage(sent.state, sent.list, "c", page, Latest);
      |page.messages| == size && Lawful(Many(n)) && WinInv(Many(n), UpTo(1), s, [Nth(0)], "c") &&
      sent.list == Some([Nth(0), own]) && PageOk(Many(n), "c", page, Latest, own) &&
      merged.list == Some([Nth(0)] + Stretch(2, n)) &&
      !merged.state.windows["c"].hasMoreBefore && !merged.state.windows["c"].hasMoreAfter &&
      ApplyMessage(merged.state, merged.list, Live(Nth(1)), n) == merged && Lasting(Many(n), Name(1))
  {
    var n, own := size + 2, Nth(size + 1);
    var page := Page(n, Stretch(2, n), true, false);
    ManyLawful(n);
    TailOfFirst(n);
    OwnSent(size);
    OwnPage(size, page);
    OwnMerged(size, page);
    OwnDropped(size, ApplyPage(Tail0(map[Name(0) := 1, Name(size + 1) := 0]), Some([Nth(0), own]), "c", page, Latest).state);
    ManyViews(n, 1, n);
    ManyLength(n);
    hide Lawful, ViewAt, WinInv, PageOk, ApplyMessage, ApplyPage, ApplySent, Before, Many, Name;
  }

  lemma OwnSent(size: nat)
    ensures var own := Nth(size + 1);
      ApplySent(Tail0(map[Name(0) := 1]), Some([Nth(0)]), own) == Merged(Tail0(map[Name(0) := 1, Name(size + 1) := 0]), Some([Nth(0), own]))
  {
    var own := Nth(size + 1);
    NamesDiffer(0, size + 1);
    assert IndexOf([Nth(0)], own.id) < 0;
    assert FeedOk([Nth(0), own]);
    SortOfFeed([Nth(0), own]);
    assert [Nth(0)] + [own] == [Nth(0), own];
    hide Before, Sort, FeedOk, Name;
    assert map[Name(0) := 1][Name(size + 1) := 0] == map[Name(0) := 1, Name(size + 1) := 0];
  }

  lemma OwnPage(size: nat, page: Page)
    requires size >= 1 && page == Page(size + 2, Stretch(2, size + 2), true, false)
    ensures PageOk(Many(size + 2), "c", page, Latest, Nth(size + 1)) && |page.messages| == size
  {
    var n := size + 2;
    StretchIsFeed(2, n);
    ManyLength(n);
    assert page.messages[0] == Nth(2);
    hide FeedOk, Many, Name, ViewAt, Before;
    forall m | m in page.messages ensures m.conv == "c" && ViewAt(Many(n), m.id, n) == Alive(m) {
      var i: nat :| 2 <= i < n && m == Nth(i);
      ManyViews(n, i, n);
    }
    forall k: nat | k <= n && BirthIn(Many(n), k, "c") && !Before(BirthMsg(Many(n), k), page.messages[0])
      ensures BirthMsg(Many(n), k) in page.messages
    {
      ManyBirths(n, k);
      NamesDiffer(k - 1, 2);
    }
  }

  lemma OwnParts(size: nat, page: Page, t: State, have: seq<Msg>)
    requires size >= 1 && page == Page(size + 2, Stretch(2, size + 2), true, false)
    requires have == [Nth(0), Nth(size + 1)] && t == Tail0(map[Name(0) := 1, Name(size + 1) := 0])
    ensures OlderPart(t, have, "c", page, page.messages) == [Nth(0)] && NewerThanPage(t, have, page, page.messages) == []
  {
    NamesDiffer(0, 2);
    NamesDiffer(size + 1, 2);
    NamesDiffer(0, size + 1);
    var first := page.messages[0];
    assert first == Nth(2) && FeedOk(have);
    hide Before, Filter, Name, FeedOk;
    assert Nth(size + 1) in have && !Before(Nth(size + 1), first);
    assert forall x | x in have :: TagOf(t, x.id) <= 1;
    assert Joins(t, have, page, first);
    var older, newer := OlderPart(t, have, "c", page, page.messages), NewerThanPage(t, have, page, page.messages);
    FilterKeepsFeed(have, (x: Msg) => Before(x, first));
    assert forall x :: x in older <==> x == Nth(0);
    assert older == [Nth(0)] by { assert FeedOk([Nth(0)]); SortedUnique(older, [Nth(0)]); }
    HasMember(newer);
  }

  lemma OwnList(size: nat, page: Page, t: State, have: seq<Msg>)
    requires size >= 1 && page == Page(size + 2, Stretch(2, size + 2), true, false)
    requires OlderPart(t, have, "c", page, page.messages) == [Nth(0)] && NewerThanPage(t, have, page, page.messages) == []
    requires Incoming(t, have, page) == page.messages && t.windows == map["c" := Window(1, false, false, false)]
    ensures MergedList(t, have, "c", page, Latest) == [Nth(0)] + Stretch(2, size + 2)
    ensures MergedWindow(t, have, "c", page, Latest) == Window(size + 2, false, false, false)
  {
    JoinedFeed(size + 2);
    hide Before, Name, FeedOk, OlderPart, NewerThanPage, Incoming, Dedupe;
    assert MergeParts(t, have, "c", page, Latest, page.messages) == [Nth(0)] + Stretch(2, size + 2);
    Trimming.DedupeOfFeed([Nth(0)] + Stretch(2, size + 2));
  }

  lemma OwnMerged(size: nat, page: Page)
    requires size >= 1 && page == Page(size + 2, Stretch(2, size + 2), true, false)
    ensures var t, have := Tail0(map[Name(0) := 1, Name(size + 1) := 0]), [Nth(0), Nth(size + 1)];
      var r := ApplyPage(t, Some(have), "c", page, Latest);
      r.list == Some([Nth(0)] + Stretch(2, size + 2)) && "c" in r.state.windows &&
      r.state.windows["c"] == Window(size + 2, false, false, false) && r.state.gone == {} && Name(1) !in r.state.msgPts
  {
    var t, have := Tail0(map[Name(0) := 1, Name(size + 1) := 0]), [Nth(0), Nth(size + 1)];
    OwnParts(size, page, t, have);
    OwnTags(size, page, t);
    Trimming.IncomingWhole(t, have, page, page.messages);
    hide Before, Name, FeedOk, OlderPart, NewerThanPage, IncomingOf, MergedList, MergedWindow, PageTags, Stretch;
    OwnList(size, page, t, have);
  }

  lemma OwnTags(size: nat, page: Page, t: State)
    requires size >= 1 && page == Page(size + 2, Stretch(2, size + 2), true, false)
    requires t == Tail0(map[Name(0) := 1, Name(size + 1) := 0])
    ensures Name(1) !in PageTags(t, page)
    ensures forall m | m in page.messages :: m.id !in t.gone && !Newer_(t, page, m.id)
  {
    NamesDiffer(1, 0);
    NamesDiffer(1, size + 1);
    StretchIsFeed(2, size + 2);
    hide FeedOk, Before, Name;
    forall m | m in page.messages ensures m.id != Name(1) {
      var i: nat :| 2 <= i < size + 2 && m == Nth(i);
      NamesDiffer(1, i);
    }
  }

  lemma OwnDropped(size: nat, s: State)
    requires "c" in s.windows && s.windows["c"].basePts == size + 2 && s.gone == {} && Name(1) !in s.msgPts
    ensures var list := [Nth(0)] + Stretch(2, size + 2);
      ApplyMessage(s, Some(list), Live(Nth(1)), size + 2) == Merged(s, Some(list))
  {
    var list := [Nth(0)] + Stretch(2, size + 2);
    forall x | x in list ensures x.id != Name(1) {
      var i :| 0 <= i < |list| && list[i] == x;
      NamesDiffer(1, if i == 0 then 0 else i + 1);
      assert list[i] == Nth(if i == 0 then 0 else i + 1);
    }
    hide Sort, InsideWindow, Name;
    assert IndexOf(list, Name(1)) < 0;
  }

  // ----- a record that lands late -----

  /**
   * A record from disk replaces the buffer: whatever was received is still behind the position or waiting exactly when
   * nothing beyond the number of the record was waiting.
   */
  lemma RecordKeepsReceivedIff(sys: Sys, r: Cache.Record)
    requires r.pts >= 0
    ensures var h := Hydrated(sys, r).state;
      (forall n | n in Numbers(sys.state.buffer) :: n <= PtsOf(h) || n in Numbers(h.buffer)) <==>
      forall e | e in sys.state.buffer :: e.pts <= r.pts
  {
    Cache.HydrateShape(r);
    hide Cache.HydrateState;
    var h := Hydrated(sys, r).state;
    if forall n | n in Numbers(sys.state.buffer) :: n <= PtsOf(h) || n in Numbers(h.buffer) {
      forall e | e in sys.state.buffer ensures e.pts <= r.pts { assert e.pts in Numbers(sys.state.buffer); }
    }
  }
}
