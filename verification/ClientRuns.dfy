/** The rest of the client's steps, whole runs of them, and what a client that has caught up shows. */
module ClientRuns {
  import opened Feed
  import opened SyncRules
  import opened FeedSafety
  import opened Journal
  import opened Windows
  import opened WindowRules
  import opened PageMerge
  import opened Client
  import PageSafety

  // ----- pages and trims -----

  /** A page is a snapshot: its messages are what the server showed after change `page.pts`. */
  ghost predicate SnapshotOk(J: seq<Change>, c: Id, page: Page) {
    page.pts <= |J| && forall m | m in page.messages :: m.conv == c && ViewAt(J, m.id, page.pts) == Alive(m)
  }

  ghost function KnownOf(w: World, c: Id): set<nat> {
    if c in w.known then w.known[c] else {}
  }

  /** The merge leaves a right window: the server and the loaders did what they promise, and the exact condition holds. */
  ghost predicate MergeOk(w: World, c: Id, page: Page, kind: PageKind, cursor: Msg) {
    var list := FeedOf(w.sys.feeds, c);
    PageCase(w.J, KnownOf(w, c), w.sys.state, list, c, page, kind, cursor) &&
    MergeFits(w.J, w.sys.state, Have(list), c, page, kind, cursor)
  }

  /** The state without a window for this conversation. */
  function Forgotten(s: State, c: Id): State {
    s.(windows := s.windows - {c})
  }

  /** The merge takes nothing from the old window, and is right for a conversation that had none. */
  ghost predicate StartsOver(J: seq<Change>, s: State, list: Option<seq<Msg>>, c: Id, page: Page, kind: PageKind, cursor: Msg) {
    ApplyPage(s, list, c, page, kind) == ApplyPage(Forgotten(s, c), None, c, page, kind) &&
    PageCase(J, {}, Forgotten(s, c), None, c, page, kind, cursor) && MergeFits(J, Forgotten(s, c), [], c, page, kind, cursor)
  }

  ghost function AfterPage(w: World, c: Id, page: Page, kind: PageKind, cursor: Msg): World {
    var s, sys' := w.sys.state, Perform(w.sys, PageIn(c, page, kind));
    if (c in w.sys.feeds ==> c in w.sound) && MergeOk(w, c, page, kind, cursor) then
      World(w.J, w.known[c := KnownAfter(w.J, s, c, page, kind)], w.sound + {c}, sys')
    else if StartsOver(w.J, s, FeedOf(w.sys.feeds, c), c, page, kind, cursor) then
      World(w.J, w.known[c := KnownAfter(w.J, Forgotten(s, c), c, page, kind)], w.sound + {c}, sys')
    else World(w.J, w.known, w.sound - {c}, sys')
  }

  lemma SnapshotHome(J: seq<Change>, c: Id, page: Page)
    requires Lawful(J) && SnapshotOk(J, c, page)
    ensures AllPlaced(J, c, page.messages)
    ensures forall n, id | BornAt(J, id, n) && id in Ids(page.messages) :: BirthMsg(J, n).conv == c
  {
    forall m | m in page.messages ensures Placed(J, c, m) {
      ViewIsFresh(J, m, page.pts);
      hide Fresh, ViewAt;
      FreshIsPlaced(J, m, page.pts);
    }
    forall n, id | BornAt(J, id, n) && id in Ids(page.messages) ensures BirthMsg(J, n).conv == c {
      hide SnapshotOk, ViewAt;
      var m :| m in page.messages && m.id == id;
      assert Placed(J, c, m);
      BirthUnique(J, id, n, Rank(J, id));
    }
  }

  lemma PageShape(s: State, list: Option<seq<Msg>>, c: Id, page: Page, kind: PageKind)
    ensures var r := ApplyPage(s, list, c, page, kind);
      r.list.Some? && r.state.pts == s.pts && r.state.gone == s.gone && r.state.buffer == s.buffer && r.state.phase == s.phase &&
      r.state.summaries == s.summaries && r.state.msgPts == PageTags(s, page) && (forall k | k in s.windows && k != c :: k in r.state.windows && r.state.windows[k] == s.windows[k]) &&
      FeedOk(r.list.value) && forall x | x in r.list.value :: x in Have(list) || x in page.messages
  {
    hide MergedList, MergedWindow, PageTags, IncomingOf;
    MergedComesFromInputs(s, Have(list), c, page, kind);
    IncomingFacts(s, Have(list), page, page.messages);
  }

  lemma TagsShape(s: State, page: Page, P: nat)
    requires page.pts <= P && forall id | id in s.msgPts :: s.msgPts[id] <= P
    ensures forall id | id in PageTags(s, page) :: PageTags(s, page)[id] <= P
    ensures forall id | id !in Ids(page.messages) :: (id in PageTags(s, page) <==> id in s.msgPts)
    ensures forall id | id !in Ids(page.messages) && id in s.msgPts :: PageTags(s, page)[id] == s.msgPts[id]
  {
    assert forall id | id in Retagged(s, page) :: id in Ids(page.messages);
    hide Retagged;
  }

  lemma PageTouchesOne(J: seq<Change>, s: State, list: Option<seq<Msg>>, c: Id, page: Page, kind: PageKind)
    requires Lawful(J) && StateOk(J, s) && SnapshotOk(J, c, page) && (list.Some? ==> AllHome(J, c, list.value))
    ensures var r := ApplyPage(s, list, c, page, kind);
      StateOk(J, r.state) && OnlyAbout(J, s, r.state, c, Ids(page.messages)) && r.list.Some? && AllHome(J, c, r.list.value)
  {
    SnapshotHome(J, c, page);
    var r := ApplyPage(s, list, c, page, kind);
    PageShape(s, list, c, page, kind);
    TagsShape(s, page, |J|);
    hide Lawful, ViewAt, ApplyPage, PageTags, BornAt, Placed, FeedOk;
  }

  /**
   * Whatever page arrives, the other conversations stay right; this one does when the merge meets the exact condition, and
   * becomes right when the page replaces it.
   */
  lemma PageKeepsWorld(w: World, c: Id, page: Page, kind: PageKind, cursor: Msg)
    requires WorldOk(w) && SnapshotOk(w.J, c, page)
    ensures WorldOk(AfterPage(w, c, page, kind, cursor))
  {
    var s, list := w.sys.state, FeedOf(w.sys.feeds, c);
    var r := ApplyPage(s, list, c, page, kind);
    PageTouchesOne(w.J, s, list, c, page, kind);
    var next := AfterPage(w, c, page, kind, cursor);
    AfterPageShape(w, c, page, kind, cursor);
    hide ApplyPage, OnlyAbout, WinInv, StateOk, Lawful, AllHome, SnapshotOk, AfterPage;
    if c in next.sound { PageKeepsClaim(w, c, page, kind, cursor); }
    OneConversation(w, c, Ids(page.messages), r.state, r.list, next.known, next.sound);
  }

  lemma AfterPageShape(w: World, c: Id, page: Page, kind: PageKind, cursor: Msg)
    ensures var next, r := AfterPage(w, c, page, kind, cursor), ApplyPage(w.sys.state, FeedOf(w.sys.feeds, c), c, page, kind);
      next.J == w.J && next.sys == Sys(r.state, WithFeed(w.sys.feeds, c, r.list)) && next.sound <= w.sound + {c} &&
      w.known.Keys <= next.known.Keys && forall k | k in w.known && k != c :: next.known[k] == w.known[k]
  {
    hide ApplyPage, KnownAfter, MergeOk, StartsOver;
  }

  lemma PageKeepsClaim(w: World, c: Id, page: Page, kind: PageKind, cursor: Msg)
    requires WorldOk(w) && c in AfterPage(w, c, page, kind, cursor).sound
    ensures var r, next := ApplyPage(w.sys.state, FeedOf(w.sys.feeds, c), c, page, kind), AfterPage(w, c, page, kind, cursor);
      r.list.Some? && c in next.known && WinInv(w.J, next.known[c], r.state, r.list.value, c)
  {
    hide ApplyPage, WinInv, KnownAfter, WorldOk, Perform, PageCase, MergeFits;
    var s, list := w.sys.state, FeedOf(w.sys.feeds, c);
    if (c in w.sys.feeds ==> c in w.sound) && MergeOk(w, c, page, kind, cursor) {
      PageSafety.PageKeepsWindowIff(w.J, KnownOf(w, c), s, list, c, page, kind, cursor);
    } else {
      PageSafety.PageKeepsWindowIff(w.J, {}, Forgotten(s, c), None, c, page, kind, cursor);
    }
  }

  // ----- recovery -----

  /** With no newer views known, what is taken from a page does not depend on the old feed. */
  lemma {:induction false} IncomingAlone(s: State, t: State, have: seq<Msg>, page: Page, ms: seq<Msg>)
    requires s.gone == t.gone && s.msgPts == t.msgPts && forall m | m in ms :: m.id in s.gone || !Newer_(s, page, m.id)
    ensures IncomingOf(s, have, page, ms) == IncomingOf(t, [], page, ms)
  {
    if ms != [] {
      assert ms[|ms| - 1] in ms && forall m | m in ms[..|ms| - 1] :: m in ms;
      IncomingAlone(s, t, have, page, ms[..|ms| - 1]);
    }
  }

  /** The page takes the place of the window: nothing newer is known of its messages, and nothing old stays. */
  predicate Replaces(s: State, have: seq<Msg>, c: Id, page: Page, kind: PageKind) {
    page.pts >= PtsOf(s) && (forall m | m in page.messages :: m.id in s.gone || !Newer_(s, page, m.id)) &&
    match kind
    case Jump => page.hasMoreAfter || forall x | x in have :: TagOf(s, x.id) <= page.pts
    case Latest =>
      BaseOf(s, c) <= page.pts && OlderPart(s, have, c, page, Incoming(s, have, page)) == [] &&
      forall x | x in have :: TagOf(s, x.id) <= page.pts
    case _ => false
  }

  lemma NothingNewer(s: State, have: seq<Msg>, page: Page, inc: seq<Msg>)
    requires forall x | x in have :: TagOf(s, x.id) <= page.pts
    ensures NewerThanPage(s, have, page, inc) == []
  {
    var r := NewerThanPage(s, have, page, inc);
    HasMember(r);
  }

  lemma ReplacesSame(s: State, list: Option<seq<Msg>>, c: Id, page: Page, kind: PageKind)
    requires Replaces(s, Have(list), c, page, kind)
    ensures ApplyPage(s, list, c, page, kind) == ApplyPage(Forgotten(s, c), None, c, page, kind)
  {
    hide IncomingOf, Dedupe, OlderPart, NewerThanPage, PageTags, Before;
    var have, t := Have(list), Forgotten(s, c);
    IncomingAlone(s, t, have, page, page.messages);
    var inc := Incoming(t, [], page);
    NothingNewer(t, [], page, inc);
    if forall x | x in have :: TagOf(s, x.id) <= page.pts { NothingNewer(s, have, page, inc); }
    PageSafety.OlderOfNone(t, c, page, inc);
    SameTags(s, t, page);
    SameMerge(s, t, have, c, page, kind, inc);
    hide MergedList, MergedWindow;
    assert t.windows[c := MergedWindow(t, [], c, page, kind)] == s.windows[c := MergedWindow(t, [], c, page, kind)];
  }

  lemma SameTags(s: State, t: State, page: Page)
    requires s.gone == t.gone && s.msgPts == t.msgPts
    ensures PageTags(s, page) == PageTags(t, page)
  {
    assert Retagged(s, page) == Retagged(t, page);
  }

  lemma SameMerge(s: State, t: State, have: seq<Msg>, c: Id, page: Page, kind: PageKind, inc: seq<Msg>)
    requires kind == Latest || kind == Jump
    requires c !in t.windows && Incoming(s, have, page) == inc == Incoming(t, [], page)
    requires (kind == Jump && page.hasMoreAfter) || (NewerThanPage(s, have, page, inc) == [] == NewerThanPage(t, [], page, inc))
    requires kind == Latest ==> OlderPart(s, have, c, page, inc) == [] == OlderPart(t, [], c, page, inc) && BaseOf(s, c) <= page.pts
    ensures MergedList(s, have, c, page, kind) == MergedList(t, [], c, page, kind)
    ensures MergedWindow(s, have, c, page, kind) == MergedWindow(t, [], c, page, kind)
  {
    hide Incoming, Dedupe, OlderPart, NewerThanPage;
  }

  /**
   * Recovery: a page at least as new as the position that takes the place of the window leaves it right, whatever the
   * window was before: after a jump into the history, for one, nothing of an earlier mishap is left.
   */
  lemma ReplacingPageRecovers(J: seq<Change>, s: State, list: Option<seq<Msg>>, c: Id, page: Page, kind: PageKind, cursor: Msg)
    requires Lawful(J) && StateOk(J, s) && PageOk(J, c, page, kind, cursor) && Replaces(s, Have(list), c, page, kind)
    requires RemnantSafe(J, Forgotten(s, c), [], c, page, kind)
    ensures StartsOver(J, s, list, c, page, kind, cursor)
    ensures var r := ApplyPage(s, list, c, page, kind);
      r.list.Some? && WinInv(J, KnownAfter(J, Forgotten(s, c), c, page, kind), r.state, r.list.value, c)
  {
    hide PageCase, ApplyPage, Admissible, AnchorFits, MergeFits, RemnantSafe, PageOk, Lawful, StateOk, Replaces, KnownAfter, WinInv;
    ReplacesSame(s, list, c, page, kind);
    ReplacesCase(J, s, Have(list), c, page, kind, cursor);
    PageSafety.PageKeepsWindow(J, {}, Forgotten(s, c), None, c, page, kind, cursor);
  }

  lemma ReplacesCase(J: seq<Change>, s: State, have: seq<Msg>, c: Id, page: Page, kind: PageKind, cursor: Msg)
    requires Lawful(J) && StateOk(J, s) && PageOk(J, c, page, kind, cursor) && Replaces(s, have, c, page, kind)
    ensures var t := Forgotten(s, c);
      PageCase(J, {}, t, None, c, page, kind, cursor) && Admissible(t, [], c, page, kind) && AnchorFits(J, t, [], c, page, kind, cursor)
  {
    hide Lawful, PageOk, ViewAt, KnownAfter, OlderPart, IncomingOf, Lasting;
    var t := Forgotten(s, c);
    PageSafety.OlderOfNone(t, c, page, Incoming(t, [], page));
    assert StateOk(J, t);
    hide StateOk;
  }

  /** So a conversation comes back into the claim, whatever took it out. */
  lemma JumpRecovers(w: World, c: Id, page: Page, cursor: Msg)
    requires WorldOk(w) && PageOk(w.J, c, page, Jump, cursor) && page.hasMoreAfter && page.pts >= PtsOf(w.sys.state)
    requires forall m | m in page.messages :: m.id in w.sys.state.gone || !Newer_(w.sys.state, page, m.id)
    ensures c in AfterPage(w, c, page, Jump, cursor).sound && WorldOk(AfterPage(w, c, page, Jump, cursor))
  {
    assert SnapshotOk(w.J, c, page);
    PageKeepsWorld(w, c, page, Jump, cursor);
    hide PageOk, ApplyPage, MergeFits, PageCase, KnownAfter, Perform, WinInv;
    ReplacingPageRecovers(w.J, w.sys.state, FeedOf(w.sys.feeds, c), c, page, Jump, cursor);
  }

  ghost function AfterTrim(w: World, c: Id, side: Side, count: int): World {
    w.(sys := Perform(w.sys, TrimIn(c, side, count)))
  }

  lemma HomeBorn(J: seq<Change>, c: Id, list: seq<Msg>)
    requires Lawful(J) && AllHome(J, c, list)
    ensures forall n, id | BornAt(J, id, n) && id in Ids(list) :: BirthMsg(J, n).conv == c
  {
    forall n, id | BornAt(J, id, n) && id in Ids(list) ensures BirthMsg(J, n).conv == c {
      var m :| m in list && m.id == id;
      assert Placed(J, c, m);
      BirthUnique(J, id, n, Rank(J, id));
    }
  }

  lemma TrimShape(s: State, list: seq<Msg>, c: Id, side: Side, count: int)
    ensures var r := TrimWindow(s, list, c, side, count);
      r.list.Some? && (forall x | x in r.list.value :: x in list) && (FeedOk(list) ==> FeedOk(r.list.value)) &&
      r.state.pts == s.pts && r.state.gone == s.gone && r.state.summaries == s.summaries && r.state.summaryPts == s.summaryPts &&
      r.state.buffer == s.buffer && r.state.phase == s.phase &&
      (forall k | k in s.windows && k != c :: k in r.state.windows && r.state.windows[k] == s.windows[k]) &&
      (forall id | id !in Ids(list) :: (id in r.state.msgPts <==> id in s.msgPts)) &&
      (forall id | id in r.state.msgPts :: id in s.msgPts && r.state.msgPts[id] == s.msgPts[id])
  {
  }

  lemma TrimKeepsWorld(w: World, c: Id, side: Side, count: int)
    requires WorldOk(w)
    ensures WorldOk(AfterTrim(w, c, side, count))
  {
    if c in w.sys.feeds {
      var s, list := w.sys.state, w.sys.feeds[c];
      var r := TrimWindow(s, list, c, side, count);
      TrimShape(s, list, c, side, count);
      HomeBorn(w.J, c, list);
      hide TrimWindow, WinInv, Lawful, ViewAt, BornAt, Placed, FeedOk;
      assert OnlyAbout(w.J, s, r.state, c, Ids(list)) && StateOk(w.J, r.state);
      hide OnlyAbout, StateOk;
      if c in w.sound { TrimKeepsWindow(w.J, w.known[c], s, list, c, side, count); }
      OneConversation(w, c, Ids(list), r.state, r.list, w.known, w.sound);
    }
  }

  // ----- own sends, edits, deletions -----

  /** The reply to an own send is a view of the journal. */
  ghost predicate SentOk(J: seq<Change>, m: Msg) {
    exists a: nat :: a <= |J| && ViewAt(J, m.id, a) == Alive(m)
  }

  lemma ReplyIsHome(J: seq<Change>, m: Msg)
    requires Lawful(J) && SentOk(J, m)
    ensures Placed(J, m.conv, m) && AllHome(J, m.conv, [m])
  {
    var a: nat :| a <= |J| && ViewAt(J, m.id, a) == Alive(m);
    ViewIsFresh(J, m, a);
    hide Lawful, Fresh, ViewAt;
    FreshIsPlaced(J, m, a);
  }

  ghost function AfterSent(w: World, m: Msg): World {
    var c, sys' := m.conv, Perform(w.sys, SentIn(m));
    var least := Account(w.J, w.sys.state, BaseOf(w.sys.state, c), c);
    if c in w.sound && c in w.known && c in w.sys.feeds && SentFits(w.J, least, w.sys.state, w.sys.feeds[c], m) then
      World(w.J, w.known[c := least], w.sound, sys')
    else World(w.J, w.known, w.sound - {c}, sys')
  }

  lemma SentShape(s: State, list: Option<seq<Msg>>, m: Msg)
    ensures var r := ApplySent(s, list, m);
      r.list.Some? == list.Some? && (list.Some? ==> forall x | x in r.list.value :: x in list.value || x == m) &&
      (list.Some? && FeedOk(list.value) ==> FeedOk(r.list.value)) &&
      (r.state == s || r.state == s.(msgPts := s.msgPts[m.id := TagOf(s, m.id)]))
  {
    hide Sort, Before;
    if list.Some? && FeedOk(list.value) && IndexOf(list.value, m.id) < 0 { AppendSortKeepsFeed(list.value, m); }
    hide IndexOf, Sorted, UniqueIds;
  }

  lemma SentAbout(J: seq<Change>, s: State, list: Option<seq<Msg>>, m: Msg)
    requires Lawful(J) && StateOk(J, s) && SentOk(J, m) && (list.Some? ==> AllHome(J, m.conv, list.value))
    ensures var r := ApplySent(s, list, m);
      StateOk(J, r.state) && OnlyAbout(J, s, r.state, m.conv, Ids([m])) && r.list.Some? == list.Some? &&
      (list.Some? ==> AllHome(J, m.conv, r.list.value))
  {
    hide Lawful, ApplySent, SentOk, Placed, FeedOk, ViewAt;
    SentShape(s, list, m);
    ReplyIsHome(J, m);
    HomeBorn(J, m.conv, [m]);
    assert m in [m];
    hide BornAt;
  }

  lemma SentKeepsWorld(w: World, m: Msg)
    requires WorldOk(w) && SentOk(w.J, m)
    ensures WorldOk(AfterSent(w, m))
  {
    hide ApplySent, WinInv, Lawful, SentFits, SentOk, StateOk, OnlyAbout, AllHome, Keyed;
    var c, s := m.conv, w.sys.state;
    var list := FeedOf(w.sys.feeds, c);
    var r := ApplySent(s, list, m);
    SentAbout(w.J, s, list, m);
    var next := AfterSent(w, m);
    if c in next.sound { SentKeepsWindowIff(w.J, w.known[c], s, w.sys.feeds[c], m); }
    hide Account, BaseOf;
    OneConversation(w, c, Ids([m]), r.state, r.list, next.known, next.sound);
  }

  /** The reply to an own edit is a view of the journal and carries the time of the edit. */
  ghost predicate EditOk(J: seq<Change>, m: Msg) {
    m.edit.editedAt.Some? && exists a: nat :: a <= |J| && ViewAt(J, m.id, a) == Alive(m)
  }

  lemma EditedHome(J: seq<Change>, c: Id, list: seq<Msg>, m: Msg)
    requires AllHome(J, c, list) && Placed(J, c, m)
    ensures AllHome(J, c, ApplyEdited(list, m))
  {
    var list' := ApplyEdited(list, m);
    hide Before, Sorted, UniqueIds;
    forall i | 0 <= i < |list| ensures SameKey(list[i], list'[i]) && Placed(J, c, list'[i]) {
      assert list[i] in list;
      if list[i].id == m.id { PlacedSameKey(J, c, list[i], m); }
    }
    hide Placed;
    PlacesKeepFeed(list, list');
  }

  lemma EditKeepsWorld(w: World, m: Msg)
    requires WorldOk(w) && EditOk(w.J, m)
    ensures WorldOk(w.(sys := Perform(w.sys, EditIn(m))))
  {
    var c := m.conv;
    if c in w.sys.feeds {
      var list := w.sys.feeds[c];
      var a: nat :| a <= |w.J| && ViewAt(w.J, m.id, a) == Alive(m);
      assert SentOk(w.J, m);
      assert AllHome(w.J, c, ApplyEdited(list, m)) by {
        hide WinInv, ViewAt, StateOk, AllHome;
        ReplyIsHome(w.J, m);
        EditedHome(w.J, c, list, m);
      }
      hide ApplyEdited, WinInv, ViewAt, StateOk, Lawful, AllHome;
      if c in w.sound { EditedKeepsWindow(w.J, w.known[c], w.sys.state, list, c, m, a); }
    }
  }

  /** The server confirmed a deletion. */
  ghost predicate RemovedOk(J: seq<Change>, c: Id, id: Id) {
    AtHome(J, c, id) && ViewAt(J, id, |J|).Erased?
  }

  ghost function AfterRemoved(w: World, c: Id, id: Id): World {
    World(w.J, KnownPlus(w.known, c, Rank(w.J, id)), w.sound, Perform(w.sys, RemovedIn(c, id)))
  }

  lemma RemovedKeepsWorld(w: World, c: Id, id: Id)
    requires WorldOk(w) && RemovedOk(w.J, c, id)
    ensures WorldOk(AfterRemoved(w, c, id))
  {
    var s, list := w.sys.state, FeedOf(w.sys.feeds, c);
    var r := ApplyRemoved(s, list, id);
    var n :| BornAt(w.J, id, n) && BirthMsg(w.J, n).conv == c;
    BirthUnique(w.J, id, n, Rank(w.J, id));
    forall k | BornAt(w.J, id, k) ensures k == n { BirthUnique(w.J, id, k, n); }
    if list.Some? { FilterKeepsFeed(list.value, (x: Msg) => x.id != id); }
    hide Lawful, ViewAt, Filter, WinInv, BornAt, Rank, FeedOk, Placed;
    assert OnlyAbout(w.J, s, r.state, c, {id}) && StateOk(w.J, r.state);
    assert list.Some? ==> AllHome(w.J, c, r.list.value);
    hide OnlyAbout, StateOk, ApplyRemoved, AllHome;
    if c in w.sound { RemovedKeepsWindow(w.J, w.known[c], s, w.sys.feeds[c], c, id, n); }
    OneConversation(w, c, {id}, r.state, r.list, KnownPlus(w.known, c, n), w.sound);
  }

  // ----- full lists, growth -----

  /** Conversations whose claim survives a full list: still listed, and nothing the position moves past is missing. */
  ghost function SoundAfterList(w: World, res: ListReply): set<Id> {
    set c | c in w.sound && c in w.sys.feeds && c in ApplyList(w.sys.state, res).windows &&
            ListFits(w.J, w.sys.state, w.sys.feeds[c], c, res)
  }

  ghost function AfterList(w: World, res: ListReply): World {
    World(w.J, KnownAll(w.known, UpTo(res.pts)), SoundAfterList(w, res), Perform(w.sys, ListIn(res)))
  }

  lemma ListKeepsKeyed(s: State, res: ListReply)
    requires Keyed(s.summaries)
    ensures Keyed(ApplyList(s, res).summaries)
  {
    hide Listed;
  }

  lemma ListKeepsWorld(w: World, res: ListReply)
    requires WorldOk(w) && res.pts <= |w.J|
    ensures WorldOk(AfterList(w, res))
  {
    hide WinInv, Lawful, ListFits, FeedsHome, ListedIds, ListedTags, LastSummary, OwnNewer, ViewAt;
    assert StateOk(w.J, ApplyList(w.sys.state, res));
    assert Keyed(ApplyList(w.sys.state, res).summaries) by { hide StateOk; ListKeepsKeyed(w.sys.state, res); }
    hide StateOk, ApplyList, Keyed;
    forall c | c in SoundAfterList(w, res)
      ensures WinInv(w.J, w.known[c] + UpTo(res.pts), ApplyList(w.sys.state, res), w.sys.feeds[c], c)
    {
      ListKeepsWindowIff(w.J, w.known[c], w.sys.state, w.sys.feeds[c], c, res);
    }
  }

  lemma PlacedInLonger(J: seq<Change>, J': seq<Change>, c: Id, x: Msg)
    requires Lawful(J') && |J| <= |J'| && J == J'[..|J|] && Placed(J, c, x)
    ensures Placed(J', c, x)
  {
    var n := Rank(J, x.id);
    assert BornAt(J', x.id, n) && BirthMsg(J', n) == BirthMsg(J, n);
    hide Lawful;
    RankIs(J', x.id, n);
  }

  lemma GrowthKeepsWorld(w: World, more: seq<Change>)
    requires WorldOk(w) && Lawful(w.J + more)
    ensures WorldOk(w.(J := w.J + more))
  {
    var J' := w.J + more;
    assert w.J == J'[..|w.J|];
    forall c, x | c in w.sys.feeds && x in w.sys.feeds[c] ensures Placed(J', c, x) {
      assert AllHome(w.J, c, w.sys.feeds[c]);
      PlacedInLonger(w.J, J', c, x);
    }
    StateOkInLonger(w.J, J', w.sys.state);
    hide WinInv, Lawful, StateOk, Placed;
    forall c | c in w.sound ensures WinInv(J', w.known[c], w.sys.state, w.sys.feeds[c], c) {
      GrowthKeepsWindow(w.J, J', w.known[c], w.sys.state, w.sys.feeds[c], c);
    }
  }

  // ----- whole runs -----

  /** One atomic step of the world: the server commits, or a reply or event reaches the client. */
  datatype Act =
    | Commit(more: seq<Change>)
    | Consume(ev: Event)
    | CatchUp(since: nat, reply: SyncReply)
    | MergePage(c: Id, page: Page, kind: PageKind, cursor: Msg)
    | Trim(c: Id, side: Side, count: int)
    | SentReply(m: Msg)
    | EditReply(m: Msg)
    | RemovedReply(c: Id, id: Id)
    | FullList(res: ListReply)

  /** What the server promises of what it sends, and the store's own guards on numbers. */
  ghost predicate Enabled(w: World, act: Act) {
    match act
    case Commit(more) => Lawful(w.J + more)
    case Consume(ev) => EventOk(w.J, ev) && ev.pts == PtsOf(w.sys.state) + 1
    case CatchUp(since, res) => SyncOk(w.J, since, res) && since <= PtsOf(w.sys.state) <= res.pts
    case MergePage(c, page, _, _) => SnapshotOk(w.J, c, page)
    case Trim(_, _, _) => true
    case SentReply(m) => SentOk(w.J, m)
    case EditReply(m) => EditOk(w.J, m)
    case RemovedReply(c, id) => RemovedOk(w.J, c, id)
    case FullList(res) => res.pts <= |w.J|
  }

  ghost function Step(w: World, act: Act): World {
    match act
    case Commit(more) => w.(J := w.J + more)
    case Consume(ev) => AfterEvent(w, ev)
    case CatchUp(_, res) => AfterSync(w, res)
    case MergePage(c, page, kind, cursor) => AfterPage(w, c, page, kind, cursor)
    case Trim(c, side, count) => AfterTrim(w, c, side, count)
    case SentReply(m) => AfterSent(w, m)
    case EditReply(m) => w.(sys := Perform(w.sys, EditIn(m)))
    case RemovedReply(c, id) => AfterRemoved(w, c, id)
    case FullList(res) => AfterList(w, res)
  }

  lemma StepKeepsWorld(w: World, act: Act)
    requires WorldOk(w) && Enabled(w, act)
    ensures WorldOk(Step(w, act))
  {
    hide WorldOk, AfterEvent, AfterSync, AfterPage, AfterTrim, AfterSent, AfterRemoved, AfterList, Perform;
    hide EventOk, SyncOk, SnapshotOk, SentOk, EditOk, RemovedOk, Lawful;
    match act
    case Commit(more) => GrowthKeepsWorld(w, more);
    case Consume(ev) => EventKeepsWorld(w, ev);
    case CatchUp(since, res) => SyncKeepsWorld(w, since, res);
    case MergePage(c, page, kind, cursor) => PageKeepsWorld(w, c, page, kind, cursor);
    case Trim(c, side, count) => TrimKeepsWorld(w, c, side, count);
    case SentReply(m) => SentKeepsWorld(w, m);
    case EditReply(m) => EditKeepsWorld(w, m);
    case RemovedReply(c, id) => RemovedKeepsWorld(w, c, id);
    case FullList(res) => ListKeepsWorld(w, res);
  }

  ghost function RunTo(w: World, acts: seq<Act>): World {
    if acts == [] then w else Step(RunTo(w, acts[..|acts| - 1]), acts[|acts| - 1])
  }

  ghost predicate Possible(w: World, acts: seq<Act>) {
    acts == [] || (Possible(w, acts[..|acts| - 1]) && Enabled(RunTo(w, acts[..|acts| - 1]), acts[|acts| - 1]))
  }

  /** Every state that any interleaving reaches is right: up to date and without holes in every sound conversation. */
  lemma {:induction false} RunKeepsWorld(w: World, acts: seq<Act>)
    requires WorldOk(w) && Possible(w, acts)
    ensures WorldOk(RunTo(w, acts))
  {
    hide WorldOk, Enabled, Step;
    if acts != [] {
      RunKeepsWorld(w, acts[..|acts| - 1]);
      StepKeepsWorld(RunTo(w, acts[..|acts| - 1]), acts[|acts| - 1]);
    }
  }

  /** Whatever the window may account for, it is not right. */
  ghost predicate WrongWindow(J: seq<Change>, sys: Sys, c: Id)
    requires c in sys.feeds
  {
    forall known :: !WinInv(J, known, sys.state, sys.feeds[c], c)
  }

  /** The window of this conversation is wrong after the step, or its feed is gone. */
  ghost predicate WrongAfter(w: World, act: Act, c: Id) {
    var t := Step(w, act).sys;
    match act
    case MergePage(k, page, kind, cursor) =>
      k == c && c in t.feeds && WrongWindow(w.J, t, c)
    case SentReply(m) => m.conv == c && c in t.feeds && WrongWindow(w.J, t, c)
    case FullList(_) => c in t.feeds && WrongWindow(w.J, t, c)
    case Consume(_) => c !in t.feeds
    case CatchUp(_, _) => c !in t.feeds
    case _ => false
  }

  lemma SoundIs(w: World, c: Id)
    requires WorldOk(w) && c in w.sound
    ensures Lawful(w.J) && StateOk(w.J, w.sys.state) && c in w.known && c in w.sys.feeds && c in w.sys.state.windows
    ensures WinInv(w.J, w.known[c], w.sys.state, w.sys.feeds[c], c)
  {
    assert WinInv(w.J, w.known[c], w.sys.state, w.sys.feeds[c], c);
    hide FeedPart, FreshPart, StampPart, HolesPart, RemnantPart, KnownPart, FeedsHome;
  }

  lemma PageLost(w: World, k: Id, page: Page, kind: PageKind, cursor: Msg, c: Id)
    requires WorldOk(w) && c in w.sound && c in w.known && c !in AfterPage(w, k, page, kind, cursor).sound
    requires PageOk(w.J, k, page, kind, cursor) && EdgeUnchanged(FeedOf(w.sys.feeds, k), kind, cursor)
    ensures WrongAfter(w, MergePage(k, page, kind, cursor), c)
  {
    hide WorldOk, WinInv, Lawful, StateOk, MergeFits, AfterPage, ApplyPage, KnownAfter, PageOk, EdgeUnchanged;
    SoundIs(w, c);
    NotClaimed(w, k, page, kind, cursor, c);
    AfterPageShape(w, c, page, kind, cursor);
    assert PageCase(w.J, w.known[c], w.sys.state, Some(w.sys.feeds[c]), c, page, kind, cursor);
    hide PageCase;
    PageSafety.PageKeepsWindowIff(w.J, w.known[c], w.sys.state, Some(w.sys.feeds[c]), c, page, kind, cursor);
  }

  lemma NotClaimed(w: World, k: Id, page: Page, kind: PageKind, cursor: Msg, c: Id)
    requires c in w.sound && c !in AfterPage(w, k, page, kind, cursor).sound
    ensures k == c && !MergeOk(w, c, page, kind, cursor)
  {
    hide MergeOk, StartsOver, KnownAfter, Perform;
  }

  lemma SentLost(w: World, m: Msg, c: Id)
    requires WorldOk(w) && c in w.sound && c in w.known && c !in AfterSent(w, m).sound
    ensures WrongAfter(w, SentReply(m), c)
  {
    hide WorldOk, WinInv, Lawful, StateOk, SentFits, ApplySent;
    SoundIs(w, c);
    SentKeepsWindowIff(w.J, w.known[c], w.sys.state, w.sys.feeds[c], m);
  }

  lemma NoWindow(J: seq<Change>, s: State, list: seq<Msg>, c: Id)
    requires c !in s.windows
    ensures forall known :: !WinInv(J, known, s, list, c)
  {
  }

  lemma ListLost(w: World, res: ListReply, c: Id)
    requires WorldOk(w) && c in w.sound && c in w.known && c !in AfterList(w, res).sound && res.pts <= |w.J|
    ensures WrongAfter(w, FullList(res), c)
  {
    hide WorldOk, WinInv, Lawful, StateOk, ListFits, ApplyList;
    SoundIs(w, c);
    if c in ApplyList(w.sys.state, res).windows {
      ListKeepsWindowIff(w.J, w.known[c], w.sys.state, w.sys.feeds[c], c, res);
    } else {
      NoWindow(w.J, ApplyList(w.sys.state, res), w.sys.feeds[c], c);
    }
  }

  /**
   * A conversation leaves the claim only when its window really is wrong afterwards (or its feed is gone): after a page
   * that is what the server promises, after the reply to an own send, after a full list.
   */
  lemma LostIsWrong(w: World, act: Act, c: Id)
    requires WorldOk(w) && Enabled(w, act) && c in w.sound && c !in Step(w, act).sound
    requires act.MergePage? ==>
      PageOk(w.J, act.c, act.page, act.kind, act.cursor) && EdgeUnchanged(FeedOf(w.sys.feeds, act.c), act.kind, act.cursor)
    ensures WrongAfter(w, act, c)
  {
    SoundHas(w, c);
    hide WorldOk, WinInv, AfterPage, AfterSent, AfterList, PageOk, EdgeUnchanged, TakeEvent, TakeSync, Perform;
    match act
    case MergePage(k, page, kind, cursor) => PageLost(w, k, page, kind, cursor, c);
    case SentReply(m) => SentLost(w, m, c);
    case FullList(res) => ListLost(w, res, c);
    case _ =>
  }

  // ----- a client that has caught up -----

  /** Caught up: every listed message is exactly what the server shows, and everything inside the window is listed. */
  lemma CaughtUpShowsServer(w: World, c: Id)
    requires WorldOk(w) && c in w.sound && PtsOf(w.sys.state) == |w.J|
    ensures c in w.sys.feeds && c in w.sys.state.windows
    ensures forall x | x in w.sys.feeds[c] :: ViewAt(w.J, x.id, |w.J|) == Alive(x)
    ensures forall n | BirthIn(w.J, n, c) && Lasting(w.J, BirthMsg(w.J, n).id) &&
                       InsideWindow(w.sys.feeds[c], w.sys.state.windows[c], BirthMsg(w.J, n)) ::
      BirthMsg(w.J, n).id in Ids(w.sys.feeds[c])
  {
    SoundHas(w, c);
    var s, list := w.sys.state, w.sys.feeds[c];
    assert WinInv(w.J, w.known[c], s, list, c) && StateOk(w.J, s);
    hide WorldOk, InsideWindow;
    forall x | x in list ensures ViewAt(w.J, x.id, |w.J|) == Alive(x) {
      FreshBound(w.J, x, Max(PtsOf(s), TagOf(s, x.id)));
      hide StateOk;
      FreshAtEnd(w.J, x);
    }
    hide Lasting;
    forall n: nat | BirthIn(w.J, n, c) ensures n in w.known[c] { assert 1 <= n <= PtsOf(s); }
  }

  lemma FreshBound(J: seq<Change>, x: Msg, P: nat)
    requires Fresh(J, x, P)
    ensures P <= |J|
  {
    hide ShowsEdit, ShowsReactions;
  }

  /** Two clients of one journal that both caught up agree on every message inside both windows. */
  lemma CaughtUpAgree(w: World, v: World, c: Id, x: Msg)
    requires WorldOk(w) && WorldOk(v) && w.J == v.J && c in w.sound && c in v.sound
    requires PtsOf(w.sys.state) == |w.J| && PtsOf(v.sys.state) == |v.J|
    requires c in w.sys.feeds && x in w.sys.feeds[c]
    requires c in v.sys.feeds && c in v.sys.state.windows && InsideWindow(v.sys.feeds[c], v.sys.state.windows[c], x)
    ensures x in v.sys.feeds[c]
  {
    CaughtUpShowsServer(w, c);
    CaughtUpShowsServer(v, c);
    SoundIsPlaced(w, c);
    hide WorldOk;
    var n := Rank(w.J, x.id);
    assert Placed(w.J, c, x);
    InsideByKey(v.sys.feeds[c], v.sys.feeds[c], v.sys.state.windows[c], x, BirthMsg(w.J, n));
    hide InsideWindow, Rank, ViewAt;
    assert BirthIn(w.J, n, c) && Lasting(w.J, x.id);
    var y :| y in v.sys.feeds[c] && y.id == x.id;
  }

  /**
   * Both at the tail: the feed that starts later is exactly a suffix of the other. A client that was restarted and one
   * that never stopped show the same messages once both caught up.
   */
  lemma TailsAgree(w: World, v: World, c: Id) returns (k: nat)
    requires WorldOk(w) && WorldOk(v) && w.J == v.J && c in w.sound && c in v.sound
    requires PtsOf(w.sys.state) == |w.J| && PtsOf(v.sys.state) == |v.J|
    requires c in w.sys.feeds && c in v.sys.feeds && c in w.sys.state.windows && c in v.sys.state.windows
    requires !w.sys.state.windows[c].hasMoreAfter && !v.sys.state.windows[c].hasMoreAfter
    requires w.sys.feeds[c] != [] && v.sys.feeds[c] != [] && !Before(v.sys.feeds[c][0], w.sys.feeds[c][0])
    ensures k <= |w.sys.feeds[c]| && v.sys.feeds[c] == w.sys.feeds[c][k..]
  {
    var a, b := w.sys.feeds[c], v.sys.feeds[c];
    SoundFeedOk(w, c);
    SoundFeedOk(v, c);
    Order();
    hide WorldOk, Before;
    forall x | x in b ensures x in a {
      FeedEnds(b, x);
      CaughtUpAgree(v, w, c, x);
    }
    forall x | x in a && !Before(x, b[0]) ensures x in b {
      CaughtUpAgree(w, v, c, x);
    }
    k := Suffix(a, b);
  }

  lemma Suffix(a: seq<Msg>, b: seq<Msg>) returns (k: nat)
    requires Sorted(a) && Sorted(b) && b != []
    requires forall x | x in b :: x in a
    requires forall x | x in a && !Before(x, b[0]) :: x in b
    ensures k <= |a| && b == a[k..]
  {
    Order();
    hide Before;
    assert b[0] in b;
    k :| 0 <= k < |a| && a[k] == b[0];
    assert forall i | 0 <= i < k :: Before(a[i], b[0]);
    forall i | k <= i < |a| ensures a[i] in b { assert i > k ==> Before(a[k], a[i]); }
    forall x | x in b ensures x in a[k..] {
      FeedEnds(b, x);
      var i :| 0 <= i < |a| && a[i] == x;
      assert a[k..][i - k] == x;
    }
    SortedUnique(b, a[k..]);
  }

  lemma SoundFeedOk(w: World, c: Id)
    requires WorldOk(w) && c in w.sound
    ensures c in w.sys.feeds && FeedOk(w.sys.feeds[c])
  {
    assert WinInv(w.J, w.known[c], w.sys.state, w.sys.feeds[c], c);
    hide FreshPart, StampPart, HolesPart, RemnantPart, KnownPart, StateOk, Lawful, FeedsHome;
  }
}
