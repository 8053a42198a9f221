/** The pieces the conversation store is made of: its bookkeeping, and what one reply does to the conversations. */
module StoreSteps {
  import opened Feed
  import opened SyncRules
  import opened FeedSafety
  import opened Journal
  import opened Windows
  import opened PageMerge
  import opened Client
  import opened ClientRuns
  import opened Consumption
  import opened Buffering
  import opened Standings
  import Cache
  import PageEffect
  import SyncLoops

  datatype Gateway = Unknown | Up | Down

  /** Where an activation of the sync loop is suspended. */
  datatype Pc =
    | AwaitList
    | AwaitSync(since: nat)
    | AwaitResetList
    | AwaitResetPage(c: Id)
    | AwaitPeers
    | Returned
    | Failed

  datatype Loop = Loop(gen: nat, pc: Pc)

  /** The cursor of a request that has none. */
  const NO_CURSOR := Msg("", "", 0, Edit("", None), "")

  /** A history request in flight; `cursor` is the edge it was asked from. */
  datatype Request = Request(gen: nat, c: Id, kind: PageKind, cursor: Option<Msg>)

  function CursorOf(r: Request): Msg {
    if r.cursor.Some? then r.cursor.value else NO_CURSOR
  }

  ghost function EdgeId(r: Request): Id {
    if r.cursor.Some? then r.cursor.value.id else ""
  }

  /** The message a request was made from is still at its edge of the feed; a last page and a jump need none. */
  ghost predicate AtEdge(feeds: Feeds, r: Request) {
    (r.kind == Older ==> r.c in feeds && feeds[r.c] != [] && feeds[r.c][0].id == EdgeId(r)) &&
    (r.kind == Newer ==> r.c in feeds && feeds[r.c] != [] && feeds[r.c][|feeds[r.c]| - 1].id == EdgeId(r))
  }

  lemma AtEdgeIs(feeds: Feeds, r: Request)
    ensures AtEdge(feeds, r) <==> EdgeUnchanged(FeedOf(feeds, r.c), r.kind, CursorOf(r))
  {
  }

  /** A window longer than this loses the far edge after a load. */
  const WINDOW_MAX := 300

  datatype Cut = Cut(side: Side, count: int)

  function TrimPlan(length: nat, loaded: PageKind): Option<Cut> {
    if length <= WINDOW_MAX then None
    else Some(Cut(if loaded == Older then Bottom else Top, length - WINDOW_MAX))
  }

  /** The store after a page: merged, and cut when windows are bounded; a jump is never cut. */
  function AfterLoad(sys: Sys, c: Id, page: Page, kind: PageKind, windowed: bool): Sys {
    var t := Perform(sys, PageIn(c, page, kind));
    var cut := if windowed && kind != Jump && c in t.feeds then TrimPlan(|t.feeds[c]|, kind) else None;
    if cut.Some? then Perform(t, TrimIn(c, cut.value.side, cut.value.count)) else t
  }

  /**
   * After a load the feed is the merged one, unless windows are bounded: then at most three hundred messages are left, those
   * at the edge that was loaded, and the window knows that there is more beyond the other. A jump is never cut. Numbers of
   * messages that were cut are forgotten; other feeds stay.
   */
  lemma LoadKeepsEdge(sys: Sys, c: Id, page: Page, kind: PageKind, windowed: bool)
    ensures var m, t := ApplyPage(sys.state, FeedOf(sys.feeds, c), c, page, kind), AfterLoad(sys, c, page, kind, windowed);
      m.list.Some? && c in m.state.windows && c in t.feeds && c in t.state.windows &&
      t.feeds.Keys == sys.feeds.Keys + {c} && (forall k | k in sys.feeds && k != c :: t.feeds[k] == sys.feeds[k]) &&
      var all, win := m.list.value, m.state.windows[c];
      (!windowed || kind == Jump || |all| <= 300 ==> t.feeds[c] == all && t.state == m.state) &&
      (windowed && kind == Older && |all| > 300 ==>
        t.feeds[c] == all[..300] && t.state.windows[c] == win.(hasMoreAfter := true) &&
        t.state.msgPts == m.state.msgPts - Ids(all[300..])) &&
      (windowed && (kind == Latest || kind == Newer) && |all| > 300 ==>
        t.feeds[c] == all[|all| - 300..] && t.state.windows[c] == win.(hasMoreBefore := true) &&
        t.state.msgPts == m.state.msgPts - Ids(all[..|all| - 300]))
  {
    hide MergedList, MergedWindow, PageTags, Ids;
  }

  function TakeEvents(sys: Sys, evs: seq<Event>): Sys {
    if evs == [] then sys else TakeEvent(TakeEvents(sys, evs[..|evs| - 1]), evs[|evs| - 1])
  }

  function Kept(s: State, ev: Event, gap: bool): State {
    s.(buffer := BufferEvent(s.buffer, ev), phase := if gap then Syncing else s.phase)
  }

  /** A kept event is in the buffer, and nothing else of the conversations changes but the phase. */
  lemma KeptHas(s: State, ev: Event, gap: bool)
    ensures var t := Kept(s, ev, gap);
      ev.pts in Numbers(t.buffer) && t.phase == (if gap then Syncing else s.phase) && t.pts == s.pts &&
      t.summaries == s.summaries && t.summaryPts == s.summaryPts
  {
    var b := if exists b | b in s.buffer :: b.pts == ev.pts then (var b :| b in s.buffer && b.pts == ev.pts; b) else ev;
    assert b in BufferEvent(s.buffer, ev) && b.pts == ev.pts;
    hide SortEvents;
  }

  /** A pushed event is consumed only if it is the next one. */
  function PushedTakes(s: State, ev: Event): seq<Take> {
    if EventDecision(s, ev.pts) == Apply then [One(ev.pts)] else []
  }

  /** What a pushed event does to the conversations. */
  function Pushed(sys: Sys, ev: Event): Sys {
    match EventDecision(sys.state, ev.pts)
    case Skip => sys
    case Apply => TakeEvent(sys, ev)
    case Buffer => sys.(state := Kept(sys.state, ev, false))
    case Gap => sys.(state := Kept(sys.state, ev, true))
  }

  /** What a live store does with an event, by its number alone. */
  lemma LivePlaces(s: State, feeds: Feeds, ev: Event)
    ensures s.phase == Live_ && s.pts.Some? && ev.pts <= s.pts.value ==>
      Pushed(Sys(s, feeds), ev) == Sys(s, feeds) && PushedTakes(s, ev) == []
    ensures s.phase == Live_ && s.pts.Some? && ev.pts == s.pts.value + 1 ==>
      Pushed(Sys(s, feeds), ev) == TakeEvent(Sys(s, feeds), ev) && PushedTakes(s, ev) == [One(ev.pts)]
    ensures s.phase == Live_ && s.pts.Some? && ev.pts > s.pts.value + 1 ==>
      Pushed(Sys(s, feeds), ev) == Sys(Kept(s, ev, true), feeds) && PushedTakes(s, ev) == []
  {
    hide TakeEvent;
  }

  lemma BufferedIsKept(s: State, feeds: Feeds, ev: Event)
    ensures EventDecision(s, ev.pts) == Buffer ==> PushedTakes(s, ev) == [] && Pushed(Sys(s, feeds), ev) == Sys(Kept(s, ev, false), feeds)
  {
  }

  /** The end of a catch-up: the buffer is drained and the phase set, in one step. */
  function Settled(sys: Sys, up: bool): Sys {
    var plan := DrainPlan(PtsOf(sys.state), sys.state.buffer);
    var t := TakeEvents(sys.(state := sys.state.(buffer := plan.rest)), plan.apply);
    t.(state := t.state.(phase := if plan.gap then Syncing else if up then Live_ else Idle))
  }

  /**
   * After a drain the buffer holds exactly what lies beyond the position; if that is something, the store keeps syncing, else
   * it is live when the gateway is up.
   */
  ghost predicate Drained(before: seq<Event>, s: State, up: bool) {
    (forall e :: e in s.buffer <==> e in before && e.pts > PtsOf(s)) &&
    s.phase == if s.buffer != [] then Syncing else if up then Live_ else Idle
  }

  lemma DrainedBy(was: State, s: State, plan: Plan, up: bool)
    requires MaximalRun(PtsOf(was), was.buffer, plan) && s.buffer == plan.rest && s.pts == Some(PtsOf(was) + |plan.apply|)
    requires s.phase == if plan.gap then Syncing else if up then Live_ else Idle
    ensures Drained(was.buffer, s, up)
  {
  }

  /** The list and nothing else, after the server said its journal no longer reaches back. */
  function Restarted(s: State, res: ListReply): State {
    ApplyList(EMPTY.(phase := s.phase, buffer := s.buffer, gone := s.gone), res)
  }

  ghost predicate BufferOk(J: seq<Change>, s: State, received: set<nat>) {
    Increasing(s.buffer) && (forall e | e in s.buffer :: EventOk(J, e)) &&
    (forall n | n in received :: n <= PtsOf(s) || n in Numbers(s.buffer)) &&
    (s.phase == Live_ ==> s.buffer == [] && s.pts.Some?)
  }

  ghost predicate Waiting(pc: Pc) { pc != Returned && pc != Failed }

  // ----- shapes -----

  lemma EventShape(sys: Sys, ev: Event)
    ensures var t := TakeEvent(sys, ev);
      t.state.pts == Some(ev.pts) && t.state.buffer == sys.state.buffer && t.state.phase == sys.state.phase
  {
    hide Perform, Newest;
    StandingIsAside(sys, ev.standing, ev.pts);
    if ev.message.Some? { MessageShape(Perform(sys, StandingIn(ev.standing, ev.pts)), ev.message.value, ev.pts); }
  }

  lemma {:induction false} StandingsShape(sys: Sys, sts: seq<Standing>, P: nat)
    ensures var t := TakeStandings(sys, sts, P);
      t.state.pts == sys.state.pts && t.state.buffer == sys.state.buffer && t.state.phase == sys.state.phase
  {
    hide Perform;
    if sts != [] {
      StandingsShape(sys, sts[..|sts| - 1], P);
      StandingIsAside(TakeStandings(sys, sts[..|sts| - 1], P), sts[|sts| - 1], P);
    }
  }

  lemma {:induction false} MessagesShape(sys: Sys, ms: seq<Delivered>, P: nat)
    ensures var t := TakeMessages(sys, ms, P);
      t.state.pts == sys.state.pts && t.state.buffer == sys.state.buffer && t.state.phase == sys.state.phase
  {
    hide Perform;
    if ms != [] {
      MessagesShape(sys, ms[..|ms| - 1], P);
      MessageShape(TakeMessages(sys, ms[..|ms| - 1], P), ms[|ms| - 1], P);
    }
  }

  lemma SyncShape(sys: Sys, res: SyncReply)
    ensures var t := TakeSync(sys, res);
      t.state.pts == Some(Max(PtsOf(sys.state), res.pts)) && t.state.buffer == sys.state.buffer && t.state.phase == sys.state.phase
  {
    hide TakeStandings, TakeMessages, TakePins, TakeScheduled;
    StandingsShape(sys, res.conversations, res.pts);
    MessagesShape(TakeStandings(sys, res.conversations, res.pts), res.messages, res.pts);
    var t := TakeMessages(TakeStandings(sys, res.conversations, res.pts), res.messages, res.pts);
    ListsAreAside(t.state, res.pins, res.pts);
    ListsAreAside(TakePins(t.state, res.pins, res.pts), res.scheduled, res.pts);
  }

  lemma LoadShape(sys: Sys, c: Id, page: Page, kind: PageKind, windowed: bool)
    ensures var t := AfterLoad(sys, c, page, kind, windowed);
      t.state.pts == sys.state.pts && t.state.buffer == sys.state.buffer && t.state.phase == sys.state.phase &&
      t.state.summaries == sys.state.summaries && t.state.summaryPts == sys.state.summaryPts
  {
    hide ApplyPage, TrimWindow, PageTags, TrimPlan;
    var t := Perform(sys, PageIn(c, page, kind));
    PageEffect.PageNumbers(sys.state, FeedOf(sys.feeds, c), c, page, kind, c);
    if c in t.feeds {
      var cut := TrimPlan(|t.feeds[c]|, kind);
      if cut.Some? { TrimShape(t.state, t.feeds[c], c, cut.value.side, cut.value.count); }
    }
  }

  /** What the server sent stays true as its journal grows. */
  lemma EventOkInLonger(J: seq<Change>, more: seq<Change>, ev: Event)
    requires Lawful(J + more) && EventOk(J, ev)
    ensures EventOk(J + more, ev)
  {
    var J' := J + more;
    assert J == J'[..|J|];
    if ev.message.Some? {
      var d, P := ev.message.value, ev.pts;
      var n := Rank(J, DeliveredId(d));
      var a :| P <= a <= |J| && Shown(J, d, a);
      ViewsOfPrefix(J, J', DeliveredId(d), a);
      assert Shown(J', d, a);
      assert BornAt(J', DeliveredId(d), n) && BirthMsg(J', n) == BirthMsg(J, n);
      RankIs(J', DeliveredId(d), n);
    }
  }

  lemma BufferInLonger(J: seq<Change>, more: seq<Change>, s: State, received: set<nat>)
    requires Lawful(J + more) && BufferOk(J, s, received)
    ensures BufferOk(J + more, s, received)
  {
    hide EventOk, Lawful;
    forall e | e in s.buffer ensures EventOk(J + more, e) { EventOkInLonger(J, more, e); }
  }

  lemma TakeEventsStep(sys: Sys, evs: seq<Event>, i: nat)
    requires i < |evs|
    ensures TakeEvents(sys, evs[..i + 1]) == TakeEvent(TakeEvents(sys, evs[..i]), evs[i])
  {
    assert evs[..i + 1][..i] == evs[..i];
    hide TakeEvent;
  }

  /** Page and cut together keep the world; the cut never harms. */
  ghost function AfterLoadWorld(w: World, c: Id, page: Page, kind: PageKind, cursor: Msg, windowed: bool): World {
    AfterPage(w, c, page, kind, cursor).(sys := AfterLoad(w.sys, c, page, kind, windowed))
  }

  lemma AfterPageSys(w: World, c: Id, page: Page, kind: PageKind, cursor: Msg)
    ensures AfterPage(w, c, page, kind, cursor).sys == Perform(w.sys, PageIn(c, page, kind))
  {
    hide Perform, MergeOk, StartsOver, KnownAfter;
  }

  lemma LoadKeepsWorld(w: World, c: Id, page: Page, kind: PageKind, cursor: Msg, windowed: bool)
    requires WorldOk(w) && SnapshotOk(w.J, c, page)
    ensures WorldOk(AfterLoadWorld(w, c, page, kind, cursor, windowed))
  {
    hide WorldOk, Perform, SnapshotOk, AfterPage;
    PageKeepsWorld(w, c, page, kind, cursor);
    AfterPageSys(w, c, page, kind, cursor);
    var w1 := AfterPage(w, c, page, kind, cursor);
    if c in w1.sys.feeds {
      var cut := TrimPlan(|w1.sys.feeds[c]|, kind);
      if cut.Some? { TrimKeepsWorld(w1, c, cut.value.side, cut.value.count); }
    }
  }

  lemma LoadedWorld(w: World, c: Id, page: Page, kind: PageKind, cursor: Msg, windowed: bool)
    ensures var next := AfterLoadWorld(w, c, page, kind, cursor, windowed);
      next.J == w.J && next.sys == AfterLoad(w.sys, c, page, kind, windowed)
  {
    hide AfterLoad, Perform, MergeOk, StartsOver, KnownAfter;
  }

  /** After a reset only the list is left, and of the old state the phase, the buffer and the deletions. */
  lemma RestartExactly(s: State, res: ListReply)
    ensures var r := Restarted(s, res);
      r.pts == Some(res.pts) && r.phase == s.phase && r.buffer == s.buffer && r.gone == s.gone &&
      r.windows == map[] && r.msgPts == map[] && r.pins == map[] && r.scheduled == map[]
    ensures var r := Restarted(s, res); forall id :: id in r.summaries <==> exists x :: InList(res, id, x)
    ensures var r := Restarted(s, res); forall id | id in r.summaries ::
      InList(res, id, r.summaries[id]) && id in r.summaryPts && r.summaryPts[id] == res.pts
  {
    var e := EMPTY.(phase := s.phase, buffer := s.buffer, gone := s.gone);
    forall id ensures var r := Restarted(s, res);
      (id in r.summaries <==> exists x :: InList(res, id, x)) &&
      (id in r.summaries ==> InList(res, id, r.summaries[id]) && id in r.summaryPts && r.summaryPts[id] == res.pts)
    {
      ListStanding(e, res, id);
      hide ApplyList;
    }
    hide ListedSummaries, ListedNumbers, ListedTags;
  }

  lemma RestartShape(s: State, res: ListReply)
    ensures var r := Restarted(s, res); r.buffer == s.buffer && r.phase == s.phase && r.pts == Some(res.pts)
  {
    hide ListedSummaries, ListedNumbers;
  }

  lemma RestartedWorld(J: seq<Change>, s: State, res: ListReply)
    requires Lawful(J) && StateOk(J, s) && res.pts <= |J|
    ensures WorldOk(World(J, map[], {}, Sys(Restarted(s, res), map[]))) && PtsOf(Restarted(s, res)) == res.pts
  {
    ListKeepsKeyed(EMPTY.(phase := s.phase, buffer := s.buffer, gone := s.gone), res);
    assert Keyed(Restarted(s, res).summaries) by { hide Keyed, ApplyList; }
    hide Lawful, ViewAt, ListedSummaries, ListedNumbers, Keyed;
  }

  /** A new phase other than live, and a new buffer, mean nothing to the windows. */
  lemma QuietWorld(w: World, phase: Phase, buffer: seq<Event>)
    requires WorldOk(w)
    ensures WorldOk(w.(sys := w.sys.(state := w.sys.state.(phase := phase, buffer := buffer))))
  {
    var sys' := w.sys.(state := w.sys.state.(phase := phase, buffer := buffer));
    assert Surviving(w.sound, w.sys.feeds) == w.sound by { hide Lawful, StateOk, WinInv, FeedsHome; }
    hide WorldOk;
    AsideKeepsWorld(w, sys');
  }

  lemma SyncingBuffer(J: seq<Change>, s: State, received: set<nat>)
    requires BufferOk(J, s, received)
    ensures BufferOk(J, s.(phase := Syncing), received)
  {
    hide EventOk;
  }

  lemma BufferAdded(J: seq<Change>, s: State, received: set<nat>, ev: Event, buffer: seq<Event>, phase: Phase)
    requires BufferOk(J, s, received) && EventOk(J, ev) && phase != Live_ && Increasing(buffer)
    requires Numbers(buffer) == Numbers(s.buffer) + {ev.pts} && forall e | e in buffer :: e in s.buffer || e == ev
    ensures BufferOk(J, s.(phase := phase, buffer := buffer), received + {ev.pts})
  {
    hide EventOk;
  }

  /** Nothing is claimed of an empty state, whatever feeds are left over. */
  lemma EmptyWorld(w: World)
    requires Lawful(w.J) && FeedsHome(w.J, w.sys.feeds)
    ensures WorldOk(World(w.J, map[], {}, Sys(EMPTY, w.sys.feeds)))
  {
    hide Lawful, FeedsHome;
  }

  lemma BufferAfterEvent(J: seq<Change>, s: State, s': State, received: set<nat>)
    requires BufferOk(J, s, received) && s'.buffer == s.buffer && PtsOf(s') >= PtsOf(s)
    requires s'.phase == Live_ ==> s.phase == Live_ && s'.pts.Some?
    ensures BufferOk(J, s', received)
  {
    hide EventOk;
  }

  lemma DrainedBuffer(J: seq<Change>, start: nat, first: seq<Event>, apply: seq<Event>, rest: seq<Event>, gap: bool, received: set<nat>)
    requires MaximalRun(start, first, Plan(apply, rest, gap)) && (forall e | e in first :: EventOk(J, e))
    requires forall n | n in received :: n <= start || n in Numbers(first)
    ensures Increasing(rest) && (forall e | e in rest :: EventOk(J, e)) && (gap || rest == [])
    ensures forall n | n in received :: n <= start + |apply| || n in Numbers(rest)
  {
    hide EventOk;
    forall n | n in received && n > start + |apply| ensures n in Numbers(rest) {
      var e :| e in first && e.pts == n;
      assert e in rest;
    }
  }

  /** The events of a plan are those of the buffer with the next numbers, in order. */
  lemma RunIsNext(J: seq<Change>, start: nat, first: seq<Event>, plan: Plan)
    requires MaximalRun(start, first, plan) && forall e | e in first :: EventOk(J, e)
    ensures forall i | 0 <= i < |plan.apply| :: EventOk(J, plan.apply[i]) && plan.apply[i].pts == start + 1 + i
  {
    hide EventOk;
    forall i | 0 <= i < |plan.apply| ensures plan.apply[i] in first { assert plan.apply[i] in plan.apply; }
  }

  lemma PlanIsMaximal(J: seq<Change>, s: State, received: set<nat>)
    requires BufferOk(J, s, received)
    ensures MaximalRun(PtsOf(s), s.buffer, DrainPlan(PtsOf(s), s.buffer)) && forall e | e in s.buffer :: EventOk(J, e)
  {
    hide EventOk, DrainPlan, MaximalRun;
    DrainPlanIsMaximal(PtsOf(s), s.buffer);
  }

  /** After the drain the buffer holds what was received beyond the position, and nothing if the store goes live. */
  lemma SettledBuffer(J: seq<Change>, s: State, s': State, received: set<nat>, plan: Plan)
    requires BufferOk(J, s, received) && MaximalRun(PtsOf(s), s.buffer, plan)
    requires s'.buffer == plan.rest && s'.pts == Some(PtsOf(s) + |plan.apply|) && (s'.phase == Live_ ==> !plan.gap)
    ensures BufferOk(J, s', received)
  {
    hide EventOk;
    DrainedBuffer(J, PtsOf(s), s.buffer, plan.apply, plan.rest, plan.gap, received);
    hide MaximalRun;
  }

  // ----- loops over a reply -----

  method TakeStandingsByLoop(sys: Sys, sts: seq<Standing>, P: nat) returns (t: Sys)
    ensures t == TakeStandings(sys, sts, P)
  {
    hide Perform;
    t := sys;
    var i := 0;
    while i < |sts|
      invariant 0 <= i <= |sts| && t == TakeStandings(sys, sts[..i], P)
    {
      assert sts[..i + 1][..i] == sts[..i];
      t := Perform(t, StandingIn(sts[i], P));
      i := i + 1;
    }
    assert sts[..i] == sts;
  }

  method TakeMessagesByLoop(sys: Sys, ms: seq<Delivered>, P: nat) returns (t: Sys)
    ensures t == TakeMessages(sys, ms, P)
  {
    hide Perform;
    t := sys;
    var i := 0;
    while i < |ms|
      invariant 0 <= i <= |ms| && t == TakeMessages(sys, ms[..i], P)
    {
      assert ms[..i + 1][..i] == ms[..i];
      t := Perform(t, MessageIn(ms[i], P));
      i := i + 1;
    }
    assert ms[..i] == ms;
  }

  method TakePinsByLoop(s: State, ls: seq<ListOf>, P: nat) returns (t: State)
    ensures t == TakePins(s, ls, P)
  {
    hide Newest;
    t := s;
    var i := 0;
    while i < |ls|
      invariant 0 <= i <= |ls| && t == TakePins(s, ls[..i], P)
    {
      assert ls[..i + 1][..i] == ls[..i];
      if ls[i].c in t.summaries { t := ApplyPins(t, ls[i].c, ls[i].list, P); }
      i := i + 1;
    }
    assert ls[..i] == ls;
  }

  method TakeScheduledByLoop(s: State, ls: seq<ListOf>, P: nat) returns (t: State)
    ensures t == TakeScheduled(s, ls, P)
  {
    hide Newest;
    t := s;
    var i := 0;
    while i < |ls|
      invariant 0 <= i <= |ls| && t == TakeScheduled(s, ls[..i], P)
    {
      assert ls[..i + 1][..i] == ls[..i];
      if ls[i].c in t.summaries { t := ApplyScheduled(t, ls[i].c, ls[i].list, P); }
      i := i + 1;
    }
    assert ls[..i] == ls;
  }

  method TakeSyncByLoop(sys: Sys, reply: SyncReply) returns (t: Sys)
    ensures t == TakeSync(sys, reply)
  {
    hide TakeStandings, TakeMessages, TakePins, TakeScheduled;
    t := TakeStandingsByLoop(sys, reply.conversations, reply.pts);
    t := TakeMessagesByLoop(t, reply.messages, reply.pts);
    var s := TakePinsByLoop(t.state, reply.pins, reply.pts);
    s := TakeScheduledByLoop(s, reply.scheduled, reply.pts);
    t := Sys(s.(pts := Some(Max(PtsOf(s), reply.pts))), t.feeds);
  }

  method LoadByLoop(sys: Sys, c: Id, page: Page, kind: PageKind, windowed: bool) returns (t: Sys)
    ensures t == AfterLoad(sys, c, page, kind, windowed)
  {
    var r := SyncLoops.ApplyPageByLoop(sys.state, FeedOf(sys.feeds, c), c, page, kind);
    hide ApplyPage, TrimWindow;
    t := WithMerged(sys, c, r);
    if windowed && kind != Jump && c in t.feeds {
      var cut := TrimPlan(|t.feeds[c]|, kind);
      if cut.Some? {
        r := SyncLoops.TrimWindowByLoop(t.state, t.feeds[c], c, cut.value.side, cut.value.count);
        t := WithMerged(t, c, r);
      }
    }
  }

  // ----- own sends, records -----

  lemma RemovedShows(sys: Sys, c: Id, id: Id)
    ensures var t := Perform(sys, RemovedIn(c, id));
      t.state == sys.state.(gone := sys.state.gone + {id}) && t.feeds.Keys == sys.feeds.Keys &&
      (forall k | k in t.feeds && k != c :: t.feeds[k] == sys.feeds[k]) &&
      (c in t.feeds ==> forall x :: x in t.feeds[c] <==> x in sys.feeds[c] && x.id != id)
  {
  }

  /** An own message lifts its conversation in the list until the event arrives. */
  function Lifted(s: State, c: Id, at: int): State {
    if c in s.summaries && at > s.summaries[c].lastMessageAt then
      s.(summaries := s.summaries[c := s.summaries[c].(lastMessageAt := at)])
    else s
  }

  ghost function AfterSendWorld(w: World, m: Msg, at: int): World {
    var t := AfterSent(w, m);
    t.(sys := t.sys.(state := Lifted(t.sys.state, m.conv, at)))
  }

  lemma SendKeepsWorld(w: World, m: Msg, at: int)
    requires WorldOk(w) && SentOk(w.J, m)
    ensures WorldOk(AfterSendWorld(w, m, at))
  {
    SentKeepsWorld(w, m);
    var t := AfterSent(w, m);
    hide AfterSent;
    var sys' := t.sys.(state := Lifted(t.sys.state, m.conv, at));
    assert Surviving(t.sound, t.sys.feeds) == t.sound by { hide Lawful, StateOk, WinInv, FeedsHome; }
    hide WorldOk;
    AsideKeepsWorld(t, sys');
  }

  lemma SendSummaries(sys: Sys, m: Msg, at: int)
    ensures var s, t := sys.state, Lifted(Perform(sys, SentIn(m)).state, m.conv, at);
      t.summaryPts == s.summaryPts &&
      (t.summaries == s.summaries || (m.conv in s.summaries && m.conv in t.summaries &&
        LiftOf(t.summaries[m.conv], s.summaries[m.conv]) && t.summaries == s.summaries[m.conv := t.summaries[m.conv]]))
  {
    SentShape(sys.state, FeedOf(sys.feeds, m.conv), m);
    hide ApplySent;
  }

  lemma SendWorldIs(w: World, m: Msg, at: int)
    ensures var next, r := AfterSendWorld(w, m, at), ApplySent(w.sys.state, FeedOf(w.sys.feeds, m.conv), m);
      next.J == w.J && next.sys == Sys(Lifted(r.state, m.conv, at), WithFeed(w.sys.feeds, m.conv, r.list))
  {
    hide ApplySent, Account, BaseOf, Lifted;
  }

  lemma BufferAfterSend(J: seq<Change>, s: State, s': State, received: set<nat>)
    requires BufferOk(J, s, received) && s'.buffer == s.buffer && s'.pts == s.pts && s'.phase == s.phase
    ensures BufferOk(J, s', received)
  {
    hide EventOk;
  }

  lemma LiftedIs(s: State, c: Id, at: int)
    ensures var t := Lifted(s, c, at);
      t.summaries.Keys == s.summaries.Keys && t.summaryPts == s.summaryPts &&
      forall id | id in t.summaries ::
        t.summaries[id] == if id == c && at > s.summaries[id].lastMessageAt then s.summaries[id].(lastMessageAt := at) else s.summaries[id]
  {
  }

  lemma SendLifts(w: World, m: Msg, at: int)
    ensures var s, t := w.sys.state, AfterSendWorld(w, m, at).sys.state;
      t.summaries.Keys == s.summaries.Keys && t.summaryPts == s.summaryPts &&
      forall id | id in t.summaries ::
        t.summaries[id] == if id == m.conv && at > s.summaries[id].lastMessageAt then s.summaries[id].(lastMessageAt := at) else s.summaries[id]
  {
    var u := Perform(w.sys, SentIn(m));
    SentShape(w.sys.state, FeedOf(w.sys.feeds, m.conv), m);
    assert u.state.summaries == w.sys.state.summaries && u.state.summaryPts == w.sys.state.summaryPts by { hide ApplySent; }
    assert AfterSent(w, m).sys == u by { hide Perform, Account, BaseOf; }
    hide Perform, AfterSent, Lifted;
    LiftedIs(u.state, m.conv, at);
  }

  lemma SendShape(sys: Sys, m: Msg, at: int)
    ensures var t := Lifted(Perform(sys, SentIn(m)).state, m.conv, at);
      t.pts == sys.state.pts && t.buffer == sys.state.buffer && t.phase == sys.state.phase
  {
    SentShape(sys.state, FeedOf(sys.feeds, m.conv), m);
    hide ApplySent;
  }

  /** A record whose windows meet every claim, for the conversations in `good`. */
  ghost predicate RecordOk(J: seq<Change>, r: Cache.Record, good: set<Id>) {
    r.pts >= 0 && WorldOk(World(J, Cache.AllTo(r.messages.Keys, UpTo(r.pts)), good, Cache.HydrateState(r)))
  }

  function Hydrated(sys: Sys, r: Cache.Record): Sys
    requires r.pts >= 0
  {
    Sys(Cache.HydrateState(r).state, sys.feeds + Cache.HydrateState(r).feeds)
  }

  lemma HydratedParts(sys: Sys, r: Cache.Record)
    requires r.pts >= 0
    ensures var h, t := Cache.HydrateState(r), Hydrated(sys, r);
      t.state == h.state && t.feeds.Keys == sys.feeds.Keys + h.feeds.Keys && (forall c | c in h.feeds :: t.feeds[c] == h.feeds[c]) &&
      forall c | c in t.feeds && c !in h.feeds :: t.feeds[c] == sys.feeds[c]
  {
    hide Cache.HydrateState;
  }

  /** A record lands on a store that has no list yet; feeds opened meanwhile and not in the record stay without a window. */
  ghost function AfterRecord(w: World, r: Cache.Record, good: set<Id>): World
    requires r.pts >= 0
  {
    World(w.J, Cache.AllTo(r.messages.Keys, UpTo(r.pts)), good, Hydrated(w.sys, r))
  }

  lemma RecordKeepsWorld(w: World, r: Cache.Record, good: set<Id>)
    requires WorldOk(w) && RecordOk(w.J, r, good)
    ensures WorldOk(AfterRecord(w, r, good))
  {
    hide Cache.HydrateState, WinInv, Lawful, StateOk, AllHome, Cache.AllTo;
  }
}
