/** A client and the server's journal side by side: every merge keeps every window right, over whole runs. */
module Client {
  import opened Feed
  import opened SyncRules
  import opened FeedSafety
  import opened Journal
  import opened Windows
  import opened WindowRules
  import opened PageMerge

  /**
   * `sound` are the conversations whose windows are claimed right; a merge that misses one of its conditions takes its
   * conversation out of the claim.
   */
  datatype World = World(J: seq<Change>, known: map<Id, set<nat>>, sound: set<Id>, sys: Sys)

  ghost predicate WorldOk(w: World) {
    Lawful(w.J) && StateOk(w.J, w.sys.state) && FeedsHome(w.J, w.sys.feeds) && Keyed(w.sys.state.summaries) &&
    forall c | c in w.sound :: c in w.known && c in w.sys.feeds && WinInv(w.J, w.known[c], w.sys.state, w.sys.feeds[c], c)
  }

  /** The message was born in this conversation. */
  ghost predicate AtHome(J: seq<Change>, c: Id, id: Id) {
    exists n :: BornAt(J, id, n) && BirthMsg(J, n).conv == c
  }

  /** A feed whose messages sit where they were born: every feed of a client, right or not. */
  ghost predicate AllHome(J: seq<Change>, c: Id, list: seq<Msg>) {
    FeedOk(list) && AllPlaced(J, c, list)
  }

  /** Each summary sits under its own id. */
  ghost predicate Keyed(summaries: map<Id, Summary>) {
    forall id | id in summaries :: summaries[id].id == id
  }

  ghost predicate FeedsHome(J: seq<Change>, feeds: Feeds) {
    forall c | c in feeds :: AllHome(J, c, feeds[c])
  }

  /** Every listed message of a sound conversation is placed where it was born. */
  lemma SoundIsPlaced(w: World, c: Id)
    requires WorldOk(w) && c in w.sound
    ensures AllPlaced(w.J, c, w.sys.feeds[c])
  {
    assert WinInv(w.J, w.known[c], w.sys.state, w.sys.feeds[c], c);
    hide WorldOk, HolesPart, RemnantPart, KnownPart, StampPart;
    ListIsPlaced(w.J, w.sys.state, w.sys.feeds[c], c);
  }

  /** A step that touches the numbers of one conversation only. */
  ghost predicate OnlyAbout(J: seq<Change>, s: State, s': State, c: Id, ids: set<Id>) {
    PtsOf(s') == PtsOf(s) && s'.summaries == s.summaries &&
    (forall k | k in s.windows && k != c :: k in s'.windows && s'.windows[k] == s.windows[k]) &&
    (forall id | id !in ids :: (id in s'.msgPts <==> id in s.msgPts) && (id in s.msgPts ==> s'.msgPts[id] == s.msgPts[id])) &&
    s.gone <= s'.gone && (forall id | id in s'.gone && id !in s.gone :: id in ids) &&
    (forall n, id | BornAt(J, id, n) && id in ids :: BirthMsg(J, n).conv == c)
  }

  lemma AboutOther(J: seq<Change>, known: set<nat>, s: State, s': State, list: seq<Msg>, c: Id, k: Id, ids: set<Id>)
    requires Lawful(J) && OnlyAbout(J, s, s', c, ids) && k != c && WinInv(J, known, s, list, k)
    ensures WinInv(J, known, s', list, k)
  {
    ListIsPlaced(J, s, list, k);
    hide Lawful, FreshPart, StampPart, HolesPart, RemnantPart, KnownPart, FeedOk, Rank;
    assert SameFor(J, s, s', list, k) by {
      forall x | x in list ensures x.id !in ids {
        assert Placed(J, k, x);
      }
    }
    hide WinInv, SameFor;
    OtherConversation(J, known, s, s', list, k);
  }

  /** One conversation changes as its own lemma says, the others do not notice. */
  lemma OneConversation(w: World, c: Id, ids: set<Id>, s': State, list': Option<seq<Msg>>, known': map<Id, set<nat>>, sound': set<Id>)
    requires WorldOk(w) && OnlyAbout(w.J, w.sys.state, s', c, ids) && StateOk(w.J, s')
    requires sound' <= w.sound + {c} && w.known.Keys <= known'.Keys
    requires forall k | k in w.known && k != c :: known'[k] == w.known[k]
    requires c in sound' ==> list'.Some? && c in known' && WinInv(w.J, known'[c], s', list'.value, c)
    requires list'.Some? ==> AllHome(w.J, c, list'.value)
    ensures WorldOk(World(w.J, known', sound', Sys(s', WithFeed(w.sys.feeds, c, list'))))
  {
    assert s'.summaries == w.sys.state.summaries;
    hide WinInv, OnlyAbout, StateOk, Lawful, AllHome, Keyed;
    forall k | k in sound' && k != c
      ensures k in known' && k in w.sys.feeds && WinInv(w.J, known'[k], s', w.sys.feeds[k], k)
    {
      AboutOther(w.J, w.known[k], w.sys.state, s', w.sys.feeds[k], c, k, ids);
    }
  }

  function KnownPlus(known: map<Id, set<nat>>, c: Id, n: nat): map<Id, set<nat>> {
    if c in known then known[c := known[c] + {n}] else known
  }

  // ----- one message -----

  ghost predicate MessageOk(J: seq<Change>, d: Delivered, P: nat, n: nat) {
    DeliveredOk(J, d, P) && BornAt(J, DeliveredId(d), n) && n <= P && BirthMsg(J, n).conv == DeliveredConv(d)
  }

  /** The only ways a delivered message changes the state. */
  lemma MessageState(s: State, list: Option<seq<Msg>>, d: Delivered, P: nat)
    ensures var s' := ApplyMessage(s, list, d, P).state;
      s' == s || (d.Tomb? && s' == s.(gone := s.gone + {d.id})) || (d.Live? && s' == s.(msgPts := s.msgPts[d.m.id := P]))
  {
    hide Sort, Filter, IndexOf, InsideWindow;
  }

  lemma MessageTouchesOne(J: seq<Change>, s: State, list: Option<seq<Msg>>, d: Delivered, P: nat, n: nat)
    requires Lawful(J) && StateOk(J, s) && MessageOk(J, d, P, n)
    ensures var r := ApplyMessage(s, list, d, P);
      StateOk(J, r.state) && OnlyAbout(J, s, r.state, DeliveredConv(d), {DeliveredId(d)})
  {
    hide Lawful, ViewAt, ApplyMessage, DeliveredOk, Shown;
    var id := DeliveredId(d);
    if d.Tomb? { TombErased(J, d, P); }
    DeliveredBound(J, d, P);
    forall k | BornAt(J, id, k) ensures k == n { BirthUnique(J, id, k, n); }
    MessageState(s, list, d, P);
    hide BornAt;
  }

  lemma DeliveredBound(J: seq<Change>, d: Delivered, P: nat)
    requires DeliveredOk(J, d, P)
    ensures P <= |J|
  {
    hide Shown;
  }

  lemma MessageMembers(s: State, list: Option<seq<Msg>>, d: Delivered, P: nat)
    ensures var r := ApplyMessage(s, list, d, P);
      r.list.Some? == list.Some? &&
      (list.Some? ==> forall x | x in r.list.value :: x in list.value || x.id == DeliveredId(d))
  {
    hide Sort, Filter, IndexOf, InsideWindow;
  }

  lemma MessageHome(J: seq<Change>, s: State, list: seq<Msg>, d: Delivered, P: nat)
    requires Lawful(J) && AllHome(J, DeliveredConv(d), list) && DeliveredOk(J, d, P)
    ensures var r := ApplyMessage(s, Some(list), d, P); r.list.Some? && AllHome(J, DeliveredConv(d), r.list.value)
  {
    if d.Live? {
      LiveFresh(J, d.m, P);
      hide Lawful, Fresh, DeliveredOk, ApplyMessage, AllHome;
      FreshIsPlaced(J, d.m, P);
      LiveHome(J, s, list, d.m, P);
    } else {
      hide Lawful, DeliveredOk, Placed, Before, Sorted, UniqueIds;
      FilterKeepsFeed(list, (x: Msg) => x.id != d.id);
      hide IndexOf, Filter;
    }
  }

  lemma LiveHome(J: seq<Change>, s: State, list: seq<Msg>, m: Msg, P: nat)
    requires AllHome(J, m.conv, list) && Placed(J, m.conv, m)
    ensures var r := ApplyMessage(s, Some(list), Live(m), P); r.list.Some? && AllHome(J, m.conv, r.list.value)
  {
    hide Sort, Before, InsideWindow, Placed, Sorted, UniqueIds;
    var k := IndexOf(list, m.id);
    if k >= 0 {
      assert list[k] in list && list[k].id == m.id;
      PlacedSameKey(J, m.conv, list[k], m);
      ReplaceKeepsFeed(list, k, m);
    } else {
      AppendSortKeepsFeed(list, m);
    }
    hide IndexOf, FeedOk;
  }

  lemma MessageKeepsWorld(w: World, d: Delivered, P: nat, n: nat)
    requires WorldOk(w) && MessageOk(w.J, d, P, n) && PtsOf(w.sys.state) <= P
    ensures var c := DeliveredConv(d);
      WorldOk(World(w.J, KnownPlus(w.known, c, n), w.sound, Perform(w.sys, MessageIn(d, P))))
  {
    var c, s := DeliveredConv(d), w.sys.state;
    var list := FeedOf(w.sys.feeds, c);
    var r := ApplyMessage(s, list, d, P);
    MessageTouchesOne(w.J, s, list, d, P, n);
    MessageMembers(s, list, d, P);
    assert list.Some? ==> r.list.Some? && AllHome(w.J, c, r.list.value) by {
      hide WinInv, StateOk, ApplyMessage, AllHome, FeedsHome, MessageOk;
      if list.Some? { MessageHome(w.J, s, list.value, d, P); }
    }
    MessageGone(s, list, d, P);
    hide ApplyMessage, OnlyAbout, WinInv, StateOk, Lawful, DeliveredOk, AllHome;
    if c in w.sound {
      DeliverKeepsWindow(w.J, w.known[c], s, w.sys.feeds[c], d, P, n);
    }
    OneConversation(w, c, {DeliveredId(d)}, r.state, r.list, KnownPlus(w.known, c, n), w.sound);
  }

  /** What a view does to the feed and the numbers of its own conversation. */
  lemma OwnStamps(s: State, list: seq<Msg>, d: Delivered, P: nat)
    requires DeliveredConv(d) in s.windows && forall x | x in list :: x.id !in s.gone
    ensures var r := ApplyMessage(s, Some(list), d, P);
      r.list.Some? && DeliveredConv(d) in r.state.windows &&
      (forall x | x in r.list.value && x.id == DeliveredId(d) :: P <= TagOf(r.state, x.id)) &&
      (forall x | x in r.list.value && x.id != DeliveredId(d) :: x in list && TagOf(r.state, x.id) == TagOf(s, x.id))
  {
    if d.Live? { LiveStamps(s, list, d.m, P); } else { TombStamps(s, list, d, P); }
    hide ApplyMessage, TagOf;
  }

  lemma TombStamps(s: State, list: seq<Msg>, d: Delivered, P: nat)
    requires d.Tomb? && DeliveredConv(d) in s.windows
    ensures var r := ApplyMessage(s, Some(list), d, P);
      r.list.Some? && DeliveredConv(d) in r.state.windows && (forall x | x in r.list.value :: x in list && x.id != d.id) &&
      forall x: Msg :: TagOf(r.state, x.id) == TagOf(s, x.id)
  {
    hide Filter, IndexOf;
    if IndexOf(list, d.id) < 0 { assert forall x | x in list :: x.id in Ids(list); }
  }

  lemma LiveStamps(s: State, list: seq<Msg>, m: Msg, P: nat)
    requires m.conv in s.windows && forall x | x in list :: x.id !in s.gone
    ensures var r := ApplyMessage(s, Some(list), Live(m), P);
      r.list.Some? && m.conv in r.state.windows &&
      (forall x | x in r.list.value && x.id == m.id :: P <= TagOf(r.state, x.id)) &&
      (forall x | x in r.list.value && x.id != m.id :: x in list && TagOf(r.state, x.id) == TagOf(s, x.id))
  {
    hide Sort, InsideWindow, Before;
    var k := IndexOf(list, m.id);
    if k >= 0 {
      forall x: Msg | x in list[k := m] && x.id != m.id ensures x in list {
        var i :| 0 <= i < |list| && list[k := m][i] == x;
      }
    } else {
      assert forall x | x in list :: x.id in Ids(list);
    }
    hide IndexOf;
  }

  /** After a view is taken: a listed message carries at least its number, and no other message's number changed. */
  lemma MessageStamps(sys: Sys, d: Delivered, P: nat, c: Id)
    requires c in sys.feeds && c in sys.state.windows && (c == DeliveredConv(d) || DeliveredId(d) !in Ids(sys.feeds[c]))
    requires forall x | x in sys.feeds[c] :: x.id !in sys.state.gone
    ensures var t := Perform(sys, MessageIn(d, P));
      c in t.feeds && c in t.state.windows &&
      (forall x | x in t.feeds[c] && x.id == DeliveredId(d) :: P <= TagOf(t.state, x.id)) &&
      (forall x | x in t.feeds[c] && x.id != DeliveredId(d) :: x in sys.feeds[c] && TagOf(t.state, x.id) == TagOf(sys.state, x.id))
  {
    if DeliveredConv(d) == c {
      OwnStamps(sys.state, sys.feeds[c], d, P);
      hide ApplyMessage, TagOf;
    } else {
      MessageState(sys.state, FeedOf(sys.feeds, DeliveredConv(d)), d, P);
      MessageGone(sys.state, FeedOf(sys.feeds, DeliveredConv(d)), d, P);
      hide ApplyMessage;
    }
  }

  // ----- standings, pins, the journal position -----

  function Surviving(sound: set<Id>, feeds: Feeds): set<Id> {
    set c | c in sound && c in feeds
  }

  /** Changes that no window reads: summaries, pins, scheduled lists, the buffer, the phase; windows may go with feeds. */
  ghost predicate OnlyAside(s: State, s': State, feeds: Feeds, feeds': Feeds) {
    PtsOf(s') == PtsOf(s) && s'.msgPts == s.msgPts && s'.gone == s.gone &&
    (forall c | c in feeds' :: c in feeds && feeds'[c] == feeds[c] && (c in s.windows ==> c in s'.windows && s'.windows[c] == s.windows[c]))
  }

  lemma AsideKeepsWorld(w: World, sys': Sys)
    requires WorldOk(w) && OnlyAside(w.sys.state, sys'.state, w.sys.feeds, sys'.feeds) && Keyed(sys'.state.summaries)
    ensures WorldOk(World(w.J, w.known, Surviving(w.sound, sys'.feeds), sys'))
  {
    hide Lawful, ViewAt;
    forall c | c in Surviving(w.sound, sys'.feeds)
      ensures WinInv(w.J, w.known[c], sys'.state, sys'.feeds[c], c)
    {
      assert WinInv(w.J, w.known[c], w.sys.state, w.sys.feeds[c], c);
      assert SameFor(w.J, w.sys.state, sys'.state, w.sys.feeds[c], c) by {
        assert FeedPart(w.sys.state, w.sys.feeds[c], c);
      }
      hide WinInv, SameFor;
      OtherConversation(w.J, w.known[c], w.sys.state, sys'.state, w.sys.feeds[c], c);
    }
  }

  lemma StandingIsAside(sys: Sys, st: Standing, P: nat)
    ensures var t := Perform(sys, StandingIn(st, P));
      OnlyAside(sys.state, t.state, sys.feeds, t.feeds) && t.state.pts == sys.state.pts &&
      t.state.buffer == sys.state.buffer && t.state.phase == sys.state.phase
  {
  }

  lemma StandingKeepsKeyed(s: State, st: Standing, P: nat)
    requires Keyed(s.summaries)
    ensures Keyed(ApplySummary(s, st, P).state.summaries)
  {
  }

  lemma StandingKeepsWorld(w: World, st: Standing, P: nat)
    requires WorldOk(w)
    ensures var t := Perform(w.sys, StandingIn(st, P)); WorldOk(World(w.J, w.known, Surviving(w.sound, t.feeds), t))
  {
    StandingIsAside(w.sys, st, P);
    StandingKeepsKeyed(w.sys.state, st, P);
    assert Keyed(Perform(w.sys, StandingIn(st, P)).state.summaries) by { hide Keyed, ApplySummary; }
    hide WorldOk, Perform, Surviving, OnlyAside, Keyed;
    AsideKeepsWorld(w, Perform(w.sys, StandingIn(st, P)));
  }

  /** A window may as well know numbers that are no births of its conversation, or births it knows already. */
  lemma WidenKnown(J: seq<Change>, known: set<nat>, extra: set<nat>, s: State, list: seq<Msg>, c: Id)
    requires WinInv(J, known, s, list, c) && (forall n | n in extra :: 1 <= n <= |J|)
    requires forall n | n in extra && BirthIn(J, n, c) :: n in known
    ensures WinInv(J, known + extra, s, list, c)
  {
    hide Lasting, InsideWindow, FeedPart, FreshPart, StampPart;
  }

  function KnownAll(known: map<Id, set<nat>>, extra: set<nat>): map<Id, set<nat>> {
    map c | c in known :: known[c] + extra
  }

  /** Everything in `(pts, P]` is absorbed by this window. */
  ghost predicate Absorbed(J: seq<Change>, known: set<nat>, s: State, list: seq<Msg>, c: Id, P: nat) {
    (forall x, n: nat | x in list && PtsOf(s) < n <= P && Touches(J, n, x.id) :: n <= TagOf(s, x.id)) &&
    (forall n: nat | PtsOf(s) < n <= P && BirthIn(J, n, c) :: n in known)
  }

  lemma AbsorbedWindow(J: seq<Change>, known: set<nat>, s: State, list: seq<Msg>, c: Id, P: nat)
    requires StateOk(J, s) && WinInv(J, known, s, list, c) && PtsOf(s) <= P <= |J| && Absorbed(J, known, s, list, c, P)
    ensures StateOk(J, s.(pts := Some(P))) && WinInv(J, known + UpTo(P), s.(pts := Some(P)), list, c)
  {
    assert forall n: nat | 1 <= n <= P && BirthIn(J, n, c) :: n in known by {
      assert KnownPart(J, known, s, s.windows[c]);
    }
    hide StateOk, Touches;
    WidenKnown(J, known, UpTo(P), s, list, c);
    hide WinInv;
    PositionKeepsWindow(J, known + UpTo(P), s, list, c, P);
  }

  lemma PositionKeepsWorld(w: World, P: nat)
    requires WorldOk(w) && PtsOf(w.sys.state) <= P <= |w.J|
    requires forall c | c in w.sound :: Absorbed(w.J, w.known[c], w.sys.state, w.sys.feeds[c], c, P)
    ensures WorldOk(World(w.J, KnownAll(w.known, UpTo(P)), w.sound, w.sys.(state := w.sys.state.(pts := Some(P)))))
  {
    hide Lawful, WinInv, Absorbed, ViewAt;
    var s := w.sys.state;
    forall c | c in w.sound
      ensures WinInv(w.J, w.known[c] + UpTo(P), s.(pts := Some(P)), w.sys.feeds[c], c)
    {
      hide StateOk;
      AbsorbedWindow(w.J, w.known[c], s, w.sys.feeds[c], c, P);
    }
  }

  // ----- one numbered event -----

  /** What the store does with an event whose number follows its position. */
  function TakeEvent(sys: Sys, ev: Event): Sys {
    var t1 := Perform(sys, StandingIn(ev.standing, ev.pts));
    var t2 := if ev.message.Some? then Perform(t1, MessageIn(ev.message.value, ev.pts)) else t1;
    var c := StandingId(ev.standing);
    var s3 := if ev.pins.Some? && ev.standing.Present? then ApplyPins(t2.state, c, ev.pins.value, ev.pts) else t2.state;
    var s4 := if ev.scheduled.Some? && ev.standing.Present? then ApplyScheduled(s3, c, ev.scheduled.value, ev.pts) else s3;
    Sys(s4.(pts := Some(ev.pts)), t2.feeds)
  }

  /** The server's event number `ev.pts`: the change of that number, in a view assembled when it was sent or later. */
  ghost predicate EventOk(J: seq<Change>, ev: Event) {
    1 <= ev.pts <= |J| &&
    match ev.message
    case None => J[ev.pts - 1].OtherChange?
    case Some(d) => MessageOk(J, d, ev.pts, Rank(J, DeliveredId(d))) && Touches(J, ev.pts, DeliveredId(d))
  }

  ghost function KnownAfterEvent(J: seq<Change>, known: map<Id, set<nat>>, ev: Event): map<Id, set<nat>> {
    KnownAll(match ev.message
             case None => known
             case Some(d) => KnownPlus(known, DeliveredConv(d), Rank(J, DeliveredId(d))), UpTo(ev.pts))
  }

  ghost function AfterEvent(w: World, ev: Event): World {
    var t := TakeEvent(w.sys, ev);
    World(w.J, KnownAfterEvent(w.J, w.known, ev), Surviving(w.sound, t.feeds), t)
  }

  /** Only one message is touched by one change. */
  lemma TouchesOne(J: seq<Change>, n: nat, a: Id, b: Id)
    requires Touches(J, n, a) && Touches(J, n, b)
    ensures a == b
  {
  }

  lemma EventAbsorbed(w: World, d: Delivered, P: nat, c: Id)
    requires WorldOk(w) && c in w.sound && PtsOf(w.sys.state) + 1 == P && Touches(w.J, P, DeliveredId(d))
    requires MessageOk(w.J, d, P, Rank(w.J, DeliveredId(d)))
    requires forall x | x in w.sys.feeds[c] && x.id == DeliveredId(d) :: P <= TagOf(w.sys.state, x.id)
    requires c == DeliveredConv(d) ==> Rank(w.J, DeliveredId(d)) in w.known[c]
    ensures Absorbed(w.J, w.known[c], w.sys.state, w.sys.feeds[c], c, P)
  {
    assert c in w.sys.feeds && c in w.known;
    if BirthIn(w.J, P, c) { BirthUnique(w.J, DeliveredId(d), P, Rank(w.J, DeliveredId(d))); }
    hide WorldOk, Rank;
    forall x, n: nat | x in w.sys.feeds[c] && PtsOf(w.sys.state) < n <= P && Touches(w.J, n, x.id)
      ensures n <= TagOf(w.sys.state, x.id)
    {
      TouchesOne(w.J, n, x.id, DeliveredId(d));
    }
  }

  lemma QuietAbsorbed(w: World, P: nat, c: Id)
    requires WorldOk(w) && c in w.sound && PtsOf(w.sys.state) + 1 == P <= |w.J| && w.J[P - 1].OtherChange?
    ensures Absorbed(w.J, w.known[c], w.sys.state, w.sys.feeds[c], c, P)
  {
    assert c in w.sys.feeds && c in w.known;
    hide WorldOk;
  }

  /** In a sound conversation other than its own, an id is not listed. */
  lemma NotElsewhere(w: World, c: Id, id: Id, n: nat)
    requires WorldOk(w) && c in w.sound && BornAt(w.J, id, n) && BirthMsg(w.J, n).conv != c
    ensures id !in Ids(w.sys.feeds[c])
  {
    SoundIsPlaced(w, c);
    hide WinInv, StateOk;
    forall x | x in w.sys.feeds[c] ensures x.id != id {
      if x.id == id { BirthUnique(w.J, id, n, Rank(w.J, x.id)); }
    }
  }

  lemma StampsInWorld(w: World, d: Delivered, P: nat, c: Id, n: nat)
    requires WorldOk(w) && c in w.sound && MessageOk(w.J, d, P, n)
    ensures var t := Perform(w.sys, MessageIn(d, P));
      c in t.feeds &&
      (forall x | x in t.feeds[c] && x.id == DeliveredId(d) :: P <= TagOf(t.state, x.id)) &&
      (forall x | x in t.feeds[c] && x.id != DeliveredId(d) :: x in w.sys.feeds[c] && TagOf(t.state, x.id) == TagOf(w.sys.state, x.id))
  {
    assert FeedPart(w.sys.state, w.sys.feeds[c], c) && c in w.sys.state.windows by {
      assert WinInv(w.J, w.known[c], w.sys.state, w.sys.feeds[c], c);
      hide StateOk, FeedPart, FreshPart, StampPart, HolesPart, RemnantPart, KnownPart;
    }
    if c != DeliveredConv(d) { NotElsewhere(w, c, DeliveredId(d), n); }
    hide WorldOk, Perform, Rank, DeliveredOk;
    MessageStamps(w.sys, d, P, c);
  }

  lemma EventMessage(w: World, d: Delivered, P: nat)
    requires WorldOk(w) && MessageOk(w.J, d, P, Rank(w.J, DeliveredId(d))) && Touches(w.J, P, DeliveredId(d))
    requires PtsOf(w.sys.state) + 1 == P
    ensures var n, t := Rank(w.J, DeliveredId(d)), Perform(w.sys, MessageIn(d, P));
      var w2 := World(w.J, KnownPlus(w.known, DeliveredConv(d), n), w.sound, t);
      WorldOk(w2) && PtsOf(t.state) == PtsOf(w.sys.state) && t.feeds.Keys == w.sys.feeds.Keys &&
      forall c | c in w.sound :: Absorbed(w2.J, w2.known[c], t.state, t.feeds[c], c, P)
  {
    var n, t := Rank(w.J, DeliveredId(d)), Perform(w.sys, MessageIn(d, P));
    var w2 := World(w.J, KnownPlus(w.known, DeliveredConv(d), n), w.sound, t);
    MessageKeepsWorld(w, d, P, n);
    MessageShape(w.sys, d, P);
    hide DeliveredOk, Perform, WinInv, Absorbed, Lawful, StateOk, Rank;
    forall c | c in w.sound ensures Absorbed(w2.J, w2.known[c], t.state, t.feeds[c], c, P) {
      StampsInWorld(w, d, P, c, n);
      assert c in w.known;
      hide WorldOk;
      EventAbsorbed(w2, d, P, c);
    }
  }

  lemma MessageShape(sys: Sys, d: Delivered, P: nat)
    ensures var t := Perform(sys, MessageIn(d, P));
      t.feeds.Keys == sys.feeds.Keys && t.state.pts == sys.state.pts && t.state.buffer == sys.state.buffer &&
      t.state.phase == sys.state.phase
  {
    MessageState(sys.state, FeedOf(sys.feeds, DeliveredConv(d)), d, P);
    MessageGone(sys.state, FeedOf(sys.feeds, DeliveredConv(d)), d, P);
    hide ApplyMessage;
  }

  /** The next event in number keeps every window right and moves the position by one. */
  lemma EventKeepsWorld(w: World, ev: Event)
    requires WorldOk(w) && EventOk(w.J, ev) && ev.pts == PtsOf(w.sys.state) + 1
    ensures WorldOk(AfterEvent(w, ev))
  {
    var t1 := Perform(w.sys, StandingIn(ev.standing, ev.pts));
    var w1 := World(w.J, w.known, Surviving(w.sound, t1.feeds), t1);
    StandingKeepsWorld(w, ev.standing, ev.pts);
    StandingIsAside(w.sys, ev.standing, ev.pts);
    var w2 := w1;
    hide WorldOk, WinInv, Perform, Absorbed, MessageOk, Touches;
    if ev.message.Some? {
      var d := ev.message.value;
      EventMessage(w1, d, ev.pts);
      w2 := World(w.J, KnownPlus(w.known, DeliveredConv(d), Rank(w.J, DeliveredId(d))), w1.sound,
                  Perform(t1, MessageIn(d, ev.pts)));
    } else {
      forall c | c in w1.sound ensures c in w1.known && c in w1.sys.feeds && Absorbed(w1.J, w1.known[c], t1.state, t1.feeds[c], c, ev.pts) {
        SoundHas(w1, c);
        QuietAbsorbed(w1, ev.pts, c);
      }
    }
    EventTail(w2, ev);
    assert Surviving(w.sound, w2.sys.feeds) == w2.sound;
  }

  lemma SoundHas(w: World, c: Id)
    requires WorldOk(w) && c in w.sound
    ensures c in w.known && c in w.sys.feeds
  {
  }

  /** Pins, scheduled lists and the number itself, once the message is taken. */
  lemma EventTail(w: World, ev: Event)
    requires WorldOk(w) && 1 <= ev.pts <= |w.J| && ev.pts == PtsOf(w.sys.state) + 1
    requires forall c | c in w.sound ::
      (c in w.known && c in w.sys.feeds && Absorbed(w.J, w.known[c], w.sys.state, w.sys.feeds[c], c, ev.pts))
    ensures var c := StandingId(ev.standing);
      var s3 := if ev.pins.Some? && ev.standing.Present? then ApplyPins(w.sys.state, c, ev.pins.value, ev.pts) else w.sys.state;
      var s4 := if ev.scheduled.Some? && ev.standing.Present? then ApplyScheduled(s3, c, ev.scheduled.value, ev.pts) else s3;
      WorldOk(World(w.J, KnownAll(w.known, UpTo(ev.pts)), w.sound, Sys(s4.(pts := Some(ev.pts)), w.sys.feeds)))
  {
    PositionKeepsWorld(w, ev.pts);
    var wp := World(w.J, KnownAll(w.known, UpTo(ev.pts)), w.sound, w.sys.(state := w.sys.state.(pts := Some(ev.pts))));
    var c := StandingId(ev.standing);
    var s3 := if ev.pins.Some? && ev.standing.Present? then ApplyPins(w.sys.state, c, ev.pins.value, ev.pts) else w.sys.state;
    var s4 := if ev.scheduled.Some? && ev.standing.Present? then ApplyScheduled(s3, c, ev.scheduled.value, ev.pts) else s3;
    var end := Sys(s4.(pts := Some(ev.pts)), w.sys.feeds);
    assert Surviving(w.sound, w.sys.feeds) == w.sound;
    hide WorldOk, Absorbed, Newest;
    AsideKeepsWorld(wp, end);
  }

  // ----- one catch-up reply -----

  datatype ListOf = ListOf(c: Id, list: seq<string>)

  datatype SyncReply = SyncReply(pts: nat, more: bool, conversations: seq<Standing>, messages: seq<Delivered>,
                                 pins: seq<ListOf>, scheduled: seq<ListOf>)

  function TakeStandings(sys: Sys, sts: seq<Standing>, P: nat): Sys {
    if sts == [] then sys else Perform(TakeStandings(sys, sts[..|sts| - 1], P), StandingIn(sts[|sts| - 1], P))
  }

  function TakeMessages(sys: Sys, ms: seq<Delivered>, P: nat): Sys {
    if ms == [] then sys else Perform(TakeMessages(sys, ms[..|ms| - 1], P), MessageIn(ms[|ms| - 1], P))
  }

  function TakePins(s: State, ls: seq<ListOf>, P: nat): State {
    if ls == [] then s
    else
      var t, l := TakePins(s, ls[..|ls| - 1], P), ls[|ls| - 1];
      if l.c in t.summaries then ApplyPins(t, l.c, l.list, P) else t
  }

  function TakeScheduled(s: State, ls: seq<ListOf>, P: nat): State {
    if ls == [] then s
    else
      var t, l := TakeScheduled(s, ls[..|ls| - 1], P), ls[|ls| - 1];
      if l.c in t.summaries then ApplyScheduled(t, l.c, l.list, P) else t
  }

  /** What the store does with one catch-up reply. */
  function TakeSync(sys: Sys, res: SyncReply): Sys {
    var t := TakeMessages(TakeStandings(sys, res.conversations, res.pts), res.messages, res.pts);
    var s := TakeScheduled(TakePins(t.state, res.pins, res.pts), res.scheduled, res.pts);
    Sys(s.(pts := Some(Max(PtsOf(s), res.pts))), t.feeds)
  }

  ghost predicate SyncMessageOk(J: seq<Change>, d: Delivered, P: nat) {
    MessageOk(J, d, P, Rank(J, DeliveredId(d)))
  }

  /** The reply covers `(since, res.pts]`: a current view of every message touched in between, and nothing older. */
  ghost predicate SyncOk(J: seq<Change>, since: nat, res: SyncReply) {
    since <= res.pts <= |J| &&
    (forall d | d in res.messages :: SyncMessageOk(J, d, res.pts)) &&
    (forall n: nat, id | since < n <= res.pts && Touches(J, n, id) :: exists d | d in res.messages :: DeliveredId(d) == id)
  }

  ghost function KnownAfterMessages(J: seq<Change>, known: map<Id, set<nat>>, ms: seq<Delivered>): map<Id, set<nat>> {
    if ms == [] then known
    else KnownPlus(KnownAfterMessages(J, known, ms[..|ms| - 1]), DeliveredConv(ms[|ms| - 1]), Rank(J, DeliveredId(ms[|ms| - 1])))
  }

  /** A batch of views with number `P` has been taken: their messages carry it and their births are known. */
  ghost predicate BatchDone(w: World, ms: seq<Delivered>, P: nat) {
    forall d, c | d in ms && c in w.sound && c in w.sys.feeds && c in w.known ::
      (forall x | x in w.sys.feeds[c] && x.id == DeliveredId(d) :: P <= TagOf(w.sys.state, x.id)) &&
      (c == DeliveredConv(d) ==> Rank(w.J, DeliveredId(d)) in w.known[c])
  }

  lemma BatchStep(w: World, t: seq<Delivered>, d: Delivered, P: nat)
    requires WorldOk(w) && BatchDone(w, t, P) && SyncMessageOk(w.J, d, P)
    ensures var n := Rank(w.J, DeliveredId(d));
      BatchDone(World(w.J, KnownPlus(w.known, DeliveredConv(d), n), w.sound, Perform(w.sys, MessageIn(d, P))), t + [d], P)
  {
    var n, sys' := Rank(w.J, DeliveredId(d)), Perform(w.sys, MessageIn(d, P));
    var w' := World(w.J, KnownPlus(w.known, DeliveredConv(d), n), w.sound, sys');
    hide Perform, Rank, DeliveredOk, MessageOk;
    forall e, c | e in t + [d] && c in w.sound && c in sys'.feeds && c in w'.known
      ensures forall x | x in sys'.feeds[c] && x.id == DeliveredId(e) :: P <= TagOf(sys'.state, x.id)
      ensures c == DeliveredConv(e) ==> Rank(w.J, DeliveredId(e)) in w'.known[c]
    {
      SoundHas(w, c);
      StampsInWorld(w, d, P, c, n);
      hide WorldOk;
    }
  }

  lemma {:induction false} MessagesKeepWorld(w: World, ms: seq<Delivered>, P: nat)
    requires WorldOk(w) && PtsOf(w.sys.state) <= P && forall d | d in ms :: SyncMessageOk(w.J, d, P)
    ensures var t := TakeMessages(w.sys, ms, P);
      var w' := World(w.J, KnownAfterMessages(w.J, w.known, ms), w.sound, t);
      WorldOk(w') && BatchDone(w', ms, P) && t.feeds.Keys == w.sys.feeds.Keys && t.state.pts == w.sys.state.pts &&
      t.state.buffer == w.sys.state.buffer && t.state.phase == w.sys.state.phase
  {
    hide WorldOk, Perform, Rank, DeliveredOk;
    if ms == [] {
      assert World(w.J, KnownAfterMessages(w.J, w.known, ms), w.sound, TakeMessages(w.sys, ms, P)) == w;
    } else {
      var t, d := ms[..|ms| - 1], ms[|ms| - 1];
      assert ms == t + [d] && d in ms && forall e | e in t :: e in ms;
      MessagesKeepWorld(w, t, P);
      var w1 := World(w.J, KnownAfterMessages(w.J, w.known, t), w.sound, TakeMessages(w.sys, t, P));
      BatchStep(w1, t, d, P);
      MessageShape(w1.sys, d, P);
      hide BatchDone;
      MessageKeepsWorld(w1, d, P, Rank(w.J, DeliveredId(d)));
    }
  }

  lemma {:induction false} StandingsKeepWorld(w: World, sts: seq<Standing>, P: nat)
    requires WorldOk(w)
    ensures var t := TakeStandings(w.sys, sts, P);
      WorldOk(World(w.J, w.known, Surviving(w.sound, t.feeds), t)) && t.feeds.Keys <= w.sys.feeds.Keys &&
      t.state.pts == w.sys.state.pts && t.state.buffer == w.sys.state.buffer && t.state.phase == w.sys.state.phase
  {
    hide Perform, WinInv, Lawful, StateOk;
    if sts == [] {
      assert Surviving(w.sound, w.sys.feeds) == w.sound;
    } else {
      var t := sts[..|sts| - 1];
      StandingsKeepWorld(w, t, P);
      var w1 := World(w.J, w.known, Surviving(w.sound, TakeStandings(w.sys, t, P).feeds), TakeStandings(w.sys, t, P));
      StandingKeepsWorld(w1, sts[|sts| - 1], P);
      StandingIsAside(w1.sys, sts[|sts| - 1], P);
      var t2 := TakeStandings(w.sys, sts, P);
      assert Surviving(w1.sound, t2.feeds) == Surviving(w.sound, t2.feeds);
    }
  }

  lemma {:induction false} ListsAreAside(s: State, ls: seq<ListOf>, P: nat)
    ensures var t := TakePins(s, ls, P);
      t.pts == s.pts && t.msgPts == s.msgPts && t.gone == s.gone && t.windows == s.windows && t.buffer == s.buffer && t.phase == s.phase &&
      t.summaries == s.summaries
    ensures var t := TakeScheduled(s, ls, P);
      t.pts == s.pts && t.msgPts == s.msgPts && t.gone == s.gone && t.windows == s.windows && t.buffer == s.buffer && t.phase == s.phase &&
      t.summaries == s.summaries
  {
    hide Newest;
    if ls != [] { ListsAreAside(s, ls[..|ls| - 1], P); }
  }

  /** A whole batch absorbs the numbers it covers. */
  lemma BatchAbsorbs(w: World, since: nat, res: SyncReply, c: Id)
    requires WorldOk(w) && SyncOk(w.J, since, res) && since <= PtsOf(w.sys.state) && BatchDone(w, res.messages, res.pts)
    requires c in w.sound
    ensures Absorbed(w.J, w.known[c], w.sys.state, w.sys.feeds[c], c, res.pts)
  {
    SoundHas(w, c);
    forall x, n: nat | x in w.sys.feeds[c] && PtsOf(w.sys.state) < n <= res.pts && Touches(w.J, n, x.id)
      ensures n <= TagOf(w.sys.state, x.id)
    {
      hide WorldOk, Touches;
      var d :| d in res.messages && DeliveredId(d) == x.id;
    }
    forall n: nat | PtsOf(w.sys.state) < n <= res.pts && BirthIn(w.J, n, c) ensures n in w.known[c] {
      var id := BirthMsg(w.J, n).id;
      assert Touches(w.J, n, id);
      var d :| d in res.messages && DeliveredId(d) == id;
      assert SyncMessageOk(w.J, d, res.pts);
      BirthUnique(w.J, id, n, Rank(w.J, id));
    }
  }

  ghost function AfterSync(w: World, res: SyncReply): World {
    var t := TakeSync(w.sys, res);
    World(w.J, KnownAll(KnownAfterMessages(w.J, w.known, res.messages), UpTo(Max(PtsOf(w.sys.state), res.pts))),
          Surviving(w.sound, t.feeds), t)
  }

  /** A catch-up reply that starts at or below the position keeps every window right and moves the position to its number. */
  lemma SyncKeepsWorld(w: World, since: nat, res: SyncReply)
    requires WorldOk(w) && SyncOk(w.J, since, res) && since <= PtsOf(w.sys.state) <= res.pts
    ensures WorldOk(AfterSync(w, res)) && PtsOf(TakeSync(w.sys, res).state) == res.pts
  {
    var P := res.pts;
    var t1 := TakeStandings(w.sys, res.conversations, P);
    var w1 := World(w.J, w.known, Surviving(w.sound, t1.feeds), t1);
    StandingsKeepWorld(w, res.conversations, P);
    var t2 := TakeMessages(t1, res.messages, P);
    var w2 := World(w.J, KnownAfterMessages(w.J, w.known, res.messages), w1.sound, t2);
    hide TakeStandings, TakeMessages, KnownAfterMessages, SyncMessageOk;
    MessagesKeepWorld(w1, res.messages, P);
    hide WinInv, Lawful, StateOk, Absorbed, Surviving;
    forall c | c in w2.sound ensures c in w2.known && c in t2.feeds && Absorbed(w2.J, w2.known[c], t2.state, t2.feeds[c], c, P) {
      SoundHas(w2, c);
      hide WorldOk;
      BatchAbsorbs(w2, since, res, c);
    }
    hide WorldOk, BatchDone, SyncOk;
    SyncTail(w2, res);
    SurvivingTwice(w.sound, t1.feeds, t2.feeds);
  }

  lemma SurvivingTwice(sound: set<Id>, a: Feeds, b: Feeds)
    requires a.Keys == b.Keys
    ensures Surviving(sound, a) == Surviving(sound, b)
  {
  }

  lemma SyncTail(w: World, res: SyncReply)
    requires WorldOk(w) && PtsOf(w.sys.state) <= res.pts <= |w.J|
    requires forall c | c in w.sound ::
      (c in w.known && c in w.sys.feeds && Absorbed(w.J, w.known[c], w.sys.state, w.sys.feeds[c], c, res.pts))
    ensures var s := TakeScheduled(TakePins(w.sys.state, res.pins, res.pts), res.scheduled, res.pts);
      WorldOk(World(w.J, KnownAll(w.known, UpTo(res.pts)), w.sound, Sys(s.(pts := Some(Max(PtsOf(s), res.pts))), w.sys.feeds))) &&
      PtsOf(s) == PtsOf(w.sys.state)
  {
    PositionKeepsWorld(w, res.pts);
    var wp := World(w.J, KnownAll(w.known, UpTo(res.pts)), w.sound, w.sys.(state := w.sys.state.(pts := Some(res.pts))));
    ListsAreAside(w.sys.state, res.pins, res.pts);
    ListsAreAside(TakePins(w.sys.state, res.pins, res.pts), res.scheduled, res.pts);
    var s := TakeScheduled(TakePins(w.sys.state, res.pins, res.pts), res.scheduled, res.pts);
    assert Surviving(w.sound, w.sys.feeds) == w.sound && Keyed(s.summaries);
    hide WorldOk, Absorbed, Keyed, TakePins, TakeScheduled;
    AsideKeepsWorld(wp, Sys(s.(pts := Some(Max(PtsOf(s), res.pts))), w.sys.feeds));
  }
}
