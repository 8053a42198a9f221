/** What events, replies and lists leave of each conversation's standing: its summary, its number, its feed and its lists. */
module Standings {
  import opened Feed
  import opened SyncRules
  import opened FeedSafety
  import opened Client

  /** What the client knows of this conversation is older than number `P`. */
  predicate OwnOlder(s: State, id: Id, P: nat) {
    id in s.summaryPts ==> s.summaryPts[id] < P
  }

  /** Both say the same about this conversation, at the same number. */
  ghost predicate SameStanding(s: State, t: State, id: Id) {
    SameSummary(s, t, id) && (id in s.summaryPts <==> id in t.summaryPts) &&
    (id in s.summaryPts ==> s.summaryPts[id] == t.summaryPts[id])
  }

  /** Nothing is left of a conversation: no feed, no window, no pins, no scheduled messages. */
  ghost predicate Emptied(t: Sys, id: Id) {
    id !in t.feeds && id !in t.state.windows && id !in t.state.pins && id !in t.state.scheduled
  }

  ghost predicate SameWindow(s: Sys, t: Sys, id: Id) {
    (id in s.feeds <==> id in t.feeds) && (id in s.feeds ==> s.feeds[id] == t.feeds[id]) &&
    (id in s.state.windows <==> id in t.state.windows) && (id in s.state.windows ==> s.state.windows[id] == t.state.windows[id])
  }

  /** Pins and scheduled messages of this conversation are untouched. */
  ghost predicate SameLists(s: State, t: State, id: Id) {
    (id in s.pins <==> id in t.pins) && (id in s.pins ==> s.pins[id] == t.pins[id]) &&
    (id in s.scheduled <==> id in t.scheduled) && (id in s.scheduled ==> s.scheduled[id] == t.scheduled[id])
  }

  /** A newer standing is shown; if it leaves no summary, nothing else is left of the conversation either. */
  ghost predicate Heard(t: Sys, id: Id, told: Told) {
    ShowsStanding(t.state, id, told) && (SummaryAfter(told.st).None? ==> id !in t.feeds && id !in t.state.windows)
  }

  /** One standing: shown if it is newer than what is known, else without effect; other conversations are untouched. */
  lemma StandingEffect(sys: Sys, st: Standing, P: nat, id: Id)
    ensures var t := Perform(sys, StandingIn(st, P));
      if id != StandingId(st) then SameStanding(sys.state, t.state, id) && SameWindow(sys, t, id) && SameLists(sys.state, t.state, id)
      else if !OwnOlder(sys.state, id, P) then t == sys
      else if SummaryAfter(st).None? then Heard(t, id, Told(st, P)) && Emptied(t, id)
      else Heard(t, id, Told(st, P)) && SameWindow(sys, t, id) && SameLists(sys.state, t.state, id)
  {
  }

  /** A view of a message says nothing about standings and lists, and makes or takes no feed. */
  lemma MessageAside(sys: Sys, d: Delivered, P: nat)
    ensures var t := Perform(sys, MessageIn(d, P));
      t.state.summaries == sys.state.summaries && t.state.summaryPts == sys.state.summaryPts && t.state.windows == sys.state.windows &&
      t.state.pins == sys.state.pins && t.state.scheduled == sys.state.scheduled && t.feeds.Keys == sys.feeds.Keys
  {
    MessageState(sys.state, FeedOf(sys.feeds, DeliveredConv(d)), d, P);
    MessageShape(sys, d, P);
    hide ApplyMessage;
  }

  /** A list that came with number `P` is held unless one at least as new was held before. */
  ghost predicate HoldsNewest(before: map<Id, Numbered>, after: map<Id, Numbered>, c: Id, list: seq<string>, P: nat) {
    c in after && after[c] == if c in before && before[c].pts >= P then before[c] else Numbered(P, list)
  }

  // ----- one event -----

  /**
   * What an event says about its conversation is shown from then on, at the number of the event, unless something newer
   * was known; a conversation that the person left without a trace has no feed and no window. Of every other
   * conversation the standing stays as it was.
   */
  lemma EventStanding(sys: Sys, ev: Event, id: Id)
    ensures var t := TakeEvent(sys, ev);
      if id == StandingId(ev.standing) && OwnOlder(sys.state, id, ev.pts) then Heard(t, id, Told(ev.standing, ev.pts))
      else SameStanding(sys.state, t.state, id)
    ensures TakeEvent(sys, ev).state.pts == Some(ev.pts)
  {
    hide Perform, Newest, ShowsStanding, SameSummary;
    var t1 := Perform(sys, StandingIn(ev.standing, ev.pts));
    StandingEffect(sys, ev.standing, ev.pts, id);
    if ev.message.Some? { MessageAside(t1, ev.message.value, ev.pts); }
    SameShown(t1, TakeEvent(sys, ev), id, Told(ev.standing, ev.pts));
    SameAgain(sys.state);
  }

  lemma SameAgain(s: State)
    ensures forall id :: SameSummary(s, s, id)
  {
  }

  lemma SameShown(s: Sys, t: Sys, id: Id, told: Told)
    requires s.state.summaries == t.state.summaries && s.state.summaryPts == t.state.summaryPts
    ensures ShowsStanding(s.state, id, told) <==> ShowsStanding(t.state, id, told)
    ensures forall r: State :: SameSummary(r, s.state, id) <==> SameSummary(r, t.state, id)
  {
  }

  /** The pins and the scheduled messages that an event brings for a conversation the person is in; all others stay. */
  lemma EventListsHeld(sys: Sys, ev: Event, id: Id)
    ensures var s, t, here := sys.state, TakeEvent(sys, ev).state, id == StandingId(ev.standing) && ev.standing.Present?;
      (here && ev.pins.Some? ==> HoldsNewest(s.pins, t.pins, id, ev.pins.value, ev.pts)) &&
      (here && ev.scheduled.Some? ==> HoldsNewest(s.scheduled, t.scheduled, id, ev.scheduled.value, ev.pts))
    ensures var s, t := sys.state, TakeEvent(sys, ev).state;
      id != StandingId(ev.standing) || (ev.standing.Present? && ev.pins.None? && ev.scheduled.None?) ==> SameLists(s, t, id)
  {
    hide Perform;
    var t1 := Perform(sys, StandingIn(ev.standing, ev.pts));
    StandingEffect(sys, ev.standing, ev.pts, id);
    if ev.message.Some? { MessageAside(t1, ev.message.value, ev.pts); }
    hide ShowsStanding, SameSummary;
  }

  // ----- one catch-up reply -----

  ghost predicate Names(sts: seq<Standing>, id: Id, st: Standing) {
    st in sts && StandingId(st) == id
  }

  /** The standings of a reply: each named conversation shows what the reply says of it, unless something as new was known. */
  lemma {:induction false} StandingsEffect(sys: Sys, sts: seq<Standing>, P: nat, id: Id)
    ensures var t := TakeStandings(sys, sts, P);
      if (exists st :: Names(sts, id, st)) && OwnOlder(sys.state, id, P) then
        exists st :: Names(sts, id, st) && Heard(t, id, Told(st, P))
      else SameStanding(sys.state, t.state, id) && SameWindow(sys, t, id) && SameLists(sys.state, t.state, id)
  {
    hide Perform;
    if sts != [] {
      var r, z := sts[..|sts| - 1], sts[|sts| - 1];
      assert sts == r + [z];
      assert forall st :: Names(sts, id, st) <==> Names(r, id, st) || (st == z && StandingId(z) == id);
      var u, t := TakeStandings(sys, r, P), TakeStandings(sys, sts, P);
      StandingsEffect(sys, r, P, id);
      assert t == Perform(u, StandingIn(z, P));
      StandingEffect(u, z, P, id);
      assert Names(sts, id, z) <==> StandingId(z) == id;
      hide Names, TakeStandings, SameSummary, SameWindow, SameLists, ShowsStanding;
      SameChain(sys, u, t, id);
      if (exists st :: Names(r, id, st)) && OwnOlder(sys.state, id, P) {
        var st :| Names(r, id, st) && Heard(u, id, Told(st, P));
        assert Heard(t, id, Told(st, P)) by { HeardKept(u, t, id, Told(st, P)); }
      }
    }
  }

  lemma SameChain(s: Sys, u: Sys, t: Sys, id: Id)
    ensures SameSummary(s.state, u.state, id) && SameSummary(u.state, t.state, id) ==> SameSummary(s.state, t.state, id)
    ensures SameWindow(s, u, id) && SameWindow(u, t, id) ==> SameWindow(s, t, id)
    ensures SameLists(s.state, u.state, id) && SameLists(u.state, t.state, id) ==> SameLists(s.state, t.state, id)
    ensures SameSummary(s.state, s.state, id) && SameWindow(s, s, id) && SameLists(s.state, s.state, id)
  {
  }

  lemma HeardKept(u: Sys, t: Sys, id: Id, told: Told)
    requires Heard(u, id, told) && (t == u || (SameStanding(u.state, t.state, id) && SameWindow(u, t, id)))
    ensures Heard(t, id, told)
  {
  }

  lemma {:induction false} MessagesAside(sys: Sys, ms: seq<Delivered>, P: nat)
    ensures var t := TakeMessages(sys, ms, P);
      t.state.summaries == sys.state.summaries && t.state.summaryPts == sys.state.summaryPts && t.state.windows == sys.state.windows &&
      t.state.pins == sys.state.pins && t.state.scheduled == sys.state.scheduled && t.feeds.Keys == sys.feeds.Keys
  {
    hide Perform;
    if ms != [] {
      MessagesAside(sys, ms[..|ms| - 1], P);
      MessageAside(TakeMessages(sys, ms[..|ms| - 1], P), ms[|ms| - 1], P);
    }
  }

  /** Of two lists with one number the first stays; a newer one takes the place; other conversations keep theirs. */
  lemma NewestEffect(m: map<Id, Numbered>, c: Id, list: seq<string>, P: nat)
    ensures HoldsNewest(m, Newest(m, c, list, P), c, list, P)
    ensures forall k | k != c :: (k in Newest(m, c, list, P) <==> k in m) && (k in m ==> Newest(m, c, list, P)[k] == m[k])
  {
  }

  /** Of the pins of a reply, each conversation still in the list of conversations holds the newest. */
  lemma {:induction false} PinsEffect(s: State, ls: seq<ListOf>, P: nat, l: ListOf)
    requires l in ls && l.c in s.summaries && forall k | k in ls && k.c == l.c :: k == l
    ensures HoldsNewest(s.pins, TakePins(s, ls, P).pins, l.c, l.list, P)
  {
    var r, z := ls[..|ls| - 1], ls[|ls| - 1];
    assert ls == r + [z];
    ListsAreAside(s, r, P);
    if l in r { PinsEffect(s, r, P, l); } else { ListsUntouched(s, r, P, l.c); }
    NewestEffect(TakePins(s, r, P).pins, z.c, z.list, P);
    assert z.c == l.c ==> z == l;
    hide Newest;
  }

  lemma {:induction false} ScheduledEffect(s: State, ls: seq<ListOf>, P: nat, l: ListOf)
    requires l in ls && l.c in s.summaries && forall k | k in ls && k.c == l.c :: k == l
    ensures HoldsNewest(s.scheduled, TakeScheduled(s, ls, P).scheduled, l.c, l.list, P)
  {
    var r, z := ls[..|ls| - 1], ls[|ls| - 1];
    assert ls == r + [z];
    ListsAreAside(s, r, P);
    if l in r { ScheduledEffect(s, r, P, l); } else { ListsUntouched(s, r, P, l.c); }
    NewestEffect(TakeScheduled(s, r, P).scheduled, z.c, z.list, P);
    assert z.c == l.c ==> z == l;
    hide Newest;
  }

  lemma {:induction false} OtherList(s: State, ls: seq<ListOf>, P: nat)
    ensures TakePins(s, ls, P).scheduled == s.scheduled && TakeScheduled(s, ls, P).pins == s.pins
  {
    hide Newest;
    if ls != [] { OtherList(s, ls[..|ls| - 1], P); }
  }

  lemma {:induction false} ListsUntouched(s: State, ls: seq<ListOf>, P: nat, c: Id)
    requires forall k | k in ls :: k.c != c
    ensures var t := TakePins(s, ls, P); (c in t.pins <==> c in s.pins) && (c in s.pins ==> t.pins[c] == s.pins[c])
    ensures var t := TakeScheduled(s, ls, P);
      (c in t.scheduled <==> c in s.scheduled) && (c in s.scheduled ==> t.scheduled[c] == s.scheduled[c])
  {
    if ls != [] {
      assert ls[|ls| - 1] in ls && forall k | k in ls[..|ls| - 1] :: k in ls;
      ListsUntouched(s, ls[..|ls| - 1], P, c);
    }
  }

  lemma SyncParts(sys: Sys, res: SyncReply)
    ensures var t1, t := TakeStandings(sys, res.conversations, res.pts), TakeSync(sys, res);
      t.state.summaries == t1.state.summaries && t.state.summaryPts == t1.state.summaryPts && t.state.windows == t1.state.windows &&
      t.feeds.Keys == t1.feeds.Keys &&
      t.state.pins == TakePins(TakeMessages(t1, res.messages, res.pts).state, res.pins, res.pts).pins &&
      t.state.scheduled == TakeScheduled(TakePins(TakeMessages(t1, res.messages, res.pts).state, res.pins, res.pts), res.scheduled, res.pts).scheduled &&
      t.state.pts == Some(Max(PtsOf(t.state), res.pts))
  {
    var t1 := TakeStandings(sys, res.conversations, res.pts);
    var t2 := TakeMessages(t1, res.messages, res.pts);
    MessagesAside(t1, res.messages, res.pts);
    ListsAreAside(t2.state, res.pins, res.pts);
    var s3 := TakePins(t2.state, res.pins, res.pts);
    ListsAreAside(s3, res.scheduled, res.pts);
    PinsNumbers(t2.state, res.pins, res.pts);
    PinsNumbers(s3, res.scheduled, res.pts);
    OtherList(s3, res.scheduled, res.pts);
    hide TakeStandings, TakeMessages, TakePins, TakeScheduled;
  }

  lemma {:induction false} PinsNumbers(s: State, ls: seq<ListOf>, P: nat)
    ensures TakePins(s, ls, P).summaryPts == s.summaryPts && TakeScheduled(s, ls, P).summaryPts == s.summaryPts
  {
    hide Newest;
    if ls != [] { PinsNumbers(s, ls[..|ls| - 1], P); }
  }

  /**
   * What a catch-up reply says about a conversation is shown from then on, at the number of the reply, unless something as
   * new was known; a conversation left without a trace has no feed and no window. What it does not name stays.
   */
  lemma SyncStanding(sys: Sys, res: SyncReply, id: Id)
    ensures var t := TakeSync(sys, res);
      if (exists st :: Names(res.conversations, id, st)) && OwnOlder(sys.state, id, res.pts) then
        exists st :: Names(res.conversations, id, st) && Heard(t, id, Told(st, res.pts))
      else SameStanding(sys.state, t.state, id)
  {
    var t1, t := TakeStandings(sys, res.conversations, res.pts), TakeSync(sys, res);
    StandingsEffect(sys, res.conversations, res.pts, id);
    SyncParts(sys, res);
    hide TakeSync, TakeStandings, TakeMessages, TakePins, TakeScheduled, SameSummary, ShowsStanding;
    forall st ensures Heard(t1, id, Told(st, res.pts)) ==> Heard(t, id, Told(st, res.pts)) { SameShown(t1, t, id, Told(st, res.pts)); }
    SameShown(t1, t, id, Told(Left(id, None), 0));
  }

  /** The lists of a reply, each naming a conversation once, are held if newer, for conversations that are still there. */
  lemma SyncListsHeld(sys: Sys, res: SyncReply, l: ListOf)
    requires OwnOlder(sys.state, l.c, res.pts) ==> forall st :: Names(res.conversations, l.c, st) ==> SummaryAfter(st).Some?
    ensures l.c in TakeSync(sys, res).state.summaries && l in res.pins && (forall k | k in res.pins && k.c == l.c :: k == l) ==>
      HoldsNewest(sys.state.pins, TakeSync(sys, res).state.pins, l.c, l.list, res.pts)
    ensures l.c in TakeSync(sys, res).state.summaries && l in res.scheduled && (forall k | k in res.scheduled && k.c == l.c :: k == l) ==>
      HoldsNewest(sys.state.scheduled, TakeSync(sys, res).state.scheduled, l.c, l.list, res.pts)
  {
    var t1 := TakeStandings(sys, res.conversations, res.pts);
    var t2 := TakeMessages(t1, res.messages, res.pts);
    StandingsLists(sys, res.conversations, res.pts, l.c);
    MessagesAside(t1, res.messages, res.pts);
    SyncParts(sys, res);
    var s3 := TakePins(t2.state, res.pins, res.pts);
    ListsAreAside(t2.state, res.pins, res.pts);
    OtherList(t2.state, res.pins, res.pts);
    hide TakeSync, TakeStandings, TakeMessages, TakePins, TakeScheduled, Names;
    if l in res.pins && forall k | k in res.pins && k.c == l.c :: k == l {
      if l.c in t2.state.summaries { PinsEffect(t2.state, res.pins, res.pts, l); }
    }
    if l in res.scheduled && forall k | k in res.scheduled && k.c == l.c :: k == l {
      if l.c in s3.summaries { ScheduledEffect(s3, res.scheduled, res.pts, l); }
    }
  }

  /** A conversation that is not there after a reply takes no lists from it. */
  lemma SyncListsOnlyThere(sys: Sys, res: SyncReply, id: Id)
    ensures var t := TakeSync(sys, res).state;
      id !in t.summaries ==> (id in t.pins ==> id in sys.state.pins && t.pins[id] == sys.state.pins[id]) &&
                             (id in t.scheduled ==> id in sys.state.scheduled && t.scheduled[id] == sys.state.scheduled[id])
  {
    var t1 := TakeStandings(sys, res.conversations, res.pts);
    var t2 := TakeMessages(t1, res.messages, res.pts);
    StandingsNoLists(sys, res.conversations, res.pts, id);
    MessagesAside(t1, res.messages, res.pts);
    SyncParts(sys, res);
    var s3 := TakePins(t2.state, res.pins, res.pts);
    ListsAreAside(t2.state, res.pins, res.pts);
    OtherList(t2.state, res.pins, res.pts);
    hide TakeSync, TakeStandings, TakeMessages, TakePins, TakeScheduled;
    if id !in t1.state.summaries {
      ListsSkip(t2.state, res.pins, res.pts, id);
      ListsSkip(s3, res.scheduled, res.pts, id);
    }
  }

  lemma {:induction false} ListsSkip(s: State, ls: seq<ListOf>, P: nat, id: Id)
    requires id !in s.summaries
    ensures var t := TakePins(s, ls, P); (id in t.pins <==> id in s.pins) && (id in s.pins ==> t.pins[id] == s.pins[id])
    ensures var t := TakeScheduled(s, ls, P);
      (id in t.scheduled <==> id in s.scheduled) && (id in s.scheduled ==> t.scheduled[id] == s.scheduled[id])
  {
    if ls != [] {
      ListsSkip(s, ls[..|ls| - 1], P, id);
      ListsAreAside(s, ls[..|ls| - 1], P);
    }
  }

  /** Standings add no lists. */
  lemma {:induction false} StandingsNoLists(sys: Sys, sts: seq<Standing>, P: nat, id: Id)
    ensures var t := TakeStandings(sys, sts, P).state;
      (id in t.pins ==> id in sys.state.pins && t.pins[id] == sys.state.pins[id]) &&
      (id in t.scheduled ==> id in sys.state.scheduled && t.scheduled[id] == sys.state.scheduled[id])
  {
    hide Perform;
    if sts != [] {
      StandingsNoLists(sys, sts[..|sts| - 1], P, id);
      StandingEffect(TakeStandings(sys, sts[..|sts| - 1], P), sts[|sts| - 1], P, id);
      hide SameSummary, ShowsStanding;
    }
  }

  /** Standings that leave a summary leave the lists alone. */
  lemma {:induction false} StandingsLists(sys: Sys, sts: seq<Standing>, P: nat, id: Id)
    requires OwnOlder(sys.state, id, P) ==> forall st :: Names(sts, id, st) ==> SummaryAfter(st).Some?
    ensures SameLists(sys.state, TakeStandings(sys, sts, P).state, id)
    ensures !OwnOlder(sys.state, id, P) ==> !OwnOlder(TakeStandings(sys, sts, P).state, id, P)
  {
    hide Perform;
    if sts != [] {
      var r, z := sts[..|sts| - 1], sts[|sts| - 1];
      assert sts == r + [z];
      assert forall st :: Names(r, id, st) ==> Names(sts, id, st);
      assert StandingId(z) == id ==> Names(sts, id, z);
      StandingsLists(sys, r, P, id);
      StandingEffect(TakeStandings(sys, r, P), z, P, id);
      hide Names, SameSummary, ShowsStanding;
    }
  }

  // ----- the full list -----

  /**
   * A full list: a conversation that the client knows from something newer keeps that; else it shows what the list says of
   * it last (conversations, then former groups marked as such), at the number of the list, or is gone.
   */
  lemma ListStanding(s: State, res: ListReply, id: Id)
    requires id in s.summaries ==> id in s.summaryPts
    ensures var t := ApplyList(s, res);
      if id in s.summaryPts && s.summaryPts[id] > res.pts then
        SameSummary(s, t, id) && (id in s.summaries ==> id in t.summaryPts && t.summaryPts[id] == s.summaryPts[id])
      else if exists x :: InList(res, id, x) then
        id in t.summaryPts && t.summaryPts[id] == res.pts && id in t.summaries && InList(res, id, t.summaries[id])
      else id !in t.summaries && id !in t.summaryPts
    ensures ApplyList(s, res).pts == Some(if PtsOf(s) > res.pts then PtsOf(s) else res.pts)
    ensures ApplyList(s, res).gone == s.gone && ApplyList(s, res).buffer == s.buffer && ApplyList(s, res).phase == s.phase
  {
    hide LastSummary;
    InListIs(res, id);
    hide Listed, SummaryIds;
  }

  lemma InListIs(res: ListReply, id: Id)
    ensures forall x :: InList(res, id, x) <==> x in Listed(res) && x.id == id
    ensures id in SummaryIds(Listed(res)) <==> exists x :: InList(res, id, x)
  {
    hide FormerOnly;
    forall x ensures InList(res, id, x) <==> x in Listed(res) && x.id == id {}
    if id in SummaryIds(Listed(res)) {
      var x :| x in Listed(res) && x.id == id;
      assert InList(res, id, x);
    }
  }

  ghost predicate InList(res: ListReply, id: Id, x: Summary) {
    x.id == id && (x in res.conversations || (x in res.former && x.former))
  }

  /** A window goes with its conversation, and only with it. */
  lemma ListWindows(s: State, res: ListReply, id: Id)
    requires id in s.summaries <==> id in s.summaryPts
    ensures var t := ApplyList(s, res);
      (id in t.windows <==> id in s.windows && id in t.summaries) && (id in t.windows ==> t.windows[id] == s.windows[id])
  {
    hide LastSummary, Listed;
  }

  // ----- what a client has heard -----

  /** The last list or record, and the standings consumed since, in the order in which they were consumed. */
  datatype Hearing = Hearing(base: State, told: seq<Told>)

  function ToldOf(sts: seq<Standing>, P: nat): seq<Told> {
    seq(|sts|, i requires 0 <= i < |sts| => Told(sts[i], P))
  }

  function ToldByEvents(evs: seq<Event>): seq<Told> {
    seq(|evs|, i requires 0 <= i < |evs| => Told(evs[i].standing, evs[i].pts))
  }

  function HearMore(h: Hearing, told: seq<Told>): Hearing {
    h.(told := h.told + told)
  }

  lemma ToldByNone(h: Hearing, evs: seq<Event>)
    ensures HearMore(h, ToldByEvents(evs[..0])) == h
  {
    assert h.told + ToldByEvents(evs[..0]) == h.told;
  }

  lemma ToldByNext(h: Hearing, evs: seq<Event>, i: nat)
    requires i < |evs|
    ensures HearMore(HearMore(h, ToldByEvents(evs[..i])), [Told(evs[i].standing, evs[i].pts)]) == HearMore(h, ToldByEvents(evs[..i + 1]))
  {
    assert h.told + ToldByEvents(evs[..i]) + [Told(evs[i].standing, evs[i].pts)] == h.told + ToldByEvents(evs[..i + 1]);
  }

  /** The same summary, but for an own message that has lifted its conversation in the list. */
  ghost predicate LiftOf(a: Summary, b: Summary) {
    a.(lastMessageAt := b.lastMessageAt) == b && b.lastMessageAt <= a.lastMessageAt
  }

  ghost predicate Recalls(f: State, summaries: map<Id, Summary>, numbers: map<Id, nat>, id: Id) {
    (id in numbers <==> id in f.summaryPts) && (id in numbers ==> numbers[id] == f.summaryPts[id]) &&
    (id in summaries <==> id in f.summaries) && (id in summaries ==> LiftOf(summaries[id], f.summaries[id]))
  }

  /** The list of conversations is what was heard, standing after standing. */
  ghost predicate Remembers(h: Hearing, summaries: map<Id, Summary>, numbers: map<Id, nat>) {
    forall id :: Recalls(FoldStandings(h.base, h.told), summaries, numbers, id)
  }

  lemma HearsItself(s: State)
    ensures Remembers(Hearing(s, []), s.summaries, s.summaryPts)
  {
  }

  /** One more standing means the same to what is remembered and to what was heard. */
  lemma RecallStep(f: State, s: State, st: Standing, P: nat, id: Id)
    requires Recalls(f, s.summaries, s.summaryPts, id) && Recalls(f, s.summaries, s.summaryPts, StandingId(st))
    ensures var g, t := ApplySummary(f, st, P).state, ApplySummary(s, st, P).state; Recalls(g, t.summaries, t.summaryPts, id)
  {
    NextDecides(f, id, Told(st, P));
    NextDecides(s, id, Told(st, P));
    hide ApplySummary;
  }

  lemma StandingSummaries(sys: Sys, st: Standing, P: nat)
    ensures var t, u := Perform(sys, StandingIn(st, P)).state, ApplySummary(sys.state, st, P).state;
      t.summaries == u.summaries && t.summaryPts == u.summaryPts
  {
    hide ApplySummary;
  }

  lemma HearStep(h: Hearing, sys: Sys, st: Standing, P: nat)
    requires Remembers(h, sys.state.summaries, sys.state.summaryPts)
    ensures var t := Perform(sys, StandingIn(st, P)).state; Remembers(HearMore(h, [Told(st, P)]), t.summaries, t.summaryPts)
  {
    hide FoldStandings, Recalls, Perform, ApplySummary;
    var f, u := FoldStandings(h.base, h.told), ApplySummary(sys.state, st, P).state;
    FoldStep(h.base, h.told, Told(st, P));
    StandingSummaries(sys, st, P);
    forall id ensures Recalls(ApplySummary(f, st, P).state, u.summaries, u.summaryPts, id) {
      RecallStep(f, sys.state, st, P, id);
    }
  }

  lemma EventSummaries(sys: Sys, ev: Event)
    ensures var t, u := TakeEvent(sys, ev).state, Perform(sys, StandingIn(ev.standing, ev.pts)).state;
      t.summaries == u.summaries && t.summaryPts == u.summaryPts
  {
    hide Perform, Newest;
    if ev.message.Some? { MessageAside(Perform(sys, StandingIn(ev.standing, ev.pts)), ev.message.value, ev.pts); }
  }

  lemma HearEvent(h: Hearing, sys: Sys, ev: Event)
    requires Remembers(h, sys.state.summaries, sys.state.summaryPts)
    ensures var t := TakeEvent(sys, ev).state; Remembers(HearMore(h, [Told(ev.standing, ev.pts)]), t.summaries, t.summaryPts)
  {
    hide Perform, TakeEvent, Remembers;
    EventSummaries(sys, ev);
    HearStep(h, sys, ev.standing, ev.pts);
  }

  lemma {:induction false} HearStandings(h: Hearing, sys: Sys, sts: seq<Standing>, P: nat)
    requires Remembers(h, sys.state.summaries, sys.state.summaryPts)
    ensures var t := TakeStandings(sys, sts, P).state; Remembers(HearMore(h, ToldOf(sts, P)), t.summaries, t.summaryPts)
  {
    hide Perform, Remembers;
    if sts == [] {
      assert h.told + ToldOf(sts, P) == h.told;
    } else {
      var r, z := sts[..|sts| - 1], sts[|sts| - 1];
      HearStandings(h, sys, r, P);
      HearStep(HearMore(h, ToldOf(r, P)), TakeStandings(sys, r, P), z, P);
      assert (h.told + ToldOf(r, P)) + [Told(z, P)] == h.told + ToldOf(sts, P);
    }
  }

  lemma HearSync(h: Hearing, sys: Sys, res: SyncReply)
    requires Remembers(h, sys.state.summaries, sys.state.summaryPts)
    ensures var t := TakeSync(sys, res).state; Remembers(HearMore(h, ToldOf(res.conversations, res.pts)), t.summaries, t.summaryPts)
  {
    hide Remembers, TakeStandings, TakeMessages, TakePins, TakeScheduled, TakeSync;
    HearStandings(h, sys, res.conversations, res.pts);
    SyncParts(sys, res);
  }

  lemma HearLift(h: Hearing, s: State, t: State, c: Id)
    requires Remembers(h, s.summaries, s.summaryPts) && t.summaryPts == s.summaryPts
    requires t.summaries == s.summaries || (c in s.summaries && c in t.summaries && LiftOf(t.summaries[c], s.summaries[c]) &&
                                            t.summaries == s.summaries[c := t.summaries[c]])
    ensures Remembers(h, t.summaries, t.summaryPts)
  {
    hide FoldStandings;
    forall id ensures Recalls(FoldStandings(h.base, h.told), t.summaries, t.summaryPts, id) {
      assert Recalls(FoldStandings(h.base, h.told), s.summaries, s.summaryPts, id);
    }
  }

  /** Nothing that was told about this conversation is newer than what the base knew. */
  ghost predicate ToldNothingNewer(s: State, ts: seq<Told>, c: Id) {
    forall t | About(ts, c, t) :: c in s.summaryPts && t.P <= s.summaryPts[c]
  }

  /** Whatever was told: the newest standing decides, or the base if nothing told is newer. */
  lemma {:induction false} NewestDecides(s: State, c: Id, ts: seq<Told>)
    ensures var f := FoldStandings(s, ts);
      (exists t :: NewestOf(ts, c, t) && ShowsStanding(f, c, t)) || (ToldNothingNewer(s, ts, c) && SameStanding(s, f, c))
  {
    if ts != [] {
      var r, z := ts[..|ts| - 1], ts[|ts| - 1];
      assert ts == r + [z];
      assert forall t :: About(ts, c, t) <==> About(r, c, t) || (t == z && StandingId(z.st) == c);
      NewestDecides(s, c, r);
      var f := FoldStandings(s, r);
      var g := ApplySummary(f, z.st, z.P).state;
      assert FoldStandings(s, ts) == g by { FoldStep(s, r, z); }
      NextDecides(f, c, z);
      assert About(ts, c, z) <==> StandingId(z.st) == c;
      hide ApplySummary, ShowsStanding, FoldStandings, About;
      if t :| NewestOf(r, c, t) && ShowsStanding(f, c, t) {
        NextKeeps(f, c, t, z);
        if StandingId(z.st) == c && z.P > t.P { assert NewestOf(ts, c, z); } else { assert NewestOf(ts, c, t); }
      } else {
        SameSummaryChain(s, f, g, c);
        if StandingId(z.st) == c && !(c in f.summaryPts && z.P <= f.summaryPts[c]) { assert NewestOf(ts, c, z); }
      }
    }
  }

  lemma NextDecides(f: State, c: Id, z: Told)
    ensures var g := ApplySummary(f, z.st, z.P).state;
      if StandingId(z.st) != c || (c in f.summaryPts && z.P <= f.summaryPts[c]) then SameStanding(f, g, c)
      else ShowsStanding(g, c, z)
  {
  }

  lemma NextKeeps(f: State, c: Id, t: Told, z: Told)
    requires ShowsStanding(f, c, t)
    ensures ShowsStanding(ApplySummary(f, z.st, z.P).state, c, if StandingId(z.st) == c && z.P > t.P then z else t)
  {
  }

  lemma SameSummaryChain(s: State, f: State, g: State, c: Id)
    ensures SameStanding(s, f, c) && SameStanding(f, g, c) ==> SameStanding(s, g, c)
  {
  }

  /** A conversation is shown as this standing says, but for the lift by an own message. */
  ghost predicate ShowsTold(s: State, c: Id, t: Told) {
    c in s.summaryPts && s.summaryPts[c] == t.P &&
    (if SummaryAfter(t.st).Some? then c in s.summaries && LiftOf(s.summaries[c], SummaryAfter(t.st).value) else c !in s.summaries)
  }

  /** In any client that remembers what it heard, each summary is the newest standing consumed, or that of the last list. */
  lemma NewestIsShown(h: Hearing, s: State, c: Id)
    requires Remembers(h, s.summaries, s.summaryPts)
    ensures (exists t :: NewestOf(h.told, c, t) && ShowsTold(s, c, t)) ||
      (ToldNothingNewer(h.base, h.told, c) && Recalls(h.base, s.summaries, s.summaryPts, c))
  {
    NewestDecides(h.base, c, h.told);
    assert Recalls(FoldStandings(h.base, h.told), s.summaries, s.summaryPts, c);
    hide FoldStandings, Remembers, NewestOf, ToldNothingNewer;
    if t :| NewestOf(h.told, c, t) && ShowsStanding(FoldStandings(h.base, h.told), c, t) { assert ShowsTold(s, c, t); }
  }
}
