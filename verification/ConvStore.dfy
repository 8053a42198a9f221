/**
 * The conversation store as a state machine: every method is what runs between two awaits, so any order of calls is an
 * interleaving. A suspended activation is an entry of `loops` or `requests`; its reply is one more method.
 */
module ConvStore {
  import opened Feed
  import opened SyncRules
  import opened FeedSafety
  import opened Journal
  import opened Windows
  import opened WindowRules
  import opened PageMerge
  import opened Client
  import opened ClientRuns
  import opened Consumption
  import opened Buffering
  import opened StoreSteps
  import opened Standings
  import Cache
  import SyncLoops

  class Store {
    const windowed: bool

    var conv: State
    var feeds: Feeds
    var convActive: bool
    var running: Option<nat>
    var again: bool
    var retry: bool
    var poll: bool
    /** Loops whose end re-arms the offline poll, with the generation that asked. */
    var pollWaits: map<nat, nat>
    var gen: nat
    var gateway: Gateway
    var loops: map<nat, Loop>
    var requests: map<nat, Request>
    var nextId: nat

    /** The server's journal for this person, and what the store may claim about its windows. */
    ghost var J: seq<Change>
    ghost var known: map<Id, set<nat>>
    ghost var sound: set<Id>
    /** How the journal was consumed since the last reset, and the numbers of all events received since then. */
    ghost var log: seq<Take>
    ghost var received: set<nat>
    /** The last list or record, and every standing consumed since. */
    ghost var heard: Hearing
    /** A forced catch-up was asked for and no `syncOnce` has started since. */
    ghost var owed: bool

    function S(): Sys
      reads this`conv, this`feeds
    {
      Sys(conv, feeds)
    }

    ghost function W(): World
      reads this`conv, this`feeds, this`J, this`known, this`sound
    {
      World(J, known, sound, S())
    }

    /** The conversations themselves: windows right, the journal consumed without loss or repetition, the buffer whole. */
    ghost predicate Data()
      reads this`conv, this`feeds, this`J, this`known, this`sound, this`log, this`received, this`heard
    {
      WorldOk(W()) && Reach(log) == Some(PtsOf(conv)) && BufferOk(J, conv, received) && Remembers(heard, conv.summaries, conv.summaryPts)
    }

    /** At most one activation of the current generation runs, and `running` names it. */
    ghost predicate OneLoop()
      reads this`loops, this`nextId, this`gen, this`running
    {
      (forall t | t in loops :: t < nextId && loops[t].gen <= gen && (loops[t].gen == gen ==> running == Some(t))) &&
      (running.Some? ==> running.value in loops && loops[running.value].gen == gen)
    }

    /** While the current activation waits for a reply the store is not live, and its position is where the request began. */
    ghost predicate LoopOk()
      reads this
    {
      running.Some? && running.value in loops ==>
        (Waiting(loops[running.value].pc) ==> conv.phase != Live_) &&
        (loops[running.value].pc.AwaitSync? ==> conv.pts == Some(loops[running.value].pc.since)) &&
        (loops[running.value].pc.AwaitResetPage? || loops[running.value].pc.AwaitPeers? ==> conv.pts.Some?)
    }

    /** A forced catch-up is never forgotten, and a loop that is about to end leaves the store live. */
    ghost predicate DebtOk()
      reads this
    {
      (owed ==> retry || (running.Some? && again)) &&
      (running.Some? && running.value in loops && loops[running.value].pc == Returned && gateway == Up && !again ==>
        conv.phase == Live_)
    }

    /** With the gateway up the store is live, or a catch-up runs, or one is about to be retried. */
    ghost predicate NotStuck()
      reads this
    {
      convActive && gateway == Up ==> conv.phase == Live_ || running.Some? || retry
    }

    /** Everything but the debt: what a forced catch-up may be called with. */
    ghost predicate Base()
      reads this
    {
      Data() && OneLoop() && LoopOk() && (!convActive ==> gateway == Unknown)
    }

    ghost predicate Core()
      reads this
    {
      Base() && DebtOk()
    }

    /** Without the gateway the store polls: a poll is armed, or one runs and re-arms itself when it ends. */
    ghost predicate Polled()
      reads this`convActive, this`gateway, this`poll, this`pollWaits, this`gen
    {
      convActive && gateway == Down ==> poll || exists t | t in pollWaits :: pollWaits[t] == gen
    }

    ghost predicate Valid()
      reads this
    {
      Core() && NotStuck() && Polled()
    }

    /** Between resets nothing is lost: a number is behind the position and consumed, or it waits in the buffer. */
    lemma NothingMissed(n: nat)
      requires Valid()
      ensures 1 <= n <= PtsOf(conv) ==> exists i | 0 <= i < |log| :: Covers(log[i], n)
      ensures n in received && n > PtsOf(conv) ==> n in Numbers(conv.buffer)
      ensures n in received && conv.phase == Live_ ==> n <= PtsOf(conv)
    {
      hide WorldOk, Remembers, Reach, Covers, Remembers;
      if 1 <= n <= PtsOf(conv) { NothingLost(log, n); }
    }

    /** Between resets nothing is taken twice: an applied event was not covered by anything taken before it. */
    lemma NothingRepeated(i: nat, j: nat, n: nat)
      requires Valid() && i < j < |log| && log[j] == One(n)
      ensures !Covers(log[i], n)
    {
      hide WorldOk, Remembers, Reach, Covers, Remembers;
      NothingTwice(log, i, j, n);
    }

    /** With the gateway up, a store that has stopped syncing is live and up to date with everything it was told. */
    lemma QuietMeansLive()
      requires Valid() && convActive && gateway == Up && running.None? && !retry
      ensures conv.phase == Live_ && conv.buffer == [] && forall n | n in received :: n <= PtsOf(conv)
    {
      hide WorldOk, Remembers, Reach, Remembers;
    }

    /**
     * The list of conversations after any run: a summary is the newest standing consumed since the last list or record, at
     * its number, lifted at most by an own message; a conversation of which nothing newer was told shows what that said.
     */
    lemma SummaryIsNewest(c: Id)
      requires Valid()
      ensures (exists t :: NewestOf(heard.told, c, t) && ShowsTold(conv, c, t)) ||
        (ToldNothingNewer(heard.base, heard.told, c) && Recalls(heard.base, conv.summaries, conv.summaryPts, c))
    {
      assert Remembers(heard, conv.summaries, conv.summaryPts);
      hide Valid;
      NewestIsShown(heard, conv, c);
    }

    constructor (windowed: bool, ghost journal: seq<Change>)
      requires Lawful(journal)
      ensures Valid() && conv == EMPTY && feeds == map[] && J == journal && gen == 0 && !convActive
    {
      this.windowed := windowed;
      conv, feeds, convActive, running, again, retry, poll := EMPTY, map[], false, None, false, false, false;
      gen, gateway, loops, requests, nextId, pollWaits := 0, Unknown, map[], map[], 0, map[];
      J, known, sound, log, received, owed := journal, map[], {}, [], {}, false;
      heard := Hearing(EMPTY, []);
      new;
      HearsItself(EMPTY);
      hide Lawful, ViewAt, Remembers;
    }

    /** The server commits more changes. */
    ghost method ServerCommits(more: seq<Change>)
      requires Valid() && Lawful(J + more)
      modifies this`J
      ensures Valid() && J == old(J) + more
    {
      GrowthKeepsWorld(W(), more);
      BufferInLonger(J, more, conv, received);
      hide WorldOk, Remembers, BufferOk, Lawful;
      J := J + more;
    }

    // ----- the sync loop -----

    /** Where `syncOnce` waits first. */
    function FirstPc(s: State): Pc {
      if s.pts.None? then AwaitList else AwaitSync(s.pts.value)
    }

    method SetSyncing()
      requires Data()
      modifies this`conv
      ensures Data() && conv == old(conv).(phase := Syncing)
    {
      QuietWorld(W(), Syncing, conv.buffer);
      SyncingBuffer(J, conv, received);
      hide WorldOk, Remembers, BufferOk, Reach;
      assert conv.(phase := Syncing, buffer := conv.buffer) == conv.(phase := Syncing);
      conv := conv.(phase := Syncing);
    }

    /** A new activation: its first synchronous piece sets the phase and sends the first request. */
    method StartLoop()
      requires Base() && running.None?
      modifies this`conv, this`running, this`again, this`loops, this`nextId, this`owed
      ensures Core() && NotStuck()
      ensures conv == old(conv).(phase := Syncing) && running == Some(old(nextId)) && !again && !owed
      ensures loops == old(loops)[old(nextId) := Loop(gen, FirstPc(conv))] && nextId == old(nextId) + 1
    {
      hide Data, OneLoop, LoopOk, DebtOk;
      SetSyncing();
      Begin();
    }

    method Begin()
      requires OneLoop() && running.None? && conv.phase == Syncing
      modifies this`running, this`again, this`loops, this`nextId, this`owed
      ensures OneLoop() && LoopOk() && DebtOk() && NotStuck()
      ensures running == Some(old(nextId)) && !again && !owed && nextId == old(nextId) + 1
      ensures loops == old(loops)[old(nextId) := Loop(gen, FirstPc(conv))]
    {
      again := false;
      running := Some(nextId);
      loops := loops[nextId := Loop(gen, FirstPc(conv))];
      nextId := nextId + 1;
      owed := false;
    }

    /** The running activation goes round once more. */
    method NextRound(t: nat)
      requires Base() && running == Some(t)
      modifies this`conv, this`again, this`loops, this`owed
      ensures Core() && NotStuck()
      ensures conv == old(conv).(phase := Syncing) && !again && !owed && loops == old(loops)[t := Loop(gen, FirstPc(conv))]
    {
      hide Data;
      SetSyncing();
      again := false;
      loops := loops[t := Loop(gen, FirstPc(conv))];
      owed := false;
    }

    /** Catch up: start a loop, or have the running one go round once more. */
    method RunSync(force: bool)
      requires Base() && (force || DebtOk())
      modifies this`conv, this`running, this`again, this`loops, this`nextId, this`owed
      ensures Core() && NotStuck()
      ensures !convActive ==> conv == old(conv) && running == old(running) && again == old(again) && loops == old(loops)
      ensures convActive && old(running).Some? ==>
        conv == old(conv) && running == old(running) && loops == old(loops) && again == (old(again) || force) && owed == (old(owed) || force)
      ensures convActive && old(running).None? ==>
        conv == old(conv).(phase := Syncing) && running == Some(old(nextId)) && !again && !owed &&
        loops == old(loops)[old(nextId) := Loop(gen, if conv.pts.None? then AwaitList else AwaitSync(conv.pts.value))]
    {
      hide Data;
      if convActive && running.None? {
        StartLoop();
      } else if convActive {
        if force { again, owed := true, true; }
      } else {
        // Nothing is owed while conversations are switched off.
        owed := false;
      }
    }

    /** The request of a suspended activation failed: the error goes to the loop. */
    method LoopFails(t: nat)
      requires Valid() && t in loops && (loops[t].pc.AwaitList? || loops[t].pc.AwaitSync? || loops[t].pc.AwaitResetList?)
      modifies this`loops
      ensures Valid() && loops == old(loops)[t := Loop(old(loops[t].gen), Failed)]
    {
      hide Data;
      loops := loops[t := Loop(loops[t].gen, Failed)];
    }

    /**
     * `syncOnce` has returned or thrown and its loop goes on: once more if asked to meanwhile, else it ends; an error
     * of the current generation arms the retry.
     */
    method LoopTurn(t: nat)
      requires Valid() && t in loops && !Waiting(loops[t].pc)
      modifies this`conv, this`running, this`again, this`loops, this`nextId, this`owed, this`retry
      ensures Valid()
      ensures old(loops[t].gen != gen) ==>
        conv == old(conv) && running == old(running) && again == old(again) && retry == old(retry) && loops == old(loops) - {t}
      ensures old(loops[t].gen == gen && loops[t].pc == Returned && again) ==>
        conv == old(conv).(phase := Syncing) && !again && !owed && running == Some(t) &&
        loops == old(loops)[t := Loop(gen, if conv.pts.None? then AwaitList else AwaitSync(conv.pts.value))]
      ensures old(loops[t].gen == gen && loops[t].pc == Returned && !again) ==>
        conv == old(conv) && running == None && retry == old(retry) && loops == old(loops) - {t}
      ensures old(loops[t].gen == gen && loops[t].pc == Failed) ==>
        conv == old(conv) && running == None && retry && loops == old(loops) - {t}
    {
      hide Data;
      if loops[t].pc == Returned && again && loops[t].gen == gen {
        NextRound(t);
      } else {
        EndLoop(t);
      }
    }

    /** The last piece of an activation: an error of this generation arms the retry, and `running` lets go of it. */
    method EndLoop(t: nat)
      requires Valid() && t in loops && !Waiting(loops[t].pc) && !(loops[t].pc == Returned && again && loops[t].gen == gen)
      modifies this`running, this`loops, this`retry
      ensures Valid()
      ensures loops == old(loops) - {t} && running == (if old(running) == Some(t) then None else old(running))
      ensures retry == (old(retry) || old(loops[t].pc == Failed && loops[t].gen == gen))
    {
      hide Data;
      if loops[t].pc == Failed && loops[t].gen == gen { retry := true; }
      if running == Some(t) { running := None; }
      loops := loops - {t};
    }

    /** The retry timer fires. */
    method RetryFires()
      requires Valid() && retry
      modifies this`conv, this`running, this`again, this`loops, this`nextId, this`owed, this`retry
      ensures Valid() && !retry
      ensures convActive ==> running.Some?
    {
      hide Data;
      retry := false;
      RunSync(true);
    }

    // ----- what a reply does to the conversations -----

    method TakeListReply(res: ListReply)
      requires Data() && res.pts <= |J| && conv.phase != Live_
      modifies this`conv, this`sound, this`known, this`log, this`heard
      ensures Data() && conv == ApplyList(old(conv), res) && log == old(log) + [Snapshot(res.pts)] && heard == Hearing(conv, [])
      ensures W() == AfterList(old(W()), res)
    {
      ListKeepsWorld(W(), res);
      ReachStep(log, Snapshot(res.pts));
      ghost var next := AfterList(W(), res);
      var r := SyncLoops.ApplyListByLoop(conv, res);
      BufferAfterEvent(J, conv, r, received);
      hide WorldOk, Remembers, BufferOk, Reach, ListedSummaries, ListedNumbers, SoundAfterList;
      conv := r;
      known, sound := next.known, next.sound;
      log, heard := log + [Snapshot(res.pts)], Hearing(r, []);
      HearsItself(r);
      assert W() == next;
    }

    method TakeSyncReply(since: nat, reply: SyncReply)
      requires Data() && SyncOk(J, since, reply) && conv.pts == Some(since) && conv.phase != Live_
      modifies this`conv, this`feeds, this`sound, this`known, this`log, this`heard
      ensures Data() && S() == TakeSync(old(S()), reply) && log == old(log) + [Range(since, reply.pts)]
      ensures W() == AfterSync(old(W()), reply) && conv.pts == Some(reply.pts)
      ensures heard == HearMore(old(heard), ToldOf(reply.conversations, reply.pts))
      ensures conv.phase == old(conv.phase) && conv.buffer == old(conv.buffer)
    {
      ghost var was := W();
      SyncKeepsWorld(was, since, reply);
      SyncShape(S(), reply);
      HearSync(heard, S(), reply);
      ReachStep(log, Range(since, reply.pts));
      hide WorldOk, Remembers, Reach, SyncOk, KnownAfterMessages;
      var t := TakeSyncByLoop(S(), reply);
      hide TakeSync;
      BufferAfterEvent(J, conv, t.state, received);
      hide BufferOk;
      ghost var next := AfterSync(was, reply);
      conv, feeds := t.state, t.feeds;
      known, sound := next.known, next.sound;
      log, heard := log + [Range(since, reply.pts)], HearMore(heard, ToldOf(reply.conversations, reply.pts));
      assert W() == next;
    }

    /** `resetAll` after its list: everything from scratch but the phase, the buffer and the deletions. */
    method ReplaceAll(res: ListReply)
      requires Data() && res.pts <= |J| && conv.phase != Live_
      modifies this`conv, this`feeds, this`sound, this`known, this`log, this`heard, this`received
      ensures Data() && conv == Restarted(old(conv), res) && feeds == map[] && conv.pts == Some(res.pts)
      ensures log == [Snapshot(res.pts)] && received == Numbers(conv.buffer) && heard == Hearing(conv, [])
      ensures conv.phase == old(conv.phase) && conv.buffer == old(conv.buffer)
    {
      RestartedWorld(J, conv, res);
      ReachStep([], Snapshot(res.pts));
      assert [] + [Snapshot(res.pts)] == [Snapshot(res.pts)];
      var r := SyncLoops.ApplyListByLoop(EMPTY.(phase := conv.phase, buffer := conv.buffer, gone := conv.gone), res);
      assert Lawful(J) && StateOk(J, conv);
      hide WorldOk, Remembers, ApplyList, Reach, EventOk;
      assert r == Restarted(conv, res) && r.buffer == conv.buffer && r.phase == conv.phase && r.pts == Some(res.pts) by { RestartShape(conv, res); }
      hide Restarted;
      conv, feeds, known, sound := r, map[], map[], {};
      log, heard := [Snapshot(res.pts)], Hearing(r, []);
      received := Numbers(r.buffer);
      HearsItself(r);
    }

    /** A history page, merged and cut to size. */
    method MergeLoad(c: Id, page: Page, kind: PageKind, cursor: Msg)
      requires Data() && SnapshotOk(J, c, page)
      modifies this`conv, this`feeds, this`sound, this`known
      ensures Data() && W() == AfterLoadWorld(old(W()), c, page, kind, cursor, windowed)
      ensures conv.pts == old(conv.pts) && conv.phase == old(conv.phase) && conv.buffer == old(conv.buffer)
    {
      hide WorldOk, Remembers, Reach, SnapshotOk, AfterLoadWorld, AfterLoad, BufferOk;
      LiveIsListed();
      ghost var was := W();
      LoadKeepsWorld(was, c, page, kind, cursor, windowed);
      LoadShape(S(), c, page, kind, windowed);
      LoadedWorld(was, c, page, kind, cursor, windowed);
      var t := LoadByLoop(S(), c, page, kind, windowed);
      BufferAfterEvent(J, conv, t.state, received);
      ghost var next := AfterLoadWorld(was, c, page, kind, cursor, windowed);
      conv, feeds := t.state, t.feeds;
      known, sound := next.known, next.sound;
      assert W() == next;
    }

    /** Events with the numbers right after the position, one after the other. */
    method TakeRun(evs: seq<Event>)
      requires WorldOk(W()) && Reach(log) == Some(PtsOf(conv)) && conv.pts.Some? && Remembers(heard, conv.summaries, conv.summaryPts)
      requires forall i | 0 <= i < |evs| :: EventOk(J, evs[i]) && evs[i].pts == PtsOf(conv) + 1 + i
      modifies this`conv, this`feeds, this`sound, this`known, this`log, this`heard
      ensures WorldOk(W()) && S() == TakeEvents(old(S()), evs) && conv.pts == Some(PtsOf(old(conv)) + |evs|)
      ensures Reach(log) == Some(PtsOf(conv)) && old(log) <= log
      ensures Remembers(heard, conv.summaries, conv.summaryPts) && heard == HearMore(old(heard), ToldByEvents(evs))
      ensures conv.buffer == old(conv.buffer) && conv.phase == old(conv.phase)
    {
      ghost var s0, start := S(), PtsOf(conv);
      hide WorldOk, Remembers, Reach, TakeEvent, EventOk;
      ToldByNone(heard, evs);
      var i := 0;
      while i < |evs|
        invariant 0 <= i <= |evs|
        invariant S() == TakeEvents(s0, evs[..i]) && WorldOk(W())
        invariant conv.pts == Some(start + i) && conv.buffer == s0.state.buffer && conv.phase == s0.state.phase
        invariant Reach(log) == Some(start + i) && old(log) <= log
        invariant Remembers(heard, conv.summaries, conv.summaryPts) && heard == HearMore(old(heard), ToldByEvents(evs[..i]))
      {
        TakeNext(evs[i]);
        TakeEventsStep(s0, evs, i);
        ToldByNext(old(heard), evs, i);
        i := i + 1;
      }
      assert evs[..i] == evs;
    }

    method SetBuffer(rest: seq<Event>)
      requires WorldOk(W())
      modifies this`conv
      ensures WorldOk(W()) && conv == old(conv).(buffer := rest)
    {
      QuietWorld(W(), conv.phase, rest);
      hide WorldOk;
      assert conv.(phase := conv.phase, buffer := rest) == conv.(buffer := rest);
      conv := conv.(buffer := rest);
    }

    method SetPhase(phase: Phase)
      requires WorldOk(W())
      modifies this`conv
      ensures WorldOk(W()) && conv == old(conv).(phase := phase)
    {
      QuietWorld(W(), phase, conv.buffer);
      hide WorldOk;
      assert conv.(phase := phase, buffer := conv.buffer) == conv.(phase := phase);
      conv := conv.(phase := phase);
    }

    /** Applies the consecutive events of the buffer and sets the phase, in one step. */
    method DrainBuffer() returns (gap: bool)
      requires Data() && conv.pts.Some?
      modifies this`conv, this`feeds, this`sound, this`known, this`log, this`heard
      ensures Data() && S() == Settled(old(S()), gateway == Up)
      ensures gap == DrainPlan(PtsOf(old(conv)), old(conv.buffer)).gap
      ensures old(log) <= log && conv.pts.Some? && PtsOf(old(conv)) <= PtsOf(conv)
      ensures heard == HearMore(old(heard), ToldByEvents(DrainPlan(PtsOf(old(conv)), old(conv.buffer)).apply))
      ensures conv.phase == if gap then Syncing else if gateway == Up then Live_ else Idle
      ensures Drained(old(conv.buffer), conv, gateway == Up)
    {
      hide WorldOk, Remembers, Reach, EventOk, BufferOk, DrainPlan, TakeEvents, MaximalRun;
      ghost var was := conv;
      PlanIsMaximal(J, conv, received);
      var apply, rest;
      apply, rest, gap := SyncLoops.DrainPlanByLoop(PtsOf(conv), conv.buffer);
      RunIsNext(J, PtsOf(conv), conv.buffer, Plan(apply, rest, gap));
      SetBuffer(rest);
      TakeRun(apply);
      SetPhase(if gap then Syncing else if gateway == Up then Live_ else Idle);
      SettledBuffer(J, was, conv, received, Plan(apply, rest, gap));
      DrainedBy(was, conv, Plan(apply, rest, gap), gateway == Up);
    }

    /** One event with the next number. */
    method TakeNext(ev: Event)
      requires WorldOk(W()) && EventOk(J, ev) && Reach(log) == Some(PtsOf(conv)) && ev.pts == PtsOf(conv) + 1
      requires Remembers(heard, conv.summaries, conv.summaryPts)
      modifies this`conv, this`feeds, this`sound, this`known, this`log, this`heard
      ensures WorldOk(W()) && S() == TakeEvent(old(S()), ev) && log == old(log) + [One(ev.pts)] && W() == AfterEvent(old(W()), ev)
      ensures Remembers(heard, conv.summaries, conv.summaryPts) && heard == HearMore(old(heard), [Told(ev.standing, ev.pts)])
      ensures conv.pts == Some(ev.pts) && Reach(log) == Some(ev.pts) && conv.buffer == old(conv.buffer) && conv.phase == old(conv.phase)
    {
      ghost var was := W();
      EventKeepsWorld(was, ev);
      EventShape(S(), ev);
      HearEvent(heard, S(), ev);
      ReachStep(log, One(ev.pts));
      hide WorldOk, Remembers, Reach, EventOk, TakeEvent;
      var t := TakeEvent(S(), ev);
      conv, feeds := t.state, t.feeds;
      known, sound := AfterEvent(was, ev).known, AfterEvent(was, ev).sound;
      log, heard := log + [One(ev.pts)], HearMore(heard, [Told(ev.standing, ev.pts)]);
    }

    // ----- the replies a loop waits for -----

    lemma CurrentRuns(t: nat)
      requires OneLoop() && t in loops && loops[t].gen == gen
      ensures running == Some(t)
    {
    }

    /** The activation moves on to its next await. */
    method SetPc(t: nat, pc: Pc)
      requires OneLoop() && t in loops
      modifies this`loops
      ensures OneLoop() && loops == old(loops)[t := Loop(old(loops[t].gen), pc)]
    {
      loops := loops[t := Loop(loops[t].gen, pc)];
    }

    /** The drain at the end of `syncOnce`; a gap asks for one more round. */
    method Settle(t: nat)
      requires Base() && running == Some(t) && t in loops && conv.pts.Some? && (owed ==> retry || again)
      modifies this`conv, this`feeds, this`sound, this`known, this`log, this`heard, this`loops, this`again, this`owed
      ensures Core() && NotStuck() && S() == Settled(old(S()), gateway == Up) && old(log) <= log
      ensures loops == old(loops)[t := Loop(old(loops[t].gen), Returned)]
      ensures again == (old(again) || DrainPlan(PtsOf(old(conv)), old(conv.buffer)).gap)
      ensures heard == HearMore(old(heard), ToldByEvents(DrainPlan(PtsOf(old(conv)), old(conv.buffer)).apply))
      ensures Drained(old(conv.buffer), conv, gateway == Up)
    {
      hide Data, OneLoop, Settled, DrainPlan, W, Drained;
      var gap := DrainBuffer();
      if gap { again, owed := true, true; }
      SetPc(t, Returned);
    }

    /** A reply to a request of an earlier generation: the activation ends, and that is all. */
    method Outdated(t: nat)
      requires Valid() && t in loops && loops[t].gen != gen
      modifies this`loops
      ensures Valid() && loops == old(loops)[t := Loop(old(loops[t].gen), Returned)]
    {
      hide Data;
      loops := loops[t := Loop(loops[t].gen, Returned)];
    }

    /** The full list arrives, for a store that had none when it asked. */
    method ListArrives(t: nat, res: ListReply)
      requires Valid() && t in loops && loops[t].pc == AwaitList && (loops[t].gen == gen ==> res.pts <= |J|)
      modifies this`conv, this`feeds, this`sound, this`known, this`log, this`heard, this`loops, this`again, this`owed
      ensures Valid() && loops == old(loops)[t := Loop(old(loops[t].gen), Returned)]
      ensures old(loops[t].gen != gen) ==>
        S() == old(S()) && log == old(log) && heard == old(heard) && again == old(again) && owed == old(owed)
      ensures old(loops[t].gen == gen) ==>
        S() == Settled(Sys(ApplyList(old(conv), res), old(feeds)), gateway == Up) && old(log) + [Snapshot(res.pts)] <= log &&
        heard.base == ApplyList(old(conv), res) && heard.told == ToldByEvents(DrainPlan(PtsOf(heard.base), heard.base.buffer).apply) &&
        Drained(old(conv.buffer), conv, gateway == Up)
    {
      hide Drained, Data, Settled, AfterList, ListedSummaries, ListedNumbers, OneLoop, Polled, DrainPlan;
      if loops[t].gen != gen {
        Outdated(t);
      } else {
        CurrentRuns(t);
        TakeListReply(res);
        Settle(t);
      }
    }

    /** A catch-up reply arrives; `more` asks for the next part from its number. */
    method SyncArrives(t: nat, since: nat, reply: SyncReply)
      requires Valid() && t in loops && loops[t].pc == AwaitSync(since) && (loops[t].gen == gen ==> SyncOk(J, since, reply))
      modifies this`conv, this`feeds, this`sound, this`known, this`log, this`heard, this`loops
      ensures Valid()
      ensures old(loops[t].gen != gen) ==>
        S() == old(S()) && log == old(log) && heard == old(heard) && loops == old(loops)[t := Loop(old(loops[t].gen), Returned)]
      ensures old(loops[t].gen == gen) ==>
        S() == TakeSync(old(S()), reply) && log == old(log) + [Range(since, reply.pts)] &&
        heard == HearMore(old(heard), ToldOf(reply.conversations, reply.pts)) &&
        loops == old(loops)[t := Loop(gen, if reply.more then AwaitSync(reply.pts) else AwaitPeers)]
    {
      hide Data, SyncOk, TakeSync, AfterSync, OneLoop, Polled;
      if loops[t].gen != gen {
        Outdated(t);
      } else {
        CurrentRuns(t);
        TakeSyncReply(since, reply);
        SetPc(t, if reply.more then AwaitSync(reply.pts) else AwaitPeers);
      }
    }

    /** The server says its journal does not reach back that far: the loop asks for the list. */
    method ResetArrives(t: nat)
      requires Valid() && t in loops && loops[t].pc.AwaitSync?
      modifies this`loops
      ensures Valid()
      ensures loops == old(loops)[t := Loop(old(loops[t].gen), if old(loops[t].gen != gen) then Returned else AwaitResetList)]
    {
      hide Data, OneLoop, Polled;
      if loops[t].gen != gen {
        Outdated(t);
      } else {
        CurrentRuns(t);
        SetPc(t, AwaitResetList);
      }
    }

    /** The list after a reset: everything is replaced, and the open conversation is asked for again. */
    method ResetListArrives(t: nat, res: ListReply, open: Option<Id>)
      requires Valid() && t in loops && loops[t].pc == AwaitResetList && (loops[t].gen == gen ==> res.pts <= |J|)
      modifies this`conv, this`feeds, this`sound, this`known, this`log, this`heard, this`received, this`loops
      ensures Valid()
      ensures old(loops[t].gen != gen) ==>
        W() == old(W()) && log == old(log) && heard == old(heard) && received == old(received) &&
        loops == old(loops)[t := Loop(old(loops[t].gen), Returned)]
      ensures old(loops[t].gen == gen) ==>
        S() == Sys(Restarted(old(conv), res), map[]) && log == [Snapshot(res.pts)] && received == Numbers(conv.buffer) &&
        heard == Hearing(conv, []) &&
        loops == old(loops)[t := Loop(gen, if open.Some? then AwaitResetPage(open.value) else AwaitPeers)]
      // Of what was there before only the phase, the buffer and the deletions are left.
      ensures old(loops[t].gen == gen) ==>
        conv.pts == Some(res.pts) && conv.phase == old(conv.phase) && conv.buffer == old(conv.buffer) && conv.gone == old(conv.gone) &&
        conv.windows == map[] && conv.msgPts == map[] && conv.pins == map[] && conv.scheduled == map[] &&
        (forall id :: id in conv.summaries <==> exists x :: InList(res, id, x)) &&
        (forall id | id in conv.summaries :: InList(res, id, conv.summaries[id]) && id in conv.summaryPts && conv.summaryPts[id] == res.pts)
    {
      ghost var was := conv;
      RestartExactly(was, res);
      hide Data, Restarted, OneLoop, Polled;
      if loops[t].gen != gen {
        Outdated(t);
      } else {
        CurrentRuns(t);
        ReplaceAll(res);
        SetPc(t, if open.Some? then AwaitResetPage(open.value) else AwaitPeers);
      }
    }

    /** The last page of the open conversation after a reset, or its failure, which is ignored. */
    method ResetPageArrives(t: nat, reply: Option<Page>)
      requires Valid() && t in loops && loops[t].pc.AwaitResetPage?
      requires loops[t].gen == gen && reply.Some? ==> SnapshotOk(J, loops[t].pc.c, reply.value)
      modifies this`conv, this`feeds, this`sound, this`known, this`loops
      ensures Valid()
      ensures loops == old(loops)[t := Loop(old(loops[t].gen), if old(loops[t].gen != gen) then Returned else AwaitPeers)]
      ensures old(loops[t].gen == gen) && reply.Some? ==>
        W() == AfterLoadWorld(old(W()), old(loops[t].pc.c), reply.value, Latest, NO_CURSOR, windowed)
      ensures old(loops[t].gen != gen) || reply.None? ==> W() == old(W())
    {
      hide Data, SnapshotOk, AfterLoadWorld, OneLoop, Polled;
      if loops[t].gen != gen {
        Outdated(t);
      } else {
        CurrentRuns(t);
        if reply.Some? { MergeLoad(loops[t].pc.c, reply.value, Latest, NO_CURSOR); }
        SetPc(t, AwaitPeers);
      }
    }

    /** The last await of a catch-up is over, answered or not: the buffer is drained. */
    method PeersDone(t: nat)
      requires Valid() && t in loops && loops[t].pc == AwaitPeers
      modifies this`conv, this`feeds, this`sound, this`known, this`log, this`heard, this`loops, this`again, this`owed
      ensures Valid() && loops == old(loops)[t := Loop(old(loops[t].gen), Returned)]
      ensures old(loops[t].gen != gen) ==>
        S() == old(S()) && log == old(log) && heard == old(heard) && again == old(again) && owed == old(owed)
      ensures old(loops[t].gen == gen) ==>
        S() == Settled(old(S()), gateway == Up) && old(log) <= log &&
        heard == HearMore(old(heard), ToldByEvents(DrainPlan(PtsOf(old(conv)), old(conv.buffer)).apply)) &&
        Drained(old(conv.buffer), conv, gateway == Up)
    {
      hide Drained, Data, Settled, OneLoop, Polled, DrainPlan;
      if loops[t].gen != gen {
        Outdated(t);
      } else {
        CurrentRuns(t);
        Settle(t);
      }
    }

    // ----- live events -----

    method NoteReceived(n: nat)
      requires Data() && n <= PtsOf(conv)
      modifies this`received
      ensures Data() && received == old(received) + {n}
    {
      received := received + {n};
    }

    method AddToBuffer(ev: Event, gap: bool)
      requires Data() && EventOk(J, ev) && (gap || conv.phase != Live_)
      modifies this`conv, this`received
      ensures Data() && received == old(received) + {ev.pts}
      ensures conv == Kept(old(conv), ev, gap)
    {
      var buffer, phase := BufferEvent(conv.buffer, ev), if gap then Syncing else conv.phase;
      BufferEventKeeps(conv.buffer, ev);
      QuietWorld(W(), phase, buffer);
      BufferAdded(J, conv, received, ev, buffer, phase);
      hide WorldOk, Remembers, BufferOk, Reach, BufferEvent;
      assert conv.(phase := phase, buffer := buffer) == conv.(buffer := buffer, phase := phase);
      conv := conv.(phase := phase, buffer := buffer);
      received := received + {ev.pts};
    }

    method ApplyNow(ev: Event)
      requires Data() && EventOk(J, ev) && conv.phase == Live_ && ev.pts == PtsOf(conv) + 1
      modifies this`conv, this`feeds, this`sound, this`known, this`log, this`heard, this`received
      ensures Data() && S() == TakeEvent(old(S()), ev) && log == old(log) + [One(ev.pts)] && received == old(received) + {ev.pts}
      ensures heard == HearMore(old(heard), [Told(ev.standing, ev.pts)])
      ensures conv.pts == Some(ev.pts) && conv.phase == Live_ && conv.buffer == []
    {
      ghost var was := conv;
      TakeNext(ev);
      hide WorldOk, Remembers, Reach, TakeEvent, AfterEvent, EventOk;
      BufferAfterEvent(J, was, conv, received);
      NoteReceived(ev.pts);
    }

    /** While the store is not live an event waits in the buffer. */
    method HoldPushed(ev: Event)
      requires Valid() && EventOk(J, ev) && conv.phase != Live_
      modifies this`conv, this`received
      ensures Valid() && received == old(received) + {ev.pts} && conv == Kept(old(conv), ev, false)
    {
      hide Data, OneLoop, Polled, EventOk, BufferEvent;
      AddToBuffer(ev, false);
    }

    /** An event that shows a gap waits in the buffer, and a catch-up is forced. */
    method BridgeGap(ev: Event)
      requires Valid() && convActive && EventOk(J, ev)
      modifies this`conv, this`received, this`running, this`again, this`loops, this`nextId, this`owed
      ensures Valid() && received == old(received) + {ev.pts} && conv == Kept(old(conv), ev, true)
      ensures running.Some? && (old(running).Some? ==> running == old(running) && again && owed && loops == old(loops))
    {
      hide Data, OneLoop, Polled, EventOk, BufferEvent;
      AddToBuffer(ev, true);
      RunSync(true);
    }

    method ApplyPushed(ev: Event)
      requires Valid() && EventOk(J, ev) && conv.phase == Live_ && ev.pts == PtsOf(conv) + 1
      modifies this`conv, this`feeds, this`sound, this`known, this`log, this`heard, this`received
      ensures Valid() && S() == TakeEvent(old(S()), ev) && log == old(log) + [One(ev.pts)] && received == old(received) + {ev.pts}
      ensures heard == HearMore(old(heard), [Told(ev.standing, ev.pts)]) && conv.phase == Live_ && conv.pts == Some(ev.pts) && conv.buffer == []
    {
      hide Data, OneLoop, Polled, EventOk, TakeEvent;
      ApplyNow(ev);
    }

    method SkipPushed(n: nat)
      requires Valid() && n <= PtsOf(conv)
      modifies this`received
      ensures Valid() && received == old(received) + {n}
    {
      hide Data, OneLoop, Polled;
      NoteReceived(n);
    }

    /** A pushed event that the store can place: old, the next one, or beyond a gap. */
    method PlacePushed(ev: Event)
      requires Valid() && convActive && EventOk(J, ev) && conv.phase == Live_
      modifies this`conv, this`feeds, this`sound, this`known, this`log, this`heard, this`received
      modifies this`running, this`again, this`loops, this`nextId, this`owed
      ensures Valid() && S() == Pushed(old(S()), ev) && received == old(received) + {ev.pts}
      ensures log == old(log) + PushedTakes(old(conv), ev)
      ensures ev.pts <= PtsOf(old(conv)) + 1 ==> loops == old(loops) && again == old(again) && running == old(running)
      ensures ev.pts <= PtsOf(old(conv)) ==>
        S() == old(S()) && known == old(known) && sound == old(sound) && log == old(log) && heard == old(heard)
      ensures ev.pts == PtsOf(old(conv)) + 1 ==>
        conv.pts == Some(ev.pts) && conv.phase == Live_ && conv.buffer == [] && log == old(log) + [One(ev.pts)] &&
        heard == HearMore(old(heard), [Told(ev.standing, ev.pts)])
      ensures ev.pts > PtsOf(old(conv)) + 1 ==>
        ev.pts in Numbers(conv.buffer) && conv.phase == Syncing && conv.pts == old(conv).pts && feeds == old(feeds) && log == old(log) &&
        heard == old(heard) && running.Some? && (old(running).Some? ==> again && owed && loops == old(loops))
    {
      hide Valid, EventOk, TakeEvent, Kept, W, EventDecision, Pushed, PushedTakes;
      LiveHasPosition();
      LivePlaces(conv, feeds, ev);
      assert log + [] == log;
      if ev.pts <= PtsOf(conv) {
        SkipPushed(ev.pts);
      } else if ev.pts == PtsOf(conv) + 1 {
        ApplyPushed(ev);
      } else {
        BridgeGap(ev);
        KeptHas(old(conv), ev, true);
      }
    }

    /** A pushed event: applied if it is the next one, dropped if it is old, else kept; a gap forces a catch-up. */
    method ConvOnChange(ev: Event)
      requires Valid() && EventOk(J, ev)
      modifies this`conv, this`feeds, this`sound, this`known, this`log, this`heard, this`received
      modifies this`running, this`again, this`loops, this`nextId, this`owed
      ensures Valid()
      ensures !convActive ==> S() == old(S()) && log == old(log) && running == old(running) && loops == old(loops)
      ensures convActive ==> S() == Pushed(old(S()), ev) && received == old(received) + {ev.pts}
      ensures convActive ==> log == old(log) + PushedTakes(old(conv), ev)
      ensures convActive && EventDecision(old(conv), ev.pts) != Gap ==> loops == old(loops) && again == old(again)
      ensures convActive && EventDecision(old(conv), ev.pts) == Gap ==>
        running.Some? && (old(running).Some? ==> again && owed && loops == old(loops))
      // In a live store the next event is taken at once and asks for nothing.
      ensures convActive && old(conv).phase == Live_ && ev.pts == PtsOf(old(conv)) + 1 ==>
        conv.pts == Some(ev.pts) && conv.phase == Live_ && conv.buffer == [] && log == old(log) + [One(ev.pts)] &&
        heard == HearMore(old(heard), [Told(ev.standing, ev.pts)]) && running == old(running) && again == old(again) && loops == old(loops)
      // An old one changes nothing.
      ensures convActive && old(conv).phase == Live_ && ev.pts <= PtsOf(old(conv)) ==>
        S() == old(S()) && known == old(known) && sound == old(sound) && log == old(log) && heard == old(heard) &&
        running == old(running) && again == old(again) && loops == old(loops)
      // One beyond the next is kept, and a catch-up that starts from now on is sure to come.
      ensures convActive && old(conv).phase == Live_ && ev.pts > PtsOf(old(conv)) + 1 ==>
        ev.pts in Numbers(conv.buffer) && conv.phase == Syncing && conv.pts == old(conv).pts && feeds == old(feeds) && log == old(log) &&
        heard == old(heard) && running.Some? && (old(running).Some? ==> again && owed)
      // In a store that is not live it is kept, whatever its number, and nothing else happens.
      ensures convActive && old(conv).phase != Live_ ==>
        ev.pts in Numbers(conv.buffer) && conv.phase == old(conv).phase && conv.pts == old(conv).pts && feeds == old(feeds) &&
        log == old(log) && heard == old(heard) && running == old(running) && again == old(again) && loops == old(loops)
    {
      hide Valid, EventOk, TakeEvent, Kept, W, EventDecision, PushedTakes, Pushed;
      BufferedIsNotLive(ev.pts);
      LiveDecides(ev.pts);
      BufferedIsKept(conv, feeds, ev);
      if convActive {
        if conv.phase != Live_ {
          HoldPushed(ev);
          KeptHas(old(conv), ev, false);
        } else {
          PlacePushed(ev);
        }
      }
    }

    /** A live store can place every event. */
    lemma LiveDecides(n: nat)
      requires Valid()
      ensures EventDecision(conv, n) == if conv.phase != Live_ then Buffer
        else if n <= PtsOf(conv) then Skip else if n == PtsOf(conv) + 1 then Apply else Gap
    {
      LiveIsListed();
      hide Data;
    }

    lemma BufferedIsNotLive(n: nat)
      requires Valid()
      ensures EventDecision(conv, n) == Buffer ==> conv.phase != Live_
    {
      LiveIsListed();
    }

    lemma LiveHasPosition()
      requires Valid()
      ensures conv.phase == Live_ ==> conv.pts.Some? && conv.buffer == []
    {
      LiveIsListed();
      hide Data;
    }

    lemma LiveIsListed()
      requires Data()
      ensures conv.phase == Live_ ==> conv.pts.Some? && conv.buffer == []
    {
    }

    // ----- the gateway -----

    /** The gateway is ready: the poll goes, and a catch-up starts after this moment even if one is running. */
    method ConvOnReady()
      requires Valid() && convActive
      modifies this`conv, this`running, this`again, this`loops, this`nextId, this`owed, this`gateway, this`poll
      ensures Valid() && gateway == Up && !poll && running.Some?
      ensures old(running).Some? ==> S() == old(S()) && again && owed && loops == old(loops)
      ensures old(running).None? ==> conv == old(conv).(phase := Syncing) && !again && !owed && running == Some(old(nextId))
    {
      hide Data, OneLoop;
      gateway, poll := Up, false;
      RunSync(true);
    }

    /** The gateway is lost: what is in memory is live no longer, and from now on the store polls. */
    method ConvOnGatewayLost()
      requires Valid() && convActive
      modifies this`conv, this`running, this`again, this`loops, this`nextId, this`owed, this`gateway, this`poll
      ensures Valid() && gateway == Down && conv.phase != Live_ && poll && feeds == old(feeds)
      ensures old(poll) ==> running == old(running) && loops == old(loops)
      ensures !old(poll) ==> running.Some? && (old(running).Some? ==> loops == old(loops))
    {
      hide Data, OneLoop;
      gateway := Down;
      if conv.phase == Live_ { GoIdle(); }
      if !poll {
        RunSync(false);
        poll := true;
      }
    }

    method GoIdle()
      requires Data()
      modifies this`conv
      ensures Data() && conv == old(conv).(phase := Idle)
    {
      ghost var was := conv;
      SetPhase(Idle);
      hide WorldOk, Remembers, Reach, Remembers;
      BufferAfterEvent(J, was, conv, received);
    }

    /** The poll timer fires: a catch-up, whose end arms the next poll. */
    method PollFires()
      requires Valid() && poll
      modifies this`conv, this`running, this`again, this`loops, this`nextId, this`owed, this`poll, this`pollWaits
      ensures Valid() && !poll
      ensures gateway == Down && convActive ==> running.Some? && pollWaits == old(pollWaits)[running.value := gen]
      ensures !(gateway == Down && convActive) ==> S() == old(S()) && loops == old(loops) && pollWaits == old(pollWaits)
    {
      hide Data, OneLoop;
      poll := false;
      if gateway == Down && convActive {
        RunSync(false);
        pollWaits := pollWaits[running.value := gen];
        assert running.value in pollWaits;
      }
    }

    /** The catch-up that a poll waited for is over. */
    method PollEnds(t: nat)
      requires Valid() && t in pollWaits && t !in loops
      modifies this`poll, this`pollWaits
      ensures Valid() && pollWaits == old(pollWaits) - {t}
      ensures poll == (old(poll) || (old(pollWaits)[t] == gen && gateway == Down))
    {
      hide Data, OneLoop;
      ghost var was := pollWaits;
      if pollWaits[t] == gen && !poll && gateway == Down { poll := true; }
      pollWaits := pollWaits - {t};
      assert forall w | w in was && w != t :: w in pollWaits && pollWaits[w] == was[w];
    }

    /** The list is asked for by the interface. */
    method ConvEnsureList()
      requires Valid()
      modifies this`conv, this`running, this`again, this`loops, this`nextId, this`owed
      ensures Valid()
      ensures convActive && (conv.pts.None? || gateway == Down) ==> running.Some?
    {
      hide Data, OneLoop, Polled;
      if conv.pts.None? || gateway == Down { RunSync(false); }
    }

    // ----- the mode, sign-out, the record on disk -----

    /** The server turns out to have conversations. */
    method Activate()
      requires Valid() && !convActive
      modifies this`convActive
      ensures Valid() && convActive
    {
      hide Data, OneLoop;
      convActive := true;
    }

    /** A new generation: whatever is still on its way finds nothing to change. */
    method ConvReset()
      requires Valid()
      modifies this`conv, this`running, this`again, this`retry, this`poll, this`gen, this`gateway
      modifies this`known, this`sound, this`log, this`heard, this`received, this`owed
      ensures Valid() && gen == old(gen) + 1 && conv == EMPTY && running.None? && !retry && !poll && !again && gateway == Unknown
      ensures log == [] && received == {} && !owed && heard == Hearing(EMPTY, [])
      ensures forall t | t in loops :: loops[t].gen < gen
    {
      hide Data, OneLoop, W;
      ForgetAll();
      NextGeneration();
      gateway, poll := Unknown, false;
    }

    method NextGeneration()
      requires OneLoop()
      modifies this`running, this`again, this`retry, this`gen, this`owed
      ensures OneLoop() && gen == old(gen) + 1 && running.None? && !again && !retry && !owed
      ensures forall t | t in loops :: loops[t].gen < gen
    {
      gen, again, running, retry, owed := gen + 1, false, None, false, false;
    }

    method ForgetAll()
      requires Data()
      modifies this`conv, this`known, this`sound, this`log, this`heard, this`received
      ensures Data() && conv == EMPTY && log == [] && received == {} && heard == Hearing(EMPTY, [])
    {
      EmptyWorld(W());
      assert BufferOk(J, EMPTY, {});
      hide WorldOk, Remembers, BufferOk;
      conv, known, sound, log, received := EMPTY, map[], {}, [], {};
      heard := Hearing(EMPTY, []);
      HearsItself(EMPTY);
    }

    /** Signing out, or going to another instance, whose journal is another one. */
    method SwitchAway(ghost journal: seq<Change>)
      requires Valid() && Lawful(journal)
      modifies this`conv, this`running, this`again, this`retry, this`poll, this`gen, this`gateway
      modifies this`known, this`sound, this`log, this`heard, this`received, this`owed, this`feeds, this`convActive, this`J
      ensures Valid() && gen == old(gen) + 1 && conv == EMPTY && feeds == map[] && J == journal && !convActive && running.None?
    {
      ConvReset();
      feeds, convActive := map[], false;
      J := journal;
      EmptyWorld(World(J, map[], {}, Sys(EMPTY, map[])));
    }

    /** The record from disk, if no list has come yet. The buffer and the deletions noted so far are replaced by its own. */
    method ConvHydrate(rec: Cache.Record, ghost good: set<Id>)
      requires Valid() && RecordOk(J, rec, good)
      modifies this`conv, this`feeds, this`sound, this`known, this`log, this`heard, this`received
      ensures Valid()
      ensures old(conv.pts).Some? ==> S() == old(S()) && log == old(log) && received == old(received) && heard == old(heard)
      ensures old(conv.pts).None? ==>
        S() == Hydrated(old(S()), rec) && sound == good && log == [Snapshot(rec.pts)] && received == {} && heard == Hearing(conv, [])
      // The state is the record's; of feeds the record has none of its own for, what was opened meanwhile stays.
      ensures old(conv.pts).None? ==>
        conv == Cache.HydrateState(rec).state && feeds.Keys == old(feeds).Keys + Cache.HydrateState(rec).feeds.Keys &&
        (forall c | c in Cache.HydrateState(rec).feeds :: feeds[c] == Cache.HydrateState(rec).feeds[c]) &&
        forall c | c in feeds && c !in Cache.HydrateState(rec).feeds :: feeds[c] == old(feeds)[c]
    {
      HydratedParts(S(), rec);
      hide Valid, Hydrated, RecordOk;
      if conv.pts.None? { FirstFrame(rec, good); }
    }

    method FirstFrame(rec: Cache.Record, ghost good: set<Id>)
      requires Valid() && RecordOk(J, rec, good) && conv.pts.None?
      modifies this`conv, this`feeds, this`sound, this`known, this`log, this`heard, this`received
      ensures Valid() && S() == Hydrated(old(S()), rec) && sound == good && log == [Snapshot(rec.pts)] && received == {}
      ensures heard == Hearing(conv, [])
    {
      hide Data, OneLoop, Polled, Hydrated, RecordOk, W, LoopOk, DebtOk, NotStuck, S;
      LiveIsListed();
      NoPosition();
      TakeRecord(rec, good);
      NotLiveYet();
      assert OneLoop() && Polled();
    }

    /** A loop that runs before there is a position waits for the list. */
    lemma NoPosition()
      requires LoopOk() && DebtOk() && conv.pts.None? && conv.phase != Live_
      ensures running.Some? && running.value in loops ==>
        var pc := loops[running.value].pc; !pc.AwaitSync? && !pc.AwaitPeers? && !pc.AwaitResetPage?
      ensures running.Some? && running.value in loops && loops[running.value].pc == Returned && gateway == Up ==> again
      ensures owed ==> retry || (running.Some? && again)
      ensures NotStuck() ==> (convActive && gateway == Up ==> running.Some? || retry)
    {
    }

    lemma NotLiveYet()
      requires conv.phase != Live_
      requires running.Some? && running.value in loops ==>
        var pc := loops[running.value].pc; !pc.AwaitSync? && !pc.AwaitPeers? && !pc.AwaitResetPage?
      requires running.Some? && running.value in loops && loops[running.value].pc == Returned && gateway == Up ==> again
      requires owed ==> retry || (running.Some? && again)
      requires convActive && gateway == Up ==> running.Some? || retry
      ensures LoopOk() && DebtOk() && NotStuck()
    {
    }

    method TakeRecord(rec: Cache.Record, ghost good: set<Id>)
      requires Data() && RecordOk(J, rec, good)
      modifies this`conv, this`feeds, this`sound, this`known, this`log, this`heard, this`received
      ensures Data() && S() == Hydrated(old(S()), rec) && sound == good
      ensures log == [Snapshot(rec.pts)] && received == {} && conv.phase == Idle && conv.pts == Some(rec.pts) && heard == Hearing(conv, [])
    {
      ghost var next := AfterRecord(W(), rec, good);
      RecordKeepsWorld(W(), rec, good);
      Cache.HydrateShape(rec);
      ReachStep([], Snapshot(rec.pts));
      assert [] + [Snapshot(rec.pts)] == [Snapshot(rec.pts)];
      var h := Cache.HydrateByLoop(rec);
      hide WorldOk, Remembers, Reach, Cache.HydrateState;
      conv, feeds := h.state, feeds + h.feeds;
      known, sound, log, received := next.known, good, [Snapshot(rec.pts)], {};
      heard := Hearing(conv, []);
      HearsItself(conv);
      assert W() == next;
    }

    // ----- history -----

    /** A page is asked for: the last one, one around a place, or one beyond an edge of the window. */
    method AskPage(c: Id, kind: PageKind) returns (asked: bool)
      requires Valid()
      modifies this`requests, this`nextId
      ensures Valid() && asked == (kind == Latest || kind == Jump || (c in feeds && feeds[c] != []))
      ensures asked ==> nextId == old(nextId) + 1 && requests == old(requests)[old(nextId) := Request(gen, c, kind,
        if kind == Older then Some(feeds[c][0]) else if kind == Newer then Some(feeds[c][|feeds[c]| - 1]) else None)]
      ensures !asked ==> requests == old(requests) && nextId == old(nextId)
    {
      hide Data;
      asked := kind == Latest || kind == Jump || (c in feeds && feeds[c] != []);
      if asked {
        var cursor := if kind == Older then Some(feeds[c][0]) else if kind == Newer then Some(feeds[c][|feeds[c]| - 1]) else None;
        requests := requests[nextId := Request(gen, c, kind, cursor)];
        nextId := nextId + 1;
      }
    }

    /** A page arrives: dropped if it was asked for in another generation or if the edge it was asked from is no longer the edge. */
    method PageArrives(q: nat, page: Page)
      requires Valid() && q in requests && (requests[q].gen == gen ==> SnapshotOk(J, requests[q].c, page))
      modifies this`conv, this`feeds, this`sound, this`known, this`requests
      ensures Valid() && requests == old(requests) - {q}
      ensures old(requests[q]).gen != gen || !EdgeUnchanged(FeedOf(old(feeds), old(requests[q]).c), old(requests[q]).kind, CursorOf(old(requests[q]))) ==>
        W() == old(W())
      ensures old(requests[q]).gen == gen && EdgeUnchanged(FeedOf(old(feeds), old(requests[q]).c), old(requests[q]).kind, CursorOf(old(requests[q]))) ==>
        W() == AfterLoadWorld(old(W()), old(requests[q]).c, page, old(requests[q]).kind, CursorOf(old(requests[q])), windowed)
      // In this generation: a last page and a jump always, a page beyond an edge if that message is still at the edge.
      ensures old(requests[q]).gen == gen && AtEdge(old(feeds), old(requests[q])) ==>
        S() == AfterLoad(old(S()), old(requests[q]).c, page, old(requests[q]).kind, windowed)
      ensures old(requests[q]).gen != gen || !AtEdge(old(feeds), old(requests[q])) ==> S() == old(S())
    {
      hide Data, OneLoop, Polled, SnapshotOk, AfterLoadWorld, AfterLoad;
      AtEdgeIs(feeds, requests[q]);
      LoadedWorld(W(), requests[q].c, page, requests[q].kind, CursorOf(requests[q]), windowed);
      hide AtEdge;
      var r := requests[q];
      requests := requests - {q};
      if r.gen == gen && EdgeUnchanged(FeedOf(feeds, r.c), r.kind, CursorOf(r)) {
        hide EdgeUnchanged, FeedOf;
        MergeLoad(r.c, page, r.kind, CursorOf(r));
      }
    }

    method PageFails(q: nat)
      requires Valid() && q in requests
      modifies this`requests
      ensures Valid() && requests == old(requests) - {q}
    {
      hide Data;
      requests := requests - {q};
    }

    // ----- replies to own actions -----

    method TakeSent(m: Msg, at: int)
      requires Data() && SentOk(J, m)
      modifies this`conv, this`feeds, this`sound, this`known
      ensures Data() && W() == AfterSendWorld(old(W()), m, at)
      ensures conv.pts == old(conv.pts) && conv.phase == old(conv.phase) && conv.buffer == old(conv.buffer)
    {
      hide WorldOk, Remembers, Reach, SentOk, ApplySent, BufferOk, Lifted, AfterSendWorld;
      ghost var was := W();
      SendKeepsWorld(was, m, at);
      SendShape(S(), m, at);
      SendSummaries(S(), m, at);
      SendWorldIs(was, m, at);
      var r := ApplySent(conv, FeedOf(feeds, m.conv), m);
      var t := Lifted(r.state, m.conv, at);
      BufferAfterSend(J, conv, t, received);
      ghost var next := AfterSendWorld(was, m, at);
      HearLift(heard, conv, t, m.conv);
      conv, feeds := t, WithFeed(feeds, m.conv, r.list);
      known, sound := next.known, next.sound;
      assert W() == next;
    }

    method ConvAfterSend(m: Msg, at: int)
      requires Valid() && SentOk(J, m)
      modifies this`conv, this`feeds, this`sound, this`known
      ensures Valid() && W() == AfterSendWorld(old(W()), m, at)
      // The conversation stands at the time of the message in the list, if that is later; no other does.
      ensures conv.summaries.Keys == old(conv.summaries).Keys && conv.summaryPts == old(conv.summaryPts)
      ensures forall id | id in conv.summaries ::
        conv.summaries[id] == if id == m.conv && at > old(conv.summaries)[id].lastMessageAt
                              then old(conv.summaries)[id].(lastMessageAt := at) else old(conv.summaries)[id]
    {
      SendLifts(W(), m, at);
      hide Data, SentOk, OneLoop, Polled, AfterSendWorld;
      TakeSent(m, at);
    }

    method ConvAfterEdit(m: Msg)
      requires Valid() && EditOk(J, m)
      modifies this`feeds
      ensures Valid() && S() == Perform(old(S()), EditIn(m))
      // Of the feed of the message every entry takes the reply as its rule says; nothing else changes.
      ensures conv == old(conv) && feeds.Keys == old(feeds).Keys && (forall c | c in feeds && c != m.conv :: feeds[c] == old(feeds)[c])
      ensures m.conv in feeds ==> feeds[m.conv] == ApplyEdited(old(feeds)[m.conv], m)
    {
      EditKeepsWorld(W(), m);
      hide WorldOk, Remembers, Reach, EditOk, ApplyEdited, OneLoop, Polled, BufferOk;
      if m.conv in feeds { feeds := feeds[m.conv := ApplyEdited(feeds[m.conv], m)]; }
      assert S() == Perform(old(S()), EditIn(m));
    }

    method TakeRemoved(c: Id, id: Id)
      requires Data() && RemovedOk(J, c, id)
      modifies this`conv, this`feeds, this`known
      ensures Data() && S() == Perform(old(S()), RemovedIn(c, id)) && id in conv.gone
      ensures conv.pts == old(conv.pts) && conv.phase == old(conv.phase) && conv.buffer == old(conv.buffer)
    {
      ghost var was := W();
      RemovedKeepsWorld(was, c, id);
      var r := ApplyRemoved(conv, FeedOf(feeds, c), id);
      hide WorldOk, Remembers, Reach, RemovedOk, Rank, Filter, EventOk;
      BufferAfterEvent(J, conv, r.state, received);
      hide BufferOk;
      ghost var next := AfterRemoved(was, c, id);
      conv, feeds := r.state, WithFeed(feeds, c, r.list);
      known := next.known;
      assert W() == next;
    }

    method ConvAfterDelete(c: Id, id: Id)
      requires Valid() && RemovedOk(J, c, id)
      modifies this`conv, this`feeds, this`known
      ensures Valid() && S() == Perform(old(S()), RemovedIn(c, id)) && id in conv.gone
      // The message is out of its feed and remembered; nothing else changes.
      ensures conv == old(conv).(gone := old(conv).gone + {id}) && feeds.Keys == old(feeds).Keys
      ensures (forall k | k in feeds && k != c :: feeds[k] == old(feeds)[k]) &&
        (c in feeds ==> forall x :: x in feeds[c] <==> x in old(feeds)[c] && x.id != id)
    {
      RemovedShows(S(), c, id);
      hide Data, RemovedOk, OneLoop, Polled, Perform;
      TakeRemoved(c, id);
    }
  }
}
