/** Buffered events: arrival order does not matter, and a drain takes the longest consecutive run. */
module Buffering {
  import opened Feed
  import opened SyncRules

  ghost predicate Increasing(s: seq<Event>) {
    forall i, j | 0 <= i < j < |s| :: s[i].pts < s[j].pts
  }

  function Numbers(s: seq<Event>): set<nat> {
    set e | e in s :: e.pts
  }

  lemma {:induction false} InsertEventKeepsIncreasing(s: seq<Event>, e: Event)
    requires Increasing(s) && e.pts !in Numbers(s)
    ensures Increasing(InsertEvent(s, e))
  {
    if s != [] {
      var t, z := s[..|s| - 1], s[|s| - 1];
      assert z in s;
      forall x | x in t ensures x in s {}
      if e.pts < z.pts {
        InsertEventKeepsIncreasing(t, e);
        var r := InsertEvent(t, e);
        forall i | 0 <= i < |r| ensures r[i].pts < z.pts {
          assert r[i] in r;
          if r[i] in t {
            var k :| 0 <= k < |t| && t[k] == r[i];
            assert s[k] == r[i];
          }
        }
      } else {
        forall i | 0 <= i < |s| ensures s[i].pts < e.pts { assert s[i] in s; }
      }
    }
  }

  lemma {:induction false} SortEventsOfIncreasing(s: seq<Event>)
    requires Increasing(s)
    ensures SortEvents(s) == s
  {
    if s != [] {
      var t, z := s[..|s| - 1], s[|s| - 1];
      SortEventsOfIncreasing(t);
      assert s == t + [z];
      if t != [] { assert t[|t| - 1] == s[|s| - 2]; }
    }
  }

  lemma {:induction false} IncreasingUnique(a: seq<Event>, b: seq<Event>)
    requires Increasing(a) && Increasing(b)
    requires forall e :: e in a <==> e in b
    ensures a == b
  {
    assert (a != [] ==> a[0] in b) && (b != [] ==> b[0] in a);
    if a != [] && b != [] {
      assert a[0] in b && b[0] in a;
      assert a[0] == b[0];
      forall e ensures e in a[1..] <==> e in b[1..] {
        if e in a[1..] { assert e in a && e != a[0]; }
        if e in b[1..] { assert e in b && e != b[0]; }
      }
      IncreasingUnique(a[1..], b[1..]);
    }
  }

  /** One more event: the buffer stays strictly increasing and gains exactly this number, unless it is there. */
  lemma BufferEventKeeps(buffer: seq<Event>, ev: Event)
    requires Increasing(buffer)
    ensures Increasing(BufferEvent(buffer, ev))
    ensures Numbers(BufferEvent(buffer, ev)) == Numbers(buffer) + {ev.pts}
    ensures forall e :: e in BufferEvent(buffer, ev) <==> e in buffer || (e == ev && ev.pts !in Numbers(buffer))
  {
    if ev.pts !in Numbers(buffer) {
      assert buffer + [ev] == (buffer + [ev])[..|buffer|] + [ev];
      SortEventsOfIncreasing(buffer);
      assert (buffer + [ev])[..|buffer|] == buffer;
      InsertEventKeepsIncreasing(buffer, ev);
    }
  }

  /** Events buffered one after the other, in the order they arrive. */
  function BufferAll(evs: seq<Event>): seq<Event> {
    if evs == [] then [] else BufferEvent(BufferAll(evs[..|evs| - 1]), evs[|evs| - 1])
  }

  lemma {:induction false} BufferAllFacts(evs: seq<Event>)
    ensures Increasing(BufferAll(evs))
    ensures Numbers(BufferAll(evs)) == Numbers(evs)
    ensures forall e | e in BufferAll(evs) :: e in evs
  {
    hide BufferEvent;
    if evs != [] {
      var t, z := evs[..|evs| - 1], evs[|evs| - 1];
      BufferAllFacts(t);
      BufferEventKeeps(BufferAll(t), z);
      assert evs == t + [z];
      assert forall e :: e in evs <==> e in t || e == z;
    }
  }

  ghost predicate OneAnEach(evs: seq<Event>) {
    forall a, b | a in evs && b in evs && a.pts == b.pts :: a == b
  }

  /** Any two arrival orders of the same events, with any repetitions, leave the same buffer. */
  lemma ArrivalOrderIrrelevant(a: seq<Event>, b: seq<Event>)
    requires forall e :: e in a <==> e in b
    requires OneAnEach(a)
    ensures BufferAll(a) == BufferAll(b)
    ensures forall e :: e in BufferAll(a) <==> e in a
  {
    BufferAllFacts(a);
    BufferAllFacts(b);
    assert Numbers(a) == Numbers(b);
    forall e ensures e in BufferAll(a) <==> e in a {
      if e in a { assert e.pts in Numbers(BufferAll(a)); }
    }
    forall e ensures e in BufferAll(b) <==> e in b {
      if e in b { assert e.pts in Numbers(BufferAll(b)); }
    }
    IncreasingUnique(BufferAll(a), BufferAll(b));
  }

  // ----- draining -----

  /** What a drain of `sorted` from number `cur` must do. */
  ghost predicate MaximalRun(cur: nat, buffer: seq<Event>, p: Plan) {
    (forall i | 0 <= i < |p.apply| :: p.apply[i].pts == cur + 1 + i && p.apply[i] in buffer) &&
    (forall e :: e in p.rest <==> e in buffer && e.pts > cur + |p.apply|) &&
    Increasing(p.rest) &&
    cur + |p.apply| + 1 !in Numbers(buffer) &&
    (p.gap <==> p.rest != [])
  }

  lemma MaximalSkip(cur: nat, h: Event, t: seq<Event>, p: Plan)
    requires h.pts <= cur && MaximalRun(cur, t, p)
    ensures MaximalRun(cur, [h] + t, p)
  {
    assert forall e :: e in [h] + t <==> e == h || e in t;
  }

  lemma MaximalTake(cur: nat, h: Event, t: seq<Event>, p: Plan)
    requires h.pts == cur + 1 && MaximalRun(cur + 1, t, p)
    ensures MaximalRun(cur, [h] + t, Plan([h] + p.apply, p.rest, p.gap))
  {
    var s, q := [h] + t, Plan([h] + p.apply, p.rest, p.gap);
    assert forall e :: e in s <==> e == h || e in t;
    forall i | 0 <= i < |q.apply| ensures q.apply[i].pts == cur + 1 + i && q.apply[i] in s {
      if i > 0 { assert q.apply[i] == p.apply[i - 1]; }
    }
  }

  /**
   * The run applied is the longest one that starts right after `cur`; everything above it is kept, everything else is
   * dropped, and a gap is reported exactly when something is kept.
   */
  lemma {:induction false} DrainIsMaximal(cur: nat, sorted: seq<Event>)
    requires Increasing(sorted)
    ensures MaximalRun(cur, sorted, DrainSorted(cur, sorted))
    decreases |sorted|
  {
    if sorted != [] {
      var h, t := sorted[0], sorted[1..];
      assert sorted == [h] + t;
      if h.pts <= cur {
        DrainIsMaximal(cur, t);
        MaximalSkip(cur, h, t, DrainSorted(cur, t));
      } else if h.pts != cur + 1 {
        assert forall e | e in sorted :: e.pts > cur + 1;
      } else {
        DrainIsMaximal(cur + 1, t);
        MaximalTake(cur, h, t, DrainSorted(cur + 1, t));
      }
    }
  }

  lemma DrainPlanIsMaximal(pts: nat, buffer: seq<Event>)
    requires Increasing(buffer)
    ensures MaximalRun(pts, buffer, DrainPlan(pts, buffer))
    ensures (forall e | e in buffer :: e.pts <= pts) ==> DrainPlan(pts, buffer) == Plan([], [], false)
  {
    SortEventsOfIncreasing(buffer);
    DrainIsMaximal(pts, buffer);
    if forall e | e in buffer :: e.pts <= pts { NothingAbove(pts, buffer); }
    hide DrainSorted, SortEvents;
  }

  lemma {:induction false} NothingAbove(cur: nat, sorted: seq<Event>)
    requires forall e | e in sorted :: e.pts <= cur
    ensures DrainSorted(cur, sorted) == Plan([], [], false)
    decreases |sorted|
  {
    if sorted != [] {
      assert sorted[0] in sorted;
      NothingAbove(cur, sorted[1..]);
    }
  }

  // ----- lists that arrive whole -----

  datatype Reply = Reply(pts: nat, list: seq<string>)

  function TakeAll(c: Id, replies: seq<Reply>): map<Id, Numbered> {
    if replies == [] then map[]
    else Newest(TakeAll(c, replies[..|replies| - 1]), c, replies[|replies| - 1].list, replies[|replies| - 1].pts)
  }

  lemma {:induction false} TakeAllIsNewest(c: Id, replies: seq<Reply>)
    ensures replies == [] ==> c !in TakeAll(c, replies)
    ensures replies != [] ==>
      c in TakeAll(c, replies) &&
      Reply(TakeAll(c, replies)[c].pts, TakeAll(c, replies)[c].list) in replies &&
      forall r | r in replies :: r.pts <= TakeAll(c, replies)[c].pts
    ensures TakeAll(c, replies).Keys <= {c}
  {
    if replies != [] {
      var t := replies[..|replies| - 1];
      TakeAllIsNewest(c, t);
      assert replies == t + [replies[|replies| - 1]];
      assert forall r :: r in replies <==> r in t || r == replies[|replies| - 1];
    }
  }

  /** Pins and scheduled lists: whatever the order of replies and events, the one with the largest number stays. */
  lemma NewestListWins(c: Id, a: seq<Reply>, b: seq<Reply>)
    requires forall r :: r in a <==> r in b
    requires forall r, q | r in a && q in a && r.pts == q.pts :: r == q
    ensures TakeAll(c, a) == TakeAll(c, b)
  {
    hide TakeAll;
    TakeAllIsNewest(c, a);
    TakeAllIsNewest(c, b);
    assert (a != [] ==> a[0] in b) && (b != [] ==> b[0] in a);
  }
}
