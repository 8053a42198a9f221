/** The record of the conversations on disk: what a restart keeps, and why raising every number to one is sound. */
module Cache {
  import opened Feed
  import opened SyncRules
  import opened FeedSafety
  import opened Journal
  import opened Windows
  import opened WindowRules
  import opened PageMerge
  import opened Client
  import opened ClientRuns
  import Drafts
  import SyncLoops

  const SCHEMA := 1
  const CACHE_MESSAGES: nat := 50
  const CACHE_WINDOWS: nat := 20
  const CACHE_GONE: nat := 500
  const DRAFT_CUT: nat := 4000
  const MAX_SAFE := 0x1F_FFFF_FFFF_FFFF

  type Draft = Drafts.Draft

  datatype Record = Record(v: int, pts: int, summaries: seq<Summary>, messages: map<Id, seq<Msg>>, gone: seq<Id>,
                           drafts: map<Id, Draft>, draftDirty: seq<Id>)

  /** Which summaries and messages have every field that the list and the feed read unchecked. */
  datatype Checks = Checks(summary: Summary -> bool, message: Msg -> bool)

  function LastOf<T>(s: seq<T>, n: nat): seq<T> {
    if |s| <= n then s else s[|s| - n..]
  }

  function FirstOf<T>(s: seq<T>, n: nat): seq<T> {
    if |s| <= n then s else s[..n]
  }

  /** `order` lists exactly these keys, each once. */
  ghost predicate Enumerates(order: seq<Id>, keys: set<Id>) {
    (forall id :: id in order <==> id in keys) && forall i, j | 0 <= i < j < |order| :: order[i] != order[j]
  }

  // ----- building -----

  function Values(m: map<Id, Summary>, order: seq<Id>): (r: seq<Summary>)
    requires forall id | id in order :: id in m
    ensures |r| == |order| && forall i | 0 <= i < |r| :: r[i] == m[order[i]]
  {
    seq(|order|, i requires 0 <= i < |order| => m[order[i]])
  }

  function InsertRecent(s: seq<Summary>, x: Summary): (r: seq<Summary>)
    ensures |r| == |s| + 1 && forall y :: y in r <==> y in s || y == x
  {
    if s == [] then [x]
    else if s[|s| - 1].lastMessageAt < x.lastMessageAt then
      assert s == s[..|s| - 1] + [s[|s| - 1]];
      InsertRecent(s[..|s| - 1], x) + [s[|s| - 1]]
    else s + [x]
  }

  /** Newest first; equal times keep their order. */
  function ByRecency(s: seq<Summary>): (r: seq<Summary>)
    ensures |r| == |s| && forall y :: y in r <==> y in s
  {
    if s == [] then []
    else
      assert s == s[..|s| - 1] + [s[|s| - 1]];
      InsertRecent(ByRecency(s[..|s| - 1]), s[|s| - 1])
  }

  /** A window that may open the next launch: loaded, at the tail, with messages. */
  predicate Eligible(sys: Sys, id: Id) {
    id in sys.state.windows && !sys.state.windows[id].hasMoreAfter && id in sys.feeds && sys.feeds[id] != []
  }

  function Candidates(sys: Sys, s: seq<Summary>): (r: seq<Summary>)
    ensures forall y :: y in r <==> y in s && Eligible(sys, y.id)
  {
    if s == [] then []
    else
      assert s == s[..|s| - 1] + [s[|s| - 1]];
      Candidates(sys, s[..|s| - 1]) + (if Eligible(sys, s[|s| - 1].id) then [s[|s| - 1]] else [])
  }

  function Chosen(sys: Sys, s: seq<Summary>): seq<Summary> {
    FirstOf(Candidates(sys, ByRecency(s)), CACHE_WINDOWS)
  }

  /** `order` and `goneOrder` are the key orders of the two dictionaries. */
  function BuildRecord(sys: Sys, order: seq<Id>, goneOrder: seq<Id>, drafts: map<Id, Draft>, draftDirty: seq<Id>): Option<Record>
    requires forall id | id in order :: id in sys.state.summaries
  {
    if sys.state.pts.None? then None
    else
      var summaries := Values(sys.state.summaries, order);
      Some(Record(SCHEMA, sys.state.pts.value, summaries,
                  map id | id in SummaryIds(Chosen(sys, summaries)) && id in sys.feeds :: LastOf(sys.feeds[id], CACHE_MESSAGES),
                  LastOf(goneOrder, CACHE_GONE), drafts, draftDirty))
  }

  method TailsByLoop(sys: Sys, recent: seq<Summary>) returns (out: map<Id, seq<Msg>>)
    ensures out == map id | id in SummaryIds(recent) && id in sys.feeds :: LastOf(sys.feeds[id], CACHE_MESSAGES)
  {
    out := map[];
    var i := 0;
    while i < |recent|
      invariant 0 <= i <= |recent|
      invariant out == map id | id in SummaryIds(recent[..i]) && id in sys.feeds :: LastOf(sys.feeds[id], CACHE_MESSAGES)
    {
      var c := recent[i].id;
      assert SummaryIds(recent[..i + 1]) == SummaryIds(recent[..i]) + {c} by {
        assert recent[..i + 1] == recent[..i] + [recent[i]];
      }
      hide SummaryIds, LastOf;
      if c in sys.feeds { out := out[c := LastOf(sys.feeds[c], CACHE_MESSAGES)]; }
      i := i + 1;
    }
    assert recent[..i] == recent;
  }

  method BuildRecordByLoop(sys: Sys, order: seq<Id>, goneOrder: seq<Id>, drafts: map<Id, Draft>, draftDirty: seq<Id>)
    returns (r: Option<Record>)
    requires forall id | id in order :: id in sys.state.summaries
    ensures r == BuildRecord(sys, order, goneOrder, drafts, draftDirty)
  {
    if sys.state.pts.None? { return None; }
    var summaries := Values(sys.state.summaries, order);
    hide Values, Chosen;
    var out := TailsByLoop(sys, Chosen(sys, summaries));
    r := Some(Record(SCHEMA, sys.state.pts.value, summaries, out, LastOf(goneOrder, CACHE_GONE), drafts, draftDirty));
  }

  ghost predicate Descending(s: seq<Summary>) {
    forall i, j | 0 <= i < j < |s| :: s[i].lastMessageAt >= s[j].lastMessageAt
  }

  lemma {:induction false} InsertRecentDescends(s: seq<Summary>, x: Summary)
    requires Descending(s)
    ensures Descending(InsertRecent(s, x))
  {
    if s != [] && s[|s| - 1].lastMessageAt < x.lastMessageAt {
      var t, z := s[..|s| - 1], s[|s| - 1];
      InsertRecentDescends(t, x);
      var r := InsertRecent(t, x);
      forall i | 0 <= i < |r| ensures r[i].lastMessageAt >= z.lastMessageAt {
        assert r[i] in r;
        if r[i] in t { var k :| 0 <= k < |t| && t[k] == r[i]; assert s[k] == r[i]; }
      }
    }
  }

  lemma {:induction false} ByRecencyDescends(s: seq<Summary>)
    ensures Descending(ByRecency(s))
  {
    if s != [] {
      ByRecencyDescends(s[..|s| - 1]);
      InsertRecentDescends(ByRecency(s[..|s| - 1]), s[|s| - 1]);
    }
  }

  lemma {:induction false} CandidatesDescend(sys: Sys, s: seq<Summary>)
    requires Descending(s)
    ensures Descending(Candidates(sys, s))
  {
    if s != [] {
      var t, z := s[..|s| - 1], s[|s| - 1];
      CandidatesDescend(sys, t);
      var r := Candidates(sys, t);
      forall i | 0 <= i < |r| ensures r[i].lastMessageAt >= z.lastMessageAt {
        assert r[i] in r && r[i] in t;
        var k :| 0 <= k < |t| && t[k] == r[i];
        assert s[k] == r[i];
      }
    }
  }

  /**
   * At most twenty windows are chosen: loaded ones at their tail, with messages, and of these the most recently active;
   * fewer only if there are no more.
   */
  lemma ChosenAreMostRecent(sys: Sys, s: seq<Summary>)
    ensures |Chosen(sys, s)| <= 20
    ensures forall a | a in Chosen(sys, s) ::
      a in s && a.id in sys.state.windows && !sys.state.windows[a.id].hasMoreAfter && a.id in sys.feeds && sys.feeds[a.id] != []
    ensures forall b | b in s && b.id in sys.state.windows && !sys.state.windows[b.id].hasMoreAfter && b.id in sys.feeds &&
                       sys.feeds[b.id] != [] && b !in Chosen(sys, s) ::
      |Chosen(sys, s)| == 20 && forall a | a in Chosen(sys, s) :: a.lastMessageAt >= b.lastMessageAt
  {
    forall id ensures Eligible(sys, id) <==>
      id in sys.state.windows && !sys.state.windows[id].hasMoreAfter && id in sys.feeds && sys.feeds[id] != [] {}
    ByRecencyDescends(s);
    CandidatesDescend(sys, ByRecency(s));
    var r := Candidates(sys, ByRecency(s));
    hide ByRecency, Candidates, Eligible;
    forall b | b in s && Eligible(sys, b.id) && b !in Chosen(sys, s) ensures |Chosen(sys, s)| == 20 { assert b in r; }
    forall a, b | a in Chosen(sys, s) && b in s && Eligible(sys, b.id) && b !in Chosen(sys, s)
      ensures a.lastMessageAt >= b.lastMessageAt
    {
      var i :| 0 <= i < |Chosen(sys, s)| && Chosen(sys, s)[i] == a;
      assert b in r;
      var j :| 0 <= j < |r| && r[j] == b;
      assert j >= CACHE_WINDOWS && r[i] == a;
    }
  }

  /** A record holds of each chosen window its last fifty messages, and of the deletions the last five hundred. */
  lemma RecordLimits(sys: Sys, order: seq<Id>, goneOrder: seq<Id>, drafts: map<Id, Draft>, dirty: seq<Id>, c: Id)
    requires sys.state.pts.Some? && forall id | id in order :: id in sys.state.summaries
    ensures var r := BuildRecord(sys, order, goneOrder, drafts, dirty).value;
      (c in r.messages ==> c in sys.feeds && r.messages[c] == if |sys.feeds[c]| <= 50 then sys.feeds[c] else sys.feeds[c][|sys.feeds[c]| - 50..]) &&
      r.gone == (if |goneOrder| <= 500 then goneOrder else goneOrder[|goneOrder| - 500..]) &&
      r.pts == sys.state.pts.value && r.v == 1 && r.drafts == drafts && r.draftDirty == dirty &&
      |r.summaries| == |order| && forall i | 0 <= i < |order| :: r.summaries[i] == sys.state.summaries[order[i]]
  {
    hide Chosen, SummaryIds;
  }

  // ----- overwriting -----

  predicate ShouldOverwrite(stored: Option<Record>, next: Record) {
    stored.None? || next.pts >= stored.value.pts
  }

  function Stored(writes: seq<Record>): Option<Record> {
    if writes == [] then None
    else
      var before, next := Stored(writes[..|writes| - 1]), writes[|writes| - 1];
      if ShouldOverwrite(before, next) then Some(next) else before
  }

  /** Write `i` has the largest number, and every later write a smaller one. */
  ghost predicate Furthest(writes: seq<Record>, i: nat) {
    i < |writes| && (forall j | 0 <= j < |writes| :: writes[j].pts <= writes[i].pts) &&
    (forall j | i < j < |writes| :: writes[j].pts < writes[i].pts)
  }

  /** Whatever tabs write in whatever order, the disk holds the furthest number written, and the last record that had it. */
  lemma {:induction false} StoredIsFurthest(writes: seq<Record>)
    ensures writes == [] <==> Stored(writes).None?
    ensures writes != [] ==> exists i: nat :: Furthest(writes, i) && Stored(writes) == Some(writes[i])
  {
    if writes != [] {
      var t, last := writes[..|writes| - 1], writes[|writes| - 1];
      StoredIsFurthest(t);
      assert forall j | 0 <= j < |t| :: t[j] == writes[j];
      if t == [] {
        assert Furthest(writes, 0);
      } else {
        var i: nat :| Furthest(t, i) && Stored(t) == Some(t[i]);
        if ShouldOverwrite(Stored(t), last) {
          assert Furthest(writes, |writes| - 1);
        } else {
          assert Furthest(writes, i);
        }
      }
    }
  }

  // ----- accepting -----

  function KeepMessages(list: seq<Msg>, ok: Checks): seq<Msg> {
    Filter(list, ok.message)
  }

  function KeepSummaries(s: seq<Summary>, ok: Checks): (r: seq<Summary>)
    ensures forall y :: y in r <==> y in s && ok.summary(y)
  {
    if s == [] then []
    else
      assert s == s[..|s| - 1] + [s[|s| - 1]];
      KeepSummaries(s[..|s| - 1], ok) + (if ok.summary(s[|s| - 1]) then [s[|s| - 1]] else [])
  }

  function CutDraft(d: Draft): Draft {
    d.(text := FirstOf(d.text, DRAFT_CUT))
  }

  function AcceptRecord(r: Record, ok: Checks): Option<Record> {
    if r.v != SCHEMA || r.pts < 0 || r.pts > MAX_SAFE then None
    else Some(r.(summaries := KeepSummaries(r.summaries, ok),
                 messages := map id | id in r.messages :: KeepMessages(r.messages[id], ok),
                 drafts := map id | id in r.drafts :: CutDraft(r.drafts[id])))
  }

  /**
   * Which records are accepted, whatever wrote them: those of this layout whose number is a safe integer. Of an accepted
   * record exactly the well-formed summaries and messages are kept, in their order; deletions and marks come as they are.
   */
  lemma AcceptedIff(r: Record, ok: Checks)
    ensures AcceptRecord(r, ok).Some? <==> r.v == 1 && 0 <= r.pts <= 9007199254740991
    ensures AcceptRecord(r, ok).Some? ==> var a := AcceptRecord(r, ok).value;
      a.pts == r.pts && a.v == r.v && a.gone == r.gone && a.draftDirty == r.draftDirty && a.drafts.Keys == r.drafts.Keys &&
      a.messages.Keys == r.messages.Keys &&
      (forall x :: x in a.summaries <==> x in r.summaries && ok.summary(x)) &&
      (forall id, m | id in a.messages :: m in a.messages[id] <==> m in r.messages[id] && ok.message(m)) &&
      (forall id | id in a.messages && FeedOk(r.messages[id]) :: FeedOk(a.messages[id]))
  {
    forall id | id in r.messages && FeedOk(r.messages[id]) ensures FeedOk(KeepMessages(r.messages[id], ok)) {
      FilterKeepsFeed(r.messages[id], ok.message);
    }
    hide FeedOk, Filter;
  }

  /** Every item of the record has the fields that are read unchecked. */
  ghost predicate WellFormed(r: Record, ok: Checks) {
    (forall s | s in r.summaries :: ok.summary(s)) &&
    forall id, m | id in r.messages && m in r.messages[id] :: ok.message(m)
  }

  lemma {:induction false} KeepAllSummaries(s: seq<Summary>, ok: Checks)
    requires forall x | x in s :: ok.summary(x)
    ensures KeepSummaries(s, ok) == s
  {
    if s != [] {
      assert s == s[..|s| - 1] + [s[|s| - 1]];
      KeepAllSummaries(s[..|s| - 1], ok);
    }
  }

  lemma {:induction false} KeepAllMessages(s: seq<Msg>, ok: Checks)
    requires forall x | x in s :: ok.message(x)
    ensures KeepMessages(s, ok) == s
  {
    if s != [] {
      assert s == [s[0]] + s[1..];
      KeepAllMessages(s[1..], ok);
    }
  }

  /** Reading back leaves every draft as it was exactly when none is longer than 4000 characters. */
  lemma DraftsSurviveIff(drafts: map<Id, Draft>)
    ensures (map id | id in drafts :: CutDraft(drafts[id])) == drafts <==>
      forall id | id in drafts :: |drafts[id].text| <= DRAFT_CUT
  {
    var cut := map id | id in drafts :: CutDraft(drafts[id]);
    forall id | id in drafts ensures cut[id] == drafts[id] <==> |drafts[id].text| <= DRAFT_CUT {}
    if cut == drafts { forall id | id in drafts ensures |drafts[id].text| <= DRAFT_CUT { assert cut[id] == drafts[id]; } }
  }

  /** A built record of well-formed items is read back unless its number is no safe integer; only long drafts change. */
  lemma BuiltIsAccepted(sys: Sys, order: seq<Id>, goneOrder: seq<Id>, drafts: map<Id, Draft>, dirty: seq<Id>, ok: Checks)
    requires sys.state.pts.Some? && forall id | id in order :: id in sys.state.summaries
    requires WellFormed(BuildRecord(sys, order, goneOrder, drafts, dirty).value, ok)
    ensures var r := BuildRecord(sys, order, goneOrder, drafts, dirty).value;
      (AcceptRecord(r, ok).Some? <==> sys.state.pts.value <= MAX_SAFE) &&
      (AcceptRecord(r, ok).Some? ==> AcceptRecord(r, ok).value == r.(drafts := map id | id in drafts :: CutDraft(drafts[id])))
  {
    var r := BuildRecord(sys, order, goneOrder, drafts, dirty).value;
    KeepAllSummaries(r.summaries, ok);
    forall id | id in r.messages ensures KeepMessages(r.messages[id], ok) == r.messages[id] {
      KeepAllMessages(r.messages[id], ok);
    }
    assert (map id | id in r.messages :: KeepMessages(r.messages[id], ok)) == r.messages;
    assert r.drafts == drafts && r.v == SCHEMA && r.pts == sys.state.pts.value;
    hide BuildRecord, Chosen, KeepMessages, KeepSummaries, CutDraft;
  }

  // ----- the first frame -----

  function RecordFeeds(r: Record): Feeds {
    map id | id in r.messages && id in SummaryIds(r.summaries) :: Sort(r.messages[id])
  }

  function AllTo<V>(keys: set<Id>, v: V): map<Id, V> {
    map id | id in keys :: v
  }

  lemma AllToSum<V>(a: set<Id>, b: set<Id>, v: V)
    ensures AllTo(a, v) + AllTo(b, v) == AllTo(a + b, v)
  {
  }

  lemma AllToOne<V>(a: set<Id>, c: Id, v: V)
    ensures AllTo(a, v)[c := v] == AllTo(a + {c}, v)
  {
  }

  function FeedIds(feeds: Feeds): set<Id> {
    set c, m | c in feeds && m in feeds[c] :: m.id
  }

  /** All of it is true at the number of the record, so every summary and every message gets that number. */
  function HydrateState(r: Record): Sys
    requires r.pts >= 0
  {
    Sys(EMPTY.(pts := Some(r.pts),
               summaries := map id | id in SummaryIds(r.summaries) :: LastSummary(r.summaries, id),
               summaryPts := AllTo(SummaryIds(r.summaries), r.pts),
               windows := AllTo(RecordFeeds(r).Keys, Window(r.pts, true, false, true)),
               msgPts := AllTo(FeedIds(RecordFeeds(r)), r.pts),
               gone := set id | id in r.gone),
        RecordFeeds(r))
  }

  /** Summaries and tags of the first summaries of a record. */
  ghost predicate SummariesSoFar(cs: seq<Summary>, P: nat, summaries: map<Id, Summary>, tags: map<Id, nat>) {
    summaries == (map id | id in SummaryIds(cs) :: LastSummary(cs, id)) && tags == AllTo(SummaryIds(cs), P)
  }

  lemma SummariesNext(cs: seq<Summary>, P: nat, summaries: map<Id, Summary>, tags: map<Id, nat>, c: Summary)
    requires SummariesSoFar(cs, P, summaries, tags)
    ensures SummariesSoFar(cs + [c], P, summaries[c.id := c], tags[c.id := P])
  {
    SyncLoops.SummaryIdsStep(cs, c);
    hide SummaryIds, LastSummary;
  }

  method SummariesByLoop(r: Record) returns (summaries: map<Id, Summary>, tags: map<Id, nat>)
    requires r.pts >= 0
    ensures SummariesSoFar(r.summaries, r.pts, summaries, tags)
  {
    summaries, tags := map[], map[];
    var i := 0;
    assert SummariesSoFar(r.summaries[..i], r.pts, summaries, tags);
    hide SummariesSoFar;
    while i < |r.summaries|
      invariant 0 <= i <= |r.summaries| && SummariesSoFar(r.summaries[..i], r.pts, summaries, tags)
    {
      SummariesNext(r.summaries[..i], r.pts, summaries, tags, r.summaries[i]);
      assert r.summaries[..i + 1] == r.summaries[..i] + [r.summaries[i]];
      summaries := summaries[r.summaries[i].id := r.summaries[i]];
      tags := tags[r.summaries[i].id := r.pts];
      i := i + 1;
    }
    assert r.summaries[..i] == r.summaries;
  }

  lemma FeedIdsStep(feeds: Feeds, c: Id, list: seq<Msg>)
    requires c !in feeds
    ensures FeedIds(feeds[c := list]) == FeedIds(feeds) + Ids(list)
  {
    var next := feeds[c := list];
    forall id ensures id in FeedIds(next) <==> id in FeedIds(feeds) + Ids(list) {
      if id in FeedIds(feeds) {
        var k: Id, m: Msg :| k in feeds && m in feeds[k] && m.id == id;
        assert m in next[k];
      }
      if id in Ids(list) {
        var m :| m in list && m.id == id;
        assert m in next[c];
      }
      if id in FeedIds(next) {
        var k: Id, m: Msg :| k in next && m in next[k] && m.id == id;
        if k != c { assert m in feeds[k]; }
      }
    }
  }

  /** Feeds, windows and numbers of the part of a record already taken. */
  ghost predicate FeedsSoFar(r: Record, done: set<Id>, feeds: Feeds, windows: map<Id, Window>, msgPts: map<Id, nat>) {
    r.pts >= 0 &&
    feeds == (map id | id in r.messages && id in done && id in SummaryIds(r.summaries) :: Sort(r.messages[id])) &&
    windows == AllTo(feeds.Keys, Window(r.pts, true, false, true)) && msgPts == AllTo(FeedIds(feeds), r.pts)
  }

  lemma FeedsNext(r: Record, done: set<Id>, c: Id, feeds: Feeds, windows: map<Id, Window>, msgPts: map<Id, nat>)
    requires FeedsSoFar(r, done, feeds, windows, msgPts) && c in r.messages && c !in done && c in SummaryIds(r.summaries)
    ensures var sorted := Sort(r.messages[c]);
      FeedsSoFar(r, done + {c}, feeds[c := sorted], windows[c := Window(r.pts, true, false, true)],
                 msgPts + AllTo(Ids(sorted), r.pts))
  {
    var sorted := Sort(r.messages[c]);
    FeedIdsStep(feeds, c, sorted);
    FeedAdded(r, done, c, feeds);
    AllToSum(FeedIds(feeds), Ids(sorted), r.pts);
    AllToOne(feeds.Keys, c, Window(r.pts, true, false, true));
    hide Sort, FeedIds, SummaryIds, Ids, AllTo;
    assert feeds[c := sorted].Keys == feeds.Keys + {c};
  }

  lemma FeedAdded(r: Record, done: set<Id>, c: Id, feeds: Feeds)
    requires feeds == map id | id in r.messages && id in done && id in SummaryIds(r.summaries) :: Sort(r.messages[id])
    requires c in r.messages && c !in done && c in SummaryIds(r.summaries)
    ensures feeds[c := Sort(r.messages[c])] ==
      map id | id in r.messages && id in done + {c} && id in SummaryIds(r.summaries) :: Sort(r.messages[id])
  {
    hide Sort, SummaryIds;
  }

  lemma FeedsSkip(r: Record, done: set<Id>, c: Id, feeds: Feeds, windows: map<Id, Window>, msgPts: map<Id, nat>)
    requires FeedsSoFar(r, done, feeds, windows, msgPts) && c !in SummaryIds(r.summaries)
    ensures FeedsSoFar(r, done + {c}, feeds, windows, msgPts)
  {
    hide Sort, FeedIds, SummaryIds;
    assert feeds == (map id | id in r.messages && id in done + {c} && id in SummaryIds(r.summaries) :: Sort(r.messages[id]));
  }

  method FeedsByLoop(r: Record, known: set<Id>) returns (feeds: Feeds, windows: map<Id, Window>, msgPts: map<Id, nat>)
    requires r.pts >= 0 && known == SummaryIds(r.summaries)
    ensures FeedsSoFar(r, r.messages.Keys, feeds, windows, msgPts)
  {
    feeds, windows, msgPts := map[], map[], map[];
    var todo := r.messages.Keys;
    assert FeedIds(feeds) == {};
    assert FeedsSoFar(r, r.messages.Keys - todo, feeds, windows, msgPts);
    hide Sort, FeedIds, SummaryIds, FeedsSoFar;
    while todo != {}
      invariant todo <= r.messages.Keys && FeedsSoFar(r, r.messages.Keys - todo, feeds, windows, msgPts)
      decreases todo
    {
      var c :| c in todo;
      ghost var done := r.messages.Keys - todo;
      if c in known {
        FeedsNext(r, done, c, feeds, windows, msgPts);
        var sorted := Sort(r.messages[c]);
        feeds := feeds[c := sorted];
        windows := windows[c := Window(r.pts, true, false, true)];
        msgPts := msgPts + AllTo(Ids(sorted), r.pts);
      } else {
        FeedsSkip(r, done, c, feeds, windows, msgPts);
      }
      todo := todo - {c};
      assert r.messages.Keys - todo == done + {c};
    }
    assert r.messages.Keys - todo == r.messages.Keys;
  }

  method HydrateByLoop(r: Record) returns (sys: Sys)
    requires r.pts >= 0
    ensures sys == HydrateState(r)
  {
    hide SummaryIds, FeedIds, LastSummary, Sort;
    var summaries, tags := SummariesByLoop(r);
    var feeds, windows, msgPts := FeedsByLoop(r, summaries.Keys);
    assert feeds == RecordFeeds(r);
    sys := Sys(EMPTY.(pts := Some(r.pts), summaries := summaries, summaryPts := tags, windows := windows,
                      msgPts := msgPts, gone := set id | id in r.gone), feeds);
  }

  // ----- from one session to the next -----

  /** The record as one session builds it and the next one accepts it. */
  function ReadBack(sys: Sys, order: seq<Id>, goneOrder: seq<Id>, drafts: map<Id, Draft>, draftDirty: seq<Id>, ok: Checks): Option<Record>
    requires forall id | id in order :: id in sys.state.summaries
  {
    var r := BuildRecord(sys, order, goneOrder, drafts, draftDirty);
    if r.None? then None else AcceptRecord(r.value, ok)
  }

  lemma ValuesAre(m: map<Id, Summary>, order: seq<Id>)
    requires Keyed(m) && Enumerates(order, m.Keys)
    ensures forall y :: y in Values(m, order) <==> y.id in m && y == m[y.id]
  {
    var s := Values(m, order);
    forall y | y in s ensures y.id in m && y == m[y.id] {
      var i :| 0 <= i < |s| && s[i] == y;
      assert order[i] in order;
    }
    forall y: Summary | y.id in m && y == m[y.id] ensures y in s {
      assert y.id in order;
      var i :| 0 <= i < |order| && order[i] == y.id;
      assert s[i] == y;
    }
  }

  /** The summaries of `m` that have every field. */
  function Sound(m: map<Id, Summary>, ok: Checks): map<Id, Summary> {
    map id | id in m && ok.summary(m[id]) :: m[id]
  }

  lemma SummariesComeBack(m: map<Id, Summary>, order: seq<Id>, ok: Checks)
    requires Keyed(m) && Enumerates(order, m.Keys)
    ensures var s := KeepSummaries(Values(m, order), ok);
      SummaryIds(s) == Sound(m, ok).Keys && (map id | id in SummaryIds(s) :: LastSummary(s, id)) == Sound(m, ok)
  {
    assert forall id | id in order :: id in m;
    hide Values, Enumerates, KeepSummaries;
    ValuesAre(m, order);
    KeptAre(m, Values(m, order), ok);
    LastOfEach(m, KeepSummaries(Values(m, order), ok), ok);
  }

  lemma KeptAre(m: map<Id, Summary>, s: seq<Summary>, ok: Checks)
    requires forall y :: y in s <==> y.id in m && y == m[y.id]
    ensures forall y :: y in KeepSummaries(s, ok) <==> y.id in m && y == m[y.id] && ok.summary(y)
  {
    hide KeepSummaries;
  }

  lemma LastOfEach(m: map<Id, Summary>, s: seq<Summary>, ok: Checks)
    requires Keyed(m) && forall y :: y in s <==> y.id in m && y == m[y.id] && ok.summary(y)
    ensures SummaryIds(s) == Sound(m, ok).Keys && (map id | id in SummaryIds(s) :: LastSummary(s, id)) == Sound(m, ok)
  {
    hide LastSummary;
    forall id ensures id in SummaryIds(s) <==> id in Sound(m, ok) {
      if id in Sound(m, ok) { assert m[id] in s && m[id].id == id; }
    }
    hide SummaryIds;
  }

  lemma TailOfFeed(list: seq<Msg>, n: nat)
    requires FeedOk(list) && n > 0
    ensures FeedOk(LastOf(list, n)) && forall x | x in LastOf(list, n) :: x in list
  {
    hide Before;
    if |list| > n { SliceOfFeed(list, |list| - n, |list|); }
  }

  lemma KeptTail(list: seq<Msg>, n: nat, ok: Checks)
    requires FeedOk(list) && n > 0
    ensures var r := KeepMessages(LastOf(list, n), ok);
      FeedOk(r) && Sort(r) == r && (forall x | x in r :: x in list) &&
      (r == LastOf(list, n) <==> forall x | x in LastOf(list, n) :: ok.message(x))
  {
    TailOfFeed(list, n);
    var tail := LastOf(list, n);
    hide LastOf, Sort, FeedOk;
    FilterKeepsFeed(tail, ok.message);
    SortOfFeed(KeepMessages(tail, ok));
    if forall x | x in tail :: ok.message(x) { KeepAllMessages(tail, ok); }
    hide Filter;
  }

  ghost predicate FeedsOk(feeds: Feeds) {
    forall c | c in feeds :: FeedOk(feeds[c])
  }

  lemma HydrateShape(r: Record)
    requires r.pts >= 0
    ensures var h := HydrateState(r);
      h.state.pts == Some(r.pts) && h.state.buffer == [] && h.state.phase == Idle && h.feeds == RecordFeeds(r) &&
      h.state.summaries == (map id | id in SummaryIds(r.summaries) :: LastSummary(r.summaries, id)) &&
      h.state.windows == AllTo(RecordFeeds(r).Keys, Window(r.pts, true, false, true)) &&
      h.state.msgPts == AllTo(FeedIds(RecordFeeds(r)), r.pts) && h.state.gone == set id | id in r.gone
  {
    hide SummaryIds, LastSummary, RecordFeeds, FeedIds;
  }

  /** A launch knows every summary and every message of its feeds at the number of the record, and nothing else by number. */
  lemma HydrateNumbers(r: Record, id: Id)
    requires r.pts >= 0
    ensures var t := HydrateState(r);
      t.state.pts == Some(r.pts) && (id in t.state.summaryPts <==> id in t.state.summaries) &&
      (id in t.state.summaryPts ==> t.state.summaryPts[id] == r.pts) &&
      (id in t.state.msgPts <==> exists c :: c in t.feeds && id in Ids(t.feeds[c])) && (id in t.state.msgPts ==> t.state.msgPts[id] == r.pts)
  {
    var t := HydrateState(r);
    hide RecordFeeds, SummaryIds, LastSummary;
    if id in t.state.msgPts {
      var c, m :| c in t.feeds && m in t.feeds[c] && m.id == id;
      assert id in Ids(t.feeds[c]);
    }
  }

  /** The fields of a record that was built and accepted. */
  lemma ReadBackParts(sys: Sys, order: seq<Id>, goneOrder: seq<Id>, drafts: map<Id, Draft>, dirty: seq<Id>, ok: Checks)
    requires sys.state.pts.Some? && forall id | id in order :: id in sys.state.summaries
    ensures ReadBack(sys, order, goneOrder, drafts, dirty, ok).Some? <==> sys.state.pts.value <= MAX_SAFE
    ensures var a, s := ReadBack(sys, order, goneOrder, drafts, dirty, ok), Values(sys.state.summaries, order);
      a.None? || (
        a.value.summaries == KeepSummaries(s, ok) && a.value.pts == sys.state.pts.value &&
        a.value.gone == LastOf(goneOrder, CACHE_GONE) && a.value.draftDirty == dirty &&
        a.value.drafts == (map id | id in drafts :: CutDraft(drafts[id])) &&
        a.value.messages == map id | id in SummaryIds(Chosen(sys, s)) && id in sys.feeds ::
          KeepMessages(LastOf(sys.feeds[id], CACHE_MESSAGES), ok))
  {
    hide Chosen, Values, SummaryIds, LastOf, KeepSummaries, KeepMessages, CutDraft;
  }

  /** The record is of this client: its feeds are parts of tails of eligible windows, its deletions are known ones. */
  ghost predicate TakenFrom(sys: Sys, r: Record) {
    sys.state.pts == Some(r.pts) && r.pts >= 0 && (forall id | id in r.gone :: id in sys.state.gone) &&
    forall c | c in r.messages :: Eligible(sys, c) && FeedOk(r.messages[c]) && Sort(r.messages[c]) == r.messages[c] &&
      forall x | x in r.messages[c] :: x in sys.feeds[c]
  }

  /** The feed of this conversation came through whole: its last fifty messages, and its summary. */
  predicate Whole(sys: Sys, r: Record, c: Id) {
    c in r.messages && c in SummaryIds(r.summaries) && c in sys.feeds && r.messages[c] == LastOf(sys.feeds[c], CACHE_MESSAGES)
  }

  lemma ReadBackIsTakenFrom(sys: Sys, order: seq<Id>, goneOrder: seq<Id>, drafts: map<Id, Draft>, dirty: seq<Id>, ok: Checks)
    requires sys.state.pts.Some? && FeedsOk(sys.feeds) && (forall id | id in order :: id in sys.state.summaries)
    requires forall id | id in goneOrder :: id in sys.state.gone
    requires ReadBack(sys, order, goneOrder, drafts, dirty, ok).Some?
    ensures TakenFrom(sys, ReadBack(sys, order, goneOrder, drafts, dirty, ok).value)
  {
    var s := Values(sys.state.summaries, order);
    var r := ReadBack(sys, order, goneOrder, drafts, dirty, ok).value;
    ReadBackParts(sys, order, goneOrder, drafts, dirty, ok);
    ChosenAreMostRecent(sys, s);
    hide ReadBack, Chosen, Values, Eligible, Sort, KeepMessages, FeedOk;
    assert forall id | id in r.gone :: id in goneOrder;
    hide LastOf;
    forall c | c in r.messages
      ensures Eligible(sys, c) && FeedOk(r.messages[c]) && Sort(r.messages[c]) == r.messages[c] &&
        forall x | x in r.messages[c] :: x in sys.feeds[c]
    {
      KeptTail(sys.feeds[c], CACHE_MESSAGES, ok);
    }
  }

  lemma TakenFeeds(sys: Sys, r: Record)
    requires TakenFrom(sys, r)
    ensures RecordFeeds(r) == map c | c in r.messages && c in SummaryIds(r.summaries) :: r.messages[c]
  {
    hide Sort, SummaryIds, Eligible, FeedOk;
  }

  /** A launch starts with tidy feeds, so what was deleted before it stays out of them. */
  lemma RelaunchKeepsTidy(reg: Registry, sys: Sys, r: Record)
    requires SysTidy(reg, sys) && TakenFrom(sys, r)
    ensures SysTidy(reg, HydrateState(r)) && HydrateState(r).state.gone <= sys.state.gone
  {
    HydrateShape(r);
    TakenFeeds(sys, r);
    hide HydrateState, RecordFeeds, Eligible, Sort, FeedOk, SummaryIds;
    forall c | c in r.messages ensures Tidy(reg, HydrateState(r).state.gone, c, r.messages[c]) {
      assert Eligible(sys, c) && c in sys.feeds by { EligibleHasFeed(sys, c); }
      assert Tidy(reg, sys.state.gone, c, sys.feeds[c]);
    }
  }

  lemma EligibleHasFeed(sys: Sys, c: Id)
    ensures Eligible(sys, c) ==> c in sys.feeds && c in sys.state.windows && !sys.state.windows[c].hasMoreAfter && sys.feeds[c] != []
  {
  }

  // ----- a restart is sound -----

  /** State `s2` has the one number of `s1` everywhere, remembers fewer deletions, and treats `c` as a tail to be replaced. */
  ghost predicate Raised(s1: State, s2: State, list2: seq<Msg>, c: Id) {
    s2.pts == s1.pts && s2.pts.Some? && c in s2.windows && s2.windows[c] == Window(PtsOf(s1), true, false, true) &&
    (forall id | id in s2.msgPts :: s2.msgPts[id] == PtsOf(s1)) && (forall x | x in list2 :: x.id in s2.msgPts) && s2.gone <= s1.gone
  }

  lemma RaisedHoles(J: seq<Change>, known: set<nat>, s: State, list: seq<Msg>, c: Id, k: nat, win: Window)
    requires Lawful(J) && WinInv(J, known, s, list, c) && !s.windows[c].hasMoreAfter && k < |list|
    requires win.hasMoreBefore && !win.hasMoreAfter
    ensures HolesPart(J, UpTo(PtsOf(s)), list[k..], win, c)
  {
    forall n, x | BirthIn(J, n, c) && x in list && x.id == BirthMsg(J, n).id ensures SameKey(x, BirthMsg(J, n)) {
      ListedKey(J, s, list, x, n);
    }
    assert FeedOk(list) && HolesPart(J, known, list, s.windows[c], c);
    forall n: nat | n in UpTo(PtsOf(s)) ensures n in known { assert KnownPart(J, known, s, s.windows[c]); }
    hide WinInv, Lawful, HolesPart, SameKey, BirthIn;
    SliceOfFeed(list, k, |list|);
    assert list[k..|list|] == list[k..];
    TrimmedHoles(J, known, list, list[k..], s.windows[c], win, c);
    HolesFewer(J, known, UpTo(PtsOf(s)), list[k..], win, c);
  }

  lemma RaisedViews(J: seq<Change>, s1: State, list: seq<Msg>, s2: State, list2: seq<Msg>, c: Id)
    requires FreshPart(J, s1, list) && Raised(s1, s2, list2, c) && forall x | x in list2 :: x in list
    ensures FreshPart(J, s2, list2) && StampPart(J, s2, list2)
  {
    forall x | x in list2 ensures Fresh(J, x, Max(PtsOf(s2), TagOf(s2, x.id))) {
      FreshWeakens(J, x, Max(PtsOf(s1), TagOf(s1, x.id)), PtsOf(s1));
    }
    hide Fresh, Touches;
  }

  /** Giving every message of a tail the number of the journal position is sound, and so is forgetting all but its last part. */
  lemma RaisedWindow(J: seq<Change>, known: set<nat>, s1: State, list: seq<Msg>, c: Id, s2: State, k: nat)
    requires Lawful(J) && StateOk(J, s1) && WinInv(J, known, s1, list, c) && !s1.windows[c].hasMoreAfter
    requires k < |list| && Raised(s1, s2, list[k..], c)
    ensures WinInv(J, UpTo(PtsOf(s1)), s2, list[k..], c)
  {
    RaisedHoles(J, known, s1, list, c, k, s2.windows[c]);
    RaisedViews(J, s1, list, s2, list[k..], c);
    assert FeedPart(s2, list[k..], c) by {
      SliceOfFeed(list, k, |list|);
      assert list[k..|list|] == list[k..];
      hide FeedOk;
    }
    assert RemnantPart(J, UpTo(PtsOf(s1)), s2, list[k..], c) by { hide Lasting; }
    hide FeedPart, FreshPart, StampPart, HolesPart, RemnantPart, Lawful;
  }

  /** Conversations claimed before whose feed came through whole. */
  ghost function Carried(w: World, r: Record): set<Id> {
    set c | c in w.sound && Whole(w.sys, r, c)
  }

  ghost function RelaunchedWorld(w: World, r: Record): World
    requires r.pts >= 0
  {
    World(w.J, AllTo(r.messages.Keys, UpTo(r.pts)), Carried(w, r), HydrateState(r))
  }

  lemma CarriedRaised(sys: Sys, r: Record, c: Id)
    requires TakenFrom(sys, r) && Whole(sys, r, c)
    ensures Raised(sys.state, HydrateState(r).state, r.messages[c], c)
  {
    HydrateShape(r);
    TakenFeeds(sys, r);
    GoneFewer(sys, r);
    TakenPts(sys, r);
    hide HydrateState, TakenFrom, SummaryIds, LastOf, RecordFeeds;
    assert c in RecordFeeds(r) && RecordFeeds(r)[c] == r.messages[c];
    forall x | x in r.messages[c] ensures x.id in FeedIds(RecordFeeds(r)) {}
    hide FeedIds;
  }

  lemma CarriedTail(sys: Sys, r: Record, c: Id)
    requires TakenFrom(sys, r) && Whole(sys, r, c)
    ensures c in r.messages && c in sys.feeds && c in sys.state.windows && !sys.state.windows[c].hasMoreAfter
    ensures sys.state.pts == Some(r.pts)
    ensures exists k: nat :: k < |sys.feeds[c]| && r.messages[c] == sys.feeds[c][k..]
  {
    EligibleHasFeed(sys, c);
    var list := sys.feeds[c];
    var k: nat := if |list| <= CACHE_MESSAGES then 0 else |list| - CACHE_MESSAGES;
    hide Eligible, Sort, FeedOk;
    assert list[0..] == list;
    assert k < |list| && r.messages[c] == list[k..];
  }

  lemma RelaunchedOne(w: World, r: Record, c: Id)
    requires WorldOk(w) && TakenFrom(w.sys, r) && c in Carried(w, r)
    ensures WinInv(w.J, UpTo(r.pts), HydrateState(r).state, r.messages[c], c)
  {
    hide HydrateState, TakenFrom, WinInv, WorldOk, Whole, Raised, StateOk, Lawful;
    CarriedRaised(w.sys, r, c);
    CarriedTail(w.sys, r, c);
    SoundIs(w, c);
    var k: nat :| k < |w.sys.feeds[c]| && r.messages[c] == w.sys.feeds[c][k..];
    RaisedWindow(w.J, w.known[c], w.sys.state, w.sys.feeds[c], c, HydrateState(r).state, k);
  }

  lemma GoneFewer(sys: Sys, r: Record)
    requires TakenFrom(sys, r)
    ensures HydrateState(r).state.gone <= sys.state.gone
  {
    HydrateShape(r);
    hide HydrateState, Eligible, FeedOk, Sort;
  }

  /** The feeds a launch starts with sit where they were born, as they did before. */
  lemma RelaunchedHome(w: World, r: Record)
    requires WorldOk(w) && TakenFrom(w.sys, r)
    ensures FeedsHome(w.J, RecordFeeds(r))
  {
    TakenFeeds(w.sys, r);
    assert FeedsHome(w.J, w.sys.feeds);
    hide WorldOk, RecordFeeds, SummaryIds, Sort, FeedOk, Placed, Eligible;
    forall c | c in r.messages ensures AllHome(w.J, c, r.messages[c]) {
      EligibleHasFeed(w.sys, c);
      assert AllHome(w.J, c, w.sys.feeds[c]);
    }
  }

  lemma RelaunchedState(w: World, r: Record)
    requires WorldOk(w) && TakenFrom(w.sys, r)
    ensures StateOk(w.J, HydrateState(r).state) && Keyed(HydrateState(r).state.summaries)
  {
    HydrateShape(r);
    GoneFewer(w.sys, r);
    hide HydrateState, FeedsHome, WinInv, Lawful, ViewAt, TakenFrom, RecordFeeds, FeedIds;
    assert w.sys.state.pts == Some(r.pts) by { TakenPts(w.sys, r); }
  }

  lemma TakenPts(sys: Sys, r: Record)
    requires TakenFrom(sys, r)
    ensures sys.state.pts == Some(r.pts) && r.pts >= 0
  {
  }

  /** The state a launch starts from meets every claim, at the number of the record. */
  lemma RelaunchKeepsWorld(w: World, r: Record)
    requires WorldOk(w) && TakenFrom(w.sys, r)
    ensures WorldOk(RelaunchedWorld(w, r))
  {
    HydrateShape(r);
    TakenFeeds(w.sys, r);
    RelaunchedHome(w, r);
    RelaunchedState(w, r);
    assert Lawful(w.J);
    forall c | c in Carried(w, r) ensures WinInv(w.J, UpTo(r.pts), HydrateState(r).state, r.messages[c], c) {
      hide HydrateState, WinInv, WorldOk, TakenFrom;
      RelaunchedOne(w, r, c);
    }
    hide HydrateState, WinInv, Lawful, TakenFrom, StateOk, FeedsHome, Keyed, RecordFeeds, SummaryIds, LastOf;
  }

  /**
   * From one session to the next: the record of any client that meets its claims, built, read back and launched from. It
   * is refused only for its number; what comes back are the position, every summary and every chosen tail but for broken
   * items, shortened drafts, and every claim about a feed none of whose last messages is broken.
   */
  lemma Relaunch(w: World, order: seq<Id>, goneOrder: seq<Id>, drafts: map<Id, Draft>, dirty: seq<Id>, ok: Checks)
    requires WorldOk(w) && w.sys.state.pts.Some? && Enumerates(order, w.sys.state.summaries.Keys)
    requires forall id | id in goneOrder :: id in w.sys.state.gone
    ensures var a := ReadBack(w.sys, order, goneOrder, drafts, dirty, ok);
      a.Some? <==> w.sys.state.pts.value <= MAX_SAFE
    ensures var a := ReadBack(w.sys, order, goneOrder, drafts, dirty, ok);
      var kept, chosen := Sound(w.sys.state.summaries, ok), SummaryIds(Chosen(w.sys, Values(w.sys.state.summaries, order)));
      a.None? || (
        a.value.pts >= 0 && TakenFrom(w.sys, a.value) && WorldOk(RelaunchedWorld(w, a.value)) &&
        Relaunched(w.sys, chosen, kept, ok, HydrateState(a.value)) &&
        a.value.drafts == (map id | id in drafts :: CutDraft(drafts[id])) && a.value.draftDirty == dirty)
    ensures var a := ReadBack(w.sys, order, goneOrder, drafts, dirty, ok);
      a.Some? ==> forall c | c in w.sound :: c in Carried(w, a.value) <==>
        c in HydrateState(a.value).feeds && forall x | x in LastOf(w.sys.feeds[c], CACHE_MESSAGES) :: ok.message(x)
  {
    hide WinInv, Lawful, StateOk, Chosen, Values, KeepSummaries, Sort, Eligible;
    assert FeedsOk(w.sys.feeds) && Keyed(w.sys.state.summaries) by { hide Keyed; }
    ReadBackParts(w.sys, order, goneOrder, drafts, dirty, ok);
    if ReadBack(w.sys, order, goneOrder, drafts, dirty, ok).Some? {
      var a := ReadBack(w.sys, order, goneOrder, drafts, dirty, ok).value;
      SummariesComeBack(w.sys.state.summaries, order, ok);
      ReadBackIsTakenFrom(w.sys, order, goneOrder, drafts, dirty, ok);
      hide ReadBack, WorldOk, Keyed, Enumerates;
      RelaunchKeepsWorld(w, a);
      RelaunchedParts(w.sys, SummaryIds(Chosen(w.sys, Values(w.sys.state.summaries, order))), Sound(w.sys.state.summaries, ok), ok, a);
      forall c | c in w.sound
        ensures c in Carried(w, a) <==>
          c in HydrateState(a).feeds && forall x | x in LastOf(w.sys.feeds[c], CACHE_MESSAGES) :: ok.message(x)
      {
        SoundHas(w, c);
        KeptTail(w.sys.feeds[c], CACHE_MESSAGES, ok);
        HydrateShape(a);
      }
    }
  }

  /**
   * What a launch shows: the position, every summary that came through, of each chosen feed with a summary the last fifty
   * messages that came through, as windows at the tail to be replaced by the first page.
   */
  ghost predicate Relaunched(sys: Sys, chosen: set<Id>, kept: map<Id, Summary>, ok: Checks, h: Sys) {
    h.state.pts == sys.state.pts && h.state.summaries == kept && h.state.buffer == [] && h.state.phase == Idle &&
    (forall c :: c in h.feeds <==> c in chosen && c in sys.feeds && c in kept) &&
    (forall c | c in h.feeds :: Eligible(sys, c) && h.feeds[c] == KeepMessages(LastOf(sys.feeds[c], CACHE_MESSAGES), ok) &&
                                c in h.state.windows && h.state.windows[c] == Window(PtsOf(sys.state), true, false, true))
  }

  lemma RelaunchedParts(sys: Sys, chosen: set<Id>, kept: map<Id, Summary>, ok: Checks, a: Record)
    requires TakenFrom(sys, a) && SummaryIds(a.summaries) == kept.Keys
    requires (map id | id in SummaryIds(a.summaries) :: LastSummary(a.summaries, id)) == kept
    requires a.messages == map id | id in chosen && id in sys.feeds :: KeepMessages(LastOf(sys.feeds[id], CACHE_MESSAGES), ok)
    ensures Relaunched(sys, chosen, kept, ok, HydrateState(a))
  {
    HydrateShape(a);
    TakenFeeds(sys, a);
    hide HydrateState, LastSummary, SummaryIds, RecordFeeds, FeedIds, LastOf, KeepMessages, FeedOk, Sort, Eligible;
  }

  /** With nothing broken, everything chosen comes back as it was, and every claim about it. */
  lemma RelaunchKeeps(w: World, order: seq<Id>, goneOrder: seq<Id>, drafts: map<Id, Draft>, dirty: seq<Id>, ok: Checks)
    requires WorldOk(w) && w.sys.state.pts.Some? && Enumerates(order, w.sys.state.summaries.Keys)
    requires forall id | id in goneOrder :: id in w.sys.state.gone
    requires WellFormed(BuildRecord(w.sys, order, goneOrder, drafts, dirty).value, ok)
    requires w.sys.state.pts.value <= MAX_SAFE
    ensures var a := ReadBack(w.sys, order, goneOrder, drafts, dirty, ok);
      a.Some? && a.value.pts >= 0 &&
      ComesBack(w, SummaryIds(Chosen(w.sys, Values(w.sys.state.summaries, order))), a.value, HydrateState(a.value))
  {
    assert forall id | id in order :: id in w.sys.state.summaries;
    hide WorldOk, ReadBack, HydrateState, Chosen, Values, WellFormed, BuildRecord, TakenFrom, Enumerates, RelaunchedWorld, Relaunched, Carried, Sound,
      SummaryIds, LastOf, KeepMessages, ComesBack;
    Relaunch(w, order, goneOrder, drafts, dirty, ok);
    WorldIsKeyed(w);
    NothingBroken(w.sys, order, goneOrder, drafts, dirty, ok);
    var a, chosen := ReadBack(w.sys, order, goneOrder, drafts, dirty, ok).value, SummaryIds(Chosen(w.sys, Values(w.sys.state.summaries, order)));
    BackFromParts(w, chosen, ok, a);
  }

  /** Position, summaries, the tails of the chosen feeds, and the claims about them are what they were. */
  ghost predicate ComesBack(w: World, chosen: set<Id>, a: Record, h: Sys) {
    h.state.pts == w.sys.state.pts && h.state.summaries == w.sys.state.summaries && h.feeds.Keys == chosen &&
    (forall c | c in chosen :: c in w.sys.feeds && h.feeds[c] == LastOf(w.sys.feeds[c], CACHE_MESSAGES)) &&
    Carried(w, a) == w.sound * chosen
  }

  lemma BackFromParts(w: World, chosen: set<Id>, ok: Checks, a: Record)
    requires WorldOk(w) && a.pts >= 0 && Relaunched(w.sys, chosen, w.sys.state.summaries, ok, HydrateState(a))
    requires forall c | c in w.sound :: c in Carried(w, a) <==>
      c in HydrateState(a).feeds && forall x | x in LastOf(w.sys.feeds[c], CACHE_MESSAGES) :: ok.message(x)
    requires forall c | c in chosen :: c in w.sys.feeds && c in w.sys.state.summaries
    requires forall c | c in chosen :: KeepMessages(LastOf(w.sys.feeds[c], CACHE_MESSAGES), ok) == LastOf(w.sys.feeds[c], CACHE_MESSAGES)
    requires forall c, x | c in chosen && x in LastOf(w.sys.feeds[c], CACHE_MESSAGES) :: ok.message(x)
    ensures ComesBack(w, chosen, a, HydrateState(a))
  {
    hide WorldOk, HydrateState, KeepMessages, LastOf, Eligible, Whole;
    assert Carried(w, a) <= w.sound;
    hide Carried;
    forall c ensures c in Carried(w, a) <==> c in w.sound * chosen {
      if c in w.sound { SoundHas(w, c); }
    }
  }

  lemma WorldIsKeyed(w: World)
    requires WorldOk(w)
    ensures Keyed(w.sys.state.summaries)
  {
    hide WinInv, Lawful, StateOk, FeedsHome, Keyed;
  }

  lemma NothingBroken(sys: Sys, order: seq<Id>, goneOrder: seq<Id>, drafts: map<Id, Draft>, dirty: seq<Id>, ok: Checks)
    requires sys.state.pts.Some? && Keyed(sys.state.summaries) && Enumerates(order, sys.state.summaries.Keys)
    requires WellFormed(BuildRecord(sys, order, goneOrder, drafts, dirty).value, ok)
    ensures Sound(sys.state.summaries, ok) == sys.state.summaries
    ensures var chosen := SummaryIds(Chosen(sys, Values(sys.state.summaries, order)));
      (forall c | c in chosen :: c in sys.feeds && c in sys.state.summaries) &&
      (forall c, x | c in chosen && x in LastOf(sys.feeds[c], CACHE_MESSAGES) :: ok.message(x)) &&
      (forall c | c in chosen :: KeepMessages(LastOf(sys.feeds[c], CACHE_MESSAGES), ok) == LastOf(sys.feeds[c], CACHE_MESSAGES))
  {
    assert forall id | id in order :: id in sys.state.summaries;
    var s := Values(sys.state.summaries, order);
    hide Chosen, Values, WellFormed, BuildRecord, Enumerates, KeepMessages, LastOf, Eligible, Keyed, Sound;
    BuiltItems(sys, order, goneOrder, drafts, dirty, ok);
    ValuesAre(sys.state.summaries, order);
    ChosenAreMostRecent(sys, s);
    SoundAll(sys.state.summaries, s, ok);
    forall c | c in SummaryIds(Chosen(sys, s))
      ensures c in sys.feeds && c in sys.state.summaries
      ensures KeepMessages(LastOf(sys.feeds[c], CACHE_MESSAGES), ok) == LastOf(sys.feeds[c], CACHE_MESSAGES)
    {
      EligibleHasFeed(sys, c);
      KeepAllMessages(LastOf(sys.feeds[c], CACHE_MESSAGES), ok);
    }
  }

  lemma SoundAll(m: map<Id, Summary>, s: seq<Summary>, ok: Checks)
    requires Keyed(m) && (forall y :: y in s <==> y.id in m && y == m[y.id]) && forall y | y in s :: ok.summary(y)
    ensures Sound(m, ok) == m
  {
    forall id | id in m ensures ok.summary(m[id]) { assert m[id] in s; }
  }

  lemma BuiltItems(sys: Sys, order: seq<Id>, goneOrder: seq<Id>, drafts: map<Id, Draft>, dirty: seq<Id>, ok: Checks)
    requires sys.state.pts.Some? && forall id | id in order :: id in sys.state.summaries
    requires WellFormed(BuildRecord(sys, order, goneOrder, drafts, dirty).value, ok)
    ensures var s := Values(sys.state.summaries, order);
      (forall y | y in s :: ok.summary(y)) &&
      forall c, x | c in SummaryIds(Chosen(sys, s)) && c in sys.feeds && x in LastOf(sys.feeds[c], CACHE_MESSAGES) :: ok.message(x)
  {
    hide Chosen, Values, SummaryIds, LastOf;
    var r := BuildRecord(sys, order, goneOrder, drafts, dirty).value;
    forall c, x | c in SummaryIds(Chosen(sys, Values(sys.state.summaries, order))) && c in sys.feeds && x in LastOf(sys.feeds[c], CACHE_MESSAGES)
      ensures ok.message(x)
    {
      assert c in r.messages && x in r.messages[c];
    }
  }

  /**
   * A restart is invisible: one client goes on, the other is launched from its record, built and read back; whatever
   * happens to either, once both have caught up with the same journal a conversation at its tail shows the same messages.
   */
  lemma RestartInvisible(w: World, order: seq<Id>, goneOrder: seq<Id>, drafts: map<Id, Draft>, dirty: seq<Id>, ok: Checks,
                         stays: seq<Act>, restarts: seq<Act>, c: Id) returns (k: nat)
    requires WorldOk(w) && w.sys.state.pts.Some? && w.sys.state.pts.value <= MAX_SAFE && Enumerates(order, w.sys.state.summaries.Keys)
    requires forall id | id in goneOrder :: id in w.sys.state.gone
    requires var r := ReadBack(w.sys, order, goneOrder, drafts, dirty, ok);
      r.Some? && r.value.pts >= 0 && Possible(w, stays) && Possible(RelaunchedWorld(w, r.value), restarts) &&
      var a, b := RunTo(w, stays), RunTo(RelaunchedWorld(w, r.value), restarts);
      a.J == b.J && PtsOf(a.sys.state) == |a.J| && PtsOf(b.sys.state) == |b.J| && c in a.sound && c in b.sound &&
      c in a.sys.feeds && c in b.sys.feeds && c in a.sys.state.windows && c in b.sys.state.windows &&
      !a.sys.state.windows[c].hasMoreAfter && !b.sys.state.windows[c].hasMoreAfter &&
      a.sys.feeds[c] != [] && b.sys.feeds[c] != [] && !Before(b.sys.feeds[c][0], a.sys.feeds[c][0])
    ensures var r := ReadBack(w.sys, order, goneOrder, drafts, dirty, ok).value;
      var a, b := RunTo(w, stays), RunTo(RelaunchedWorld(w, r), restarts);
      k <= |a.sys.feeds[c]| && b.sys.feeds[c] == a.sys.feeds[c][k..]
  {
    var r := ReadBack(w.sys, order, goneOrder, drafts, dirty, ok).value;
    hide WorldOk, RunTo, Possible, TakenFrom, RelaunchedWorld, Before, ReadBack, Relaunched, Enumerates, HydrateState;
    Relaunch(w, order, goneOrder, drafts, dirty, ok);
    RunKeepsWorld(w, stays);
    RunKeepsWorld(RelaunchedWorld(w, r), restarts);
    k := TailsAgree(RunTo(w, stays), RunTo(RelaunchedWorld(w, r), restarts), c);
  }

  /**
   * The list after a restart: the client that went on and the one launched from its record hear the same standings beyond
   * the number of the record, each in its own order, and show the same summaries.
   */
  lemma RestartSummariesAgree(sys: Sys, a: Record, c: Id, stays: seq<Told>, restarts: seq<Told>)
    requires a.pts >= 0 && Before_(sys.state, c, a.pts) && HydrateState(a).state.summaries == sys.state.summaries
    requires forall u :: About(stays, c, u) <==> About(restarts, c, u)
    requires forall u | About(stays, c, u) :: u.P > a.pts
    requires forall u, v | About(stays, c, u) && About(stays, c, v) && u.P == v.P :: u == v
    ensures SameSummary(FoldStandings(sys.state, stays), FoldStandings(HydrateState(a).state, restarts), c)
  {
    assert Before_(HydrateState(a).state, c, a.pts) by { hide FeedIds, RecordFeeds, LastSummary, SummaryIds; }
    hide HydrateState, FoldStandings, About;
    SummariesAgree(sys.state, HydrateState(a).state, c, a.pts, stays, restarts);
  }

  lemma {:induction false} DistinctCount(order: seq<Id>, keys: set<Id>)
    requires Enumerates(order, keys)
    ensures |order| == |keys|
  {
    if order == [] {
      assert keys == {};
    } else {
      var t, z := order[..|order| - 1], order[|order| - 1];
      forall id ensures id in t <==> id in keys - {z} {
        if id in keys - {z} { var i :| 0 <= i < |order| && order[i] == id; assert t[i] == id; }
      }
      DistinctCount(t, keys - {z});
    }
  }

  /** A launch remembers every deletion exactly when there were at most 500 of them. */
  lemma DeletionsSurviveIff(goneOrder: seq<Id>, gone: set<Id>)
    requires Enumerates(goneOrder, gone)
    ensures (forall id | id in gone :: id in LastOf(goneOrder, CACHE_GONE)) <==> |gone| <= CACHE_GONE
  {
    DistinctCount(goneOrder, gone);
    if |goneOrder| > CACHE_GONE {
      var id, t := goneOrder[0], LastOf(goneOrder, CACHE_GONE);
      assert id in gone;
      assert id !in t by { assert forall i | 0 <= i < |t| :: t[i] == goneOrder[|goneOrder| - CACHE_GONE + i]; }
    }
  }
}
