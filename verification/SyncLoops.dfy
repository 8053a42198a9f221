/** The merge rules that the client computes with loops over local lists and dictionaries, each against its rule. */
module SyncLoops {
  import opened Feed
  import opened SyncRules

  lemma DrainStep(cur: nat, sorted: seq<Event>, i: nat)
    requires i < |sorted|
    ensures DrainSorted(cur, sorted[i..]) ==
      if sorted[i].pts <= cur then DrainSorted(cur, sorted[i + 1..])
      else if sorted[i].pts != cur + 1 then Plan([], sorted[i..], true)
      else var p := DrainSorted(cur + 1, sorted[i + 1..]); Plan([sorted[i]] + p.apply, p.rest, p.gap)
  {
    assert sorted[i..][0] == sorted[i] && sorted[i..][1..] == sorted[i + 1..];
  }

  /** Takes the consecutive run out of a buffer, stopping at the first gap. */
  method DrainPlanByLoop(pts: nat, buffer: seq<Event>) returns (apply: seq<Event>, rest: seq<Event>, gap: bool)
    ensures Plan(apply, rest, gap) == DrainPlan(pts, buffer)
  {
    apply := [];
    var cur := pts;
    var sorted := SortEvents(buffer);
    ghost var whole := DrainSorted(pts, sorted);
    assert sorted[0..] == sorted && [] + whole.apply == whole.apply;
    assert DrainSorted(pts, []) == Plan([], [], false);
    var i := 0;
    while i < |sorted|
      invariant 0 <= i <= |sorted|
      invariant var p := DrainSorted(cur, sorted[i..]); whole == Plan(apply + p.apply, p.rest, p.gap)
    {
      var ev := sorted[i];
      DrainStep(cur, sorted, i);
      hide DrainSorted;
      if ev.pts <= cur {
      } else if ev.pts != cur + 1 {
        assert apply + [] == apply;
        return apply, sorted[i..], true;
      } else {
        ghost var p := DrainSorted(cur + 1, sorted[i + 1..]);
        assert apply + ([ev] + p.apply) == (apply + [ev]) + p.apply;
        apply := apply + [ev];
        cur := ev.pts;
      }
      i := i + 1;
    }
    assert sorted[i..] == [];
    return apply, [], false;
  }

  /** Fills an insertion-ordered map by id, then sorts its values. */
  method DedupeByLoop(list: seq<Msg>) returns (r: seq<Msg>)
    ensures r == Dedupe(list)
  {
    var seen: seq<Msg> := [];
    var i := 0;
    while i < |list|
      invariant 0 <= i <= |list|
      invariant seen == LastById(list[..i])
    {
      assert list[..i + 1][..i] == list[..i];
      seen := Put(seen, list[i]);
      i := i + 1;
    }
    assert list[..i] == list;
    r := Sort(seen);
  }

  lemma RetaggedStep(s: State, page: Page, i: nat, m: Msg)
    requires i < |page.messages| && page.messages[i] == m
    ensures RetaggedOf(s, page, page.messages[..i + 1]) ==
      RetaggedOf(s, page, page.messages[..i]) + (if m.id !in s.gone && !Newer_(s, page, m.id) then {m.id} else {})
  {
    var a, b := page.messages[..i], page.messages[..i + 1];
    assert b == a + [m];
    assert forall x :: x in b <==> x in a || x == m;
  }

  ghost function RetaggedOf(s: State, page: Page, ms: seq<Msg>): set<Id> {
    set m | m in ms && m.id !in s.gone && !Newer_(s, page, m.id) :: m.id
  }

  lemma IncomingNext(s: State, have: seq<Msg>, page: Page, ms: seq<Msg>, i: nat)
    requires i < |ms|
    ensures IncomingOf(s, have, page, ms[..i + 1]) == IncomingOf(s, have, page, ms[..i]) + Taken(s, have, page, ms[i])
  {
    assert ms[..i + 1][..i] == ms[..i];
    hide Taken;
  }

  /** Numbers after the first messages of a page. */
  ghost predicate NumberedSoFar(s: State, page: Page, ids: set<Id>, msgPts: map<Id, nat>) {
    msgPts == s.msgPts + map id | id in ids :: page.pts
  }

  lemma NumberedNext(s: State, page: Page, ids: set<Id>, msgPts: map<Id, nat>, id: Id)
    requires NumberedSoFar(s, page, ids, msgPts)
    ensures NumberedSoFar(s, page, ids + {id}, msgPts[id := page.pts])
    ensures (forall k | k in ids :: !Newer_(s, page, k)) ==> (id in msgPts && msgPts[id] > page.pts <==> Newer_(s, page, id))
  {
  }

  lemma RetaggedNotNewer(s: State, page: Page, ms: seq<Msg>)
    ensures forall k | k in RetaggedOf(s, page, ms) :: !Newer_(s, page, k)
  {
    hide Newer_;
  }

  /** One turn of the page loop: what this message contributes, judged by the local dictionary. */
  method JudgeOne(s: State, have: seq<Msg>, page: Page, ghost ids: set<Id>, msgPts: map<Id, nat>, m: Msg)
    returns (taken: seq<Msg>, msgPts': map<Id, nat>)
    requires NumberedSoFar(s, page, ids, msgPts) && forall k | k in ids :: !Newer_(s, page, k)
    ensures taken == Taken(s, have, page, m)
    ensures NumberedSoFar(s, page, ids + (if m.id !in s.gone && !Newer_(s, page, m.id) then {m.id} else {}), msgPts')
  {
    NumberedNext(s, page, ids, msgPts, m.id);
    assert ids + {} == ids;
    hide NumberedSoFar, Newer_;
    if m.id in s.gone {
      return [], msgPts;
    } else if m.id in msgPts && msgPts[m.id] > page.pts {
      var k := IndexOf(have, m.id);
      return if k >= 0 then [have[k]] else [], msgPts;
    } else {
      return [m], msgPts[m.id := page.pts];
    }
  }

  /**
   * The page loop reads and writes one local dictionary of numbers; a message met twice is judged by the number it got
   * the first time, which changes nothing.
   */
  method TakePageByLoop(s: State, have: seq<Msg>, page: Page) returns (incoming: seq<Msg>, msgPts: map<Id, nat>)
    ensures incoming == Incoming(s, have, page) && msgPts == PageTags(s, page)
  {
    msgPts := s.msgPts;
    incoming := [];
    var i := 0;
    while i < |page.messages|
      invariant 0 <= i <= |page.messages|
      invariant incoming == IncomingOf(s, have, page, page.messages[..i])
      invariant NumberedSoFar(s, page, RetaggedOf(s, page, page.messages[..i]), msgPts)
    {
      var m := page.messages[i];
      RetaggedStep(s, page, i, m);
      RetaggedNotNewer(s, page, page.messages[..i]);
      IncomingNext(s, have, page, page.messages, i);
      hide RetaggedOf, IncomingOf, Newer_, NumberedSoFar, Taken;
      var taken;
      taken, msgPts := JudgeOne(s, have, page, RetaggedOf(s, page, page.messages[..i]), msgPts, m);
      incoming := incoming + taken;
      i := i + 1;
    }
    assert page.messages[..i] == page.messages;
    assert RetaggedOf(s, page, page.messages) == Retagged(s, page);
  }

  method ApplyPageByLoop(s: State, list: Option<seq<Msg>>, c: Id, page: Page, kind: PageKind) returns (r: Merged)
    ensures r == ApplyPage(s, list, c, page, kind)
  {
    var have := Have(list);
    var incoming, msgPts := TakePageByLoop(s, have, page);
    hide Dedupe, Joins, Before, Filter, IncomingOf, PageTags;
    var merged := DedupeByLoop(MergeParts(s, have, c, page, kind, incoming));
    r := Merged(s.(msgPts := msgPts, windows := s.windows[c := MergedWindow(s, have, c, page, kind)]), Some(merged));
  }

  lemma ForgetNext(msgPts: map<Id, nat>, cut: seq<Msg>, i: nat)
    requires i < |cut|
    ensures msgPts - Ids(cut[..i + 1]) == (msgPts - Ids(cut[..i])) - {cut[i].id}
  {
    assert cut[..i + 1] == cut[..i] + [cut[i]];
    assert Ids(cut[..i + 1]) == Ids(cut[..i]) + {cut[i].id};
    hide Ids;
  }

  /** The freshness numbers of the cut messages are forgotten. */
  method ForgetByLoop(before: map<Id, nat>, cut: seq<Msg>) returns (msgPts: map<Id, nat>)
    ensures msgPts == before - Ids(cut)
  {
    msgPts := before;
    var i := 0;
    assert Ids(cut[..0]) == {};
    hide Ids;
    while i < |cut|
      invariant 0 <= i <= |cut| && msgPts == before - Ids(cut[..i])
    {
      ForgetNext(before, cut, i);
      msgPts := msgPts - {cut[i].id};
      i := i + 1;
    }
    assert cut[..i] == cut;
  }

  method TrimWindowByLoop(s: State, list: seq<Msg>, c: Id, side: Side, count: int) returns (r: Merged)
    ensures r == TrimWindow(s, list, c, side, count)
  {
    hide Ids;
    if c !in s.windows || count <= 0 || count >= |list| { return Merged(s, Some(list)); }
    var win := s.windows[c];
    var cut := if side == Top then list[..count] else list[|list| - count..];
    var next := if side == Top then list[count..] else list[..|list| - count];
    var msgPts := ForgetByLoop(s.msgPts, cut);
    var w := if side == Top then win.(hasMoreBefore := true) else win.(hasMoreAfter := true);
    r := Merged(s.(msgPts := msgPts, windows := s.windows[c := w]), Some(next));
  }

  lemma ViaTagsNext(s: State, added: seq<Msg>, i: nat)
    requires i < |added|
    ensures var before := s.msgPts + map id | id in Ids(added[..i]) :: TagOf(s, id);
      s.msgPts + (map id | id in Ids(added[..i + 1]) :: TagOf(s, id)) ==
      before[added[i].id := if added[i].id in before then before[added[i].id] else 0]
  {
    assert added[..i + 1] == added[..i] + [added[i]];
    assert Ids(added[..i + 1]) == Ids(added[..i]) + {added[i].id};
    hide Ids;
  }

  /** Messages taken from another instance keep the number they have, or get none. */
  method ViaTagsByLoop(s: State, added: seq<Msg>) returns (msgPts: map<Id, nat>)
    ensures msgPts == s.msgPts + map id | id in Ids(added) :: TagOf(s, id)
  {
    msgPts := s.msgPts;
    var i := 0;
    assert Ids(added[..0]) == {};
    while i < |added|
      invariant 0 <= i <= |added|
      invariant msgPts == s.msgPts + map id | id in Ids(added[..i]) :: TagOf(s, id)
    {
      ViaTagsNext(s, added, i);
      hide Ids, TagOf;
      msgPts := msgPts[added[i].id := if added[i].id in msgPts then msgPts[added[i].id] else 0];
      i := i + 1;
    }
    assert added[..i] == added;
  }

  method ApplyViaPageByLoop(s: State, list: Option<seq<Msg>>, c: Id, messages: seq<Msg>) returns (r: Merged)
    ensures r == ApplyViaPage(s, list, c, messages)
  {
    hide Sort, Dedupe, FreshVia, Ids;
    if list.None? || c !in s.windows || s.windows[c].hasMoreAfter { return Merged(s, list); }
    var added := FreshVia(s, list.value, messages);
    if added == [] { return Merged(s, list); }
    var msgPts := ViaTagsByLoop(s, added);
    r := Merged(s.(msgPts := msgPts), Some(Dedupe(Sort(list.value + added))));
  }

  // ----- the full list -----

  /** Summaries and tags after the first `i` listed conversations. */
  ghost predicate ListedSoFar(s: State, res: ListReply, cs: seq<Summary>, summaries: map<Id, Summary>, tags: map<Id, nat>) {
    tags.Keys == SummaryIds(cs) &&
    (forall id | id in tags :: tags[id] == if OwnNewer(s, id, res.pts) then s.summaryPts[id] else res.pts) &&
    (forall id :: id in summaries <==> id in SummaryIds(cs) && (OwnNewer(s, id, res.pts) ==> id in s.summaries)) &&
    (forall id | id in summaries :: summaries[id] ==
      if OwnNewer(s, id, res.pts) then s.summaries[id] else LastSummary(cs, id))
  }

  lemma SummaryIdsStep(cs: seq<Summary>, c: Summary)
    ensures SummaryIds(cs + [c]) == SummaryIds(cs) + {c.id}
    ensures forall id | id in SummaryIds(cs + [c]) ::
      LastSummary(cs + [c], id) == if id == c.id then c else LastSummary(cs, id)
  {
    var r := cs + [c];
    assert forall x :: x in r <==> x in cs || x == c;
    assert r[..|r| - 1] == cs;
  }

  /** One more listed conversation: the client's own newer summary stays, and one it has left keeps its number only. */
  lemma ListedNext(s: State, res: ListReply, cs: seq<Summary>, c: Summary, summaries: map<Id, Summary>, tags: map<Id, nat>)
    requires ListedSoFar(s, res, cs, summaries, tags)
    ensures ListedSoFar(s, res, cs + [c],
      (if !OwnNewer(s, c.id, res.pts) then summaries[c.id := c]
       else if c.id in s.summaries then summaries[c.id := s.summaries[c.id]] else summaries),
      tags[c.id := if OwnNewer(s, c.id, res.pts) then s.summaryPts[c.id] else res.pts])
  {
    SummaryIdsStep(cs, c);
    OwnHasTag(s, c.id, res.pts);
    hide LastSummary, SummaryIds, OwnNewer;
  }

  method ListedByLoop(s: State, res: ListReply) returns (summaries: map<Id, Summary>, tags: map<Id, nat>)
    ensures ListedSoFar(s, res, Listed(res), summaries, tags)
  {
    hide ListedSoFar, Listed, SummaryIds, LastSummary, OwnNewer;
    var cs := Listed(res);
    summaries, tags := map[], map[];
    var i := 0;
    ListedNone(s, res);
    assert cs[..0] == [];
    while i < |cs|
      invariant 0 <= i <= |cs| && ListedSoFar(s, res, cs[..i], summaries, tags)
    {
      var c := cs[i];
      OwnHasTag(s, c.id, res.pts);
      assert cs[..i + 1] == cs[..i] + [c];
      ListedNext(s, res, cs[..i], c, summaries, tags);
      if OwnNewer(s, c.id, res.pts) {
        if c.id in s.summaries { summaries := summaries[c.id := s.summaries[c.id]]; }
        tags := tags[c.id := s.summaryPts[c.id]];
      } else {
        summaries := summaries[c.id := c];
        tags := tags[c.id := res.pts];
      }
      i := i + 1;
    }
    assert cs[..i] == cs;
  }

  lemma NoSummaryIds()
    ensures SummaryIds([]) == {}
  {
  }

  lemma ListedNone(s: State, res: ListReply)
    ensures ListedSoFar(s, res, [], map[], map[])
  {
    NoSummaryIds();
  }

  lemma OwnHasTag(s: State, id: Id, P: nat)
    ensures OwnNewer(s, id, P) ==> id in s.summaryPts
  {
  }

  /** The client's own newer conversations that a list does not name, in any order. */
  method KeepNewerByLoop(s: State, P: nat, named: set<Id>) returns (kept: set<Id>)
    ensures kept == set id | id in s.summaries && OwnNewer(s, id, P) && id !in named
  {
    kept := {};
    var todo := s.summaryPts.Keys;
    while todo != {}
      invariant todo <= s.summaryPts.Keys
      invariant kept == set id | id in s.summaryPts.Keys - todo && id in s.summaries && OwnNewer(s, id, P) && id !in named
      decreases todo
    {
      var id :| id in todo;
      if id !in named && s.summaryPts[id] > P && id in s.summaries { kept := kept + {id}; }
      todo := todo - {id};
    }
  }

  lemma ListKeys(s: State, res: ListReply, summaries: map<Id, Summary>, tags: map<Id, nat>, kept: set<Id>)
    requires ListedSoFar(s, res, Listed(res), summaries, tags)
    requires kept == set id | id in s.summaries && OwnNewer(s, id, res.pts) && id !in tags.Keys
    ensures tags.Keys + kept == ListedTags(s, res)
    ensures summaries.Keys + kept == ListedIds(s, res)
  {
    hide LastSummary, Listed, OwnNewer;
    var cs := Listed(res);
    forall id ensures id in summaries.Keys + kept <==> id in ListedIds(s, res) {
      if id in SummaryIds(cs) { var x :| x in cs && x.id == id; }
    }
  }

  lemma ListSummaries(s: State, res: ListReply, summaries: map<Id, Summary>, tags: map<Id, nat>, kept: set<Id>)
    requires ListedSoFar(s, res, Listed(res), summaries, tags)
    requires kept == set id | id in s.summaries && OwnNewer(s, id, res.pts) && id !in tags.Keys
    requires summaries.Keys + kept == ListedIds(s, res)
    ensures ListedSummaries(s, res) == summaries + map id | id in kept :: s.summaries[id]
  {
    var a, b := ListedSummaries(s, res), summaries + map id | id in kept :: s.summaries[id];
    hide LastSummary, Listed, ListedTags, ListedIds, OwnNewer;
    assert a.Keys == b.Keys;
    forall id | id in a ensures a[id] == b[id] {
      if id in kept { assert id !in SummaryIds(Listed(res)); }
    }
  }

  lemma ListTagsMap(s: State, res: ListReply, summaries: map<Id, Summary>, tags: map<Id, nat>, kept: set<Id>)
    requires ListedSoFar(s, res, Listed(res), summaries, tags)
    requires kept == set id | id in s.summaries && OwnNewer(s, id, res.pts) && id !in tags.Keys
    requires tags.Keys + kept == ListedTags(s, res)
    ensures ListedNumbers(s, res) == tags + map id: Id | id in kept && id in s.summaryPts :: s.summaryPts[id]
  {
    var a, b := ListedNumbers(s, res), tags + map id: Id | id in kept && id in s.summaryPts :: s.summaryPts[id];
    forall id | id in kept ensures id in s.summaryPts { OwnHasTag(s, id, res.pts); }
    hide LastSummary, Listed, ListedTags, ListedIds, OwnNewer, SummaryIds;
    assert a.Keys == b.Keys;
    forall id | id in a ensures a[id] == b[id] {}
  }

  method ApplyListByLoop(s: State, res: ListReply) returns (r: State)
    ensures r == ApplyList(s, res)
  {
    var summaries, tags := ListedByLoop(s, res);
    var kept := KeepNewerByLoop(s, res.pts, tags.Keys);
    ListKeys(s, res, summaries, tags, kept);
    ListSummaries(s, res, summaries, tags, kept);
    ListTagsMap(s, res, summaries, tags, kept);
    hide LastSummary, Listed, ListedTags, ListedIds, OwnNewer, ListedSummaries, ListedNumbers;
    var all := summaries + map id | id in kept :: s.summaries[id];
    var allTags := tags + map id: Id | id in kept && id in s.summaryPts :: s.summaryPts[id];
    var windows := map id | id in s.windows && id in tags.Keys + kept :: s.windows[id];
    r := s.(pts := Some(Max(PtsOf(s), res.pts)), summaries := all, summaryPts := allTags, windows := windows);
  }
}
