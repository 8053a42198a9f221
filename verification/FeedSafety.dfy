/** Every rule keeps every feed strictly ordered and free of messages that are gone; gone messages stay gone. */
module FeedSafety {
  import opened Feed
  import opened SyncRules

  /** What the server fixes once for a message: its place in the order and its conversation. */
  datatype Registry = Registry(key: Id -> int, home: Id -> Id)

  ghost predicate Honest(reg: Registry, m: Msg) {
    m.sortKey == reg.key(m.id) && m.conv == reg.home(m.id)
  }

  ghost predicate AllHonest(reg: Registry, s: seq<Msg>) {
    forall m | m in s :: Honest(reg, m)
  }

  ghost predicate Tidy(reg: Registry, gone: set<Id>, c: Id, list: seq<Msg>) {
    FeedOk(list) && AllHonest(reg, list) && forall m | m in list :: m.id !in gone && m.conv == c
  }

  lemma ReplaceKeepsFeed(list: seq<Msg>, k: nat, m: Msg)
    requires FeedOk(list) && k < |list| && list[k].id == m.id && list[k].sortKey == m.sortKey
    ensures FeedOk(list[k := m])
    ensures forall x :: x in list[k := m] <==> x == m || (x in list && x.id != m.id)
  {
    var r := list[k := m];
    forall i, j | 0 <= i < j < |r| ensures Before(r[i], r[j]) {
      assert Before(list[i], list[j]);
    }
    assert r[k] == m;
    forall x | x in list && x.id != m.id ensures x in r {
      var i :| 0 <= i < |list| && list[i] == x;
      assert r[i] == x;
    }
    forall x | x in r && x != m ensures x in list && x.id != m.id {
      var i :| 0 <= i < |r| && r[i] == x;
      assert list[i] == x && list[i].id != list[k].id;
    }
  }

  lemma AppendSortKeepsFeed(list: seq<Msg>, m: Msg)
    requires FeedOk(list) && m.id !in Ids(list)
    ensures FeedOk(Sort(list + [m]))
    ensures forall x :: x in Sort(list + [m]) <==> x in list || x == m
  {
    SortOfFeed(list);
    assert (list + [m])[..|list|] == list;
    InsertKeepsFeed(list, m);
  }

  // ----- one lemma a rule -----

  lemma MessageKeepsTidy(reg: Registry, s: State, list: seq<Msg>, c: Id, d: Delivered, P: nat)
    requires Tidy(reg, s.gone, c, list)
    requires d.Live? ==> Honest(reg, d.m)
    requires DeliveredConv(d) == c
    ensures var r := ApplyMessage(s, Some(list), d, P);
      r.list.Some? && Tidy(reg, r.state.gone, c, r.list.value) && s.gone <= r.state.gone
  {
    hide Sort, Filter, Before, IndexOf, InsideWindow;
    if d.Tomb? {
      FilterKeepsFeed(list, (x: Msg) => x.id != d.id);
      var k := IndexOf(list, d.id);
      if k < 0 { assert forall x | x in list :: x.id in Ids(list); }
    } else {
      var k := IndexOf(list, d.m.id);
      if k >= 0 {
        assert list[k] in list;
        ReplaceKeepsFeed(list, k, d.m);
      } else {
        AppendSortKeepsFeed(list, d.m);
      }
    }
  }

  lemma {:induction false} IncomingFacts(s: State, have: seq<Msg>, page: Page, ms: seq<Msg>)
    ensures forall x | x in IncomingOf(s, have, page, ms) ::
      x.id !in s.gone && x.id in Ids(ms) &&
      (if Newer_(s, page, x.id) then x in have else x in ms)
  {
    if ms != [] {
      var t, z := ms[..|ms| - 1], ms[|ms| - 1];
      IncomingFacts(s, have, page, t);
      assert ms == t + [z];
      assert z in ms && forall x | x in t :: x in ms;
      forall x | x in IncomingOf(s, have, page, ms)
        ensures x.id !in s.gone && x.id in Ids(ms) && (if Newer_(s, page, x.id) then x in have else x in ms)
      {
        if x !in IncomingOf(s, have, page, t) {
          assert x in Taken(s, have, page, z);
          assert x.id == z.id;
        }
      }
    }
  }

  lemma MergedComesFromInputs(s: State, have: seq<Msg>, c: Id, page: Page, kind: PageKind)
    ensures FeedOk(MergedList(s, have, c, page, kind))
    ensures forall x | x in MergedList(s, have, c, page, kind) :: x in have || x in Incoming(s, have, page)
  {
    hide Dedupe, Sort, Filter, IncomingOf, Before, IndexOf, IsLast, Joins;
    DedupeMakesFeed(MergeParts(s, have, c, page, kind, Incoming(s, have, page)));
  }

  /** A page of any kind, with any content that respects the registry, keeps the feed tidy, whatever was there before. */
  lemma PageKeepsTidy(reg: Registry, s: State, list: Option<seq<Msg>>, c: Id, page: Page, kind: PageKind)
    requires list.Some? ==> Tidy(reg, s.gone, c, list.value)
    requires AllHonest(reg, page.messages) && forall m | m in page.messages :: m.conv == c
    ensures var r := ApplyPage(s, list, c, page, kind);
      r.list.Some? && Tidy(reg, r.state.gone, c, r.list.value) && r.state.gone == s.gone
  {
    hide MergedList, MergedWindow, IncomingOf, Before;
    MergedComesFromInputs(s, Have(list), c, page, kind);
    IncomingFacts(s, Have(list), page, page.messages);
  }

  lemma TrimKeepsTidy(reg: Registry, s: State, list: seq<Msg>, c: Id, side: Side, count: int)
    requires Tidy(reg, s.gone, c, list)
    ensures var r := TrimWindow(s, list, c, side, count);
      r.list.Some? && Tidy(reg, r.state.gone, c, r.list.value) && r.state.gone == s.gone
  {
  }

  lemma SentKeepsTidy(reg: Registry, s: State, list: seq<Msg>, c: Id, m: Msg)
    requires Tidy(reg, s.gone, c, list) && Honest(reg, m) && m.conv == c
    ensures var r := ApplySent(s, Some(list), m);
      r.list.Some? && Tidy(reg, r.state.gone, c, r.list.value) && r.state.gone == s.gone
  {
    if IndexOf(list, m.id) < 0 && m.id !in s.gone {
      AppendSortKeepsFeed(list, m);
    }
  }

  lemma EditedKeepsTidy(reg: Registry, s: State, list: seq<Msg>, c: Id, m: Msg)
    requires Tidy(reg, s.gone, c, list) && Honest(reg, m)
    ensures Tidy(reg, s.gone, c, ApplyEdited(list, m))
  {
    var r := ApplyEdited(list, m);
    forall i | 0 <= i < |r| ensures r[i].id == list[i].id && r[i].sortKey == list[i].sortKey && Honest(reg, r[i]) {
      assert list[i] in list;
    }
    forall i, j | 0 <= i < j < |r| ensures Before(r[i], r[j]) { assert Before(list[i], list[j]); }
    forall x | x in r ensures x.id !in s.gone && x.conv == c {
      var i :| 0 <= i < |r| && r[i] == x;
      assert list[i] in list;
    }
  }

  lemma RemovedKeepsTidy(reg: Registry, s: State, list: seq<Msg>, c: Id, id: Id)
    requires Tidy(reg, s.gone, c, list)
    ensures var r := ApplyRemoved(s, Some(list), id);
      r.list.Some? && Tidy(reg, r.state.gone, c, r.list.value) && s.gone <= r.state.gone && id in r.state.gone
  {
    FilterKeepsFeed(list, (x: Msg) => x.id != id);
  }

  lemma ViaKeepsTidy(reg: Registry, s: State, list: seq<Msg>, c: Id, messages: seq<Msg>)
    requires Tidy(reg, s.gone, c, list)
    requires AllHonest(reg, messages) && forall m | m in messages :: m.conv == c
    ensures var r := ApplyViaPage(s, Some(list), c, messages);
      r.list.Some? && Tidy(reg, r.state.gone, c, r.list.value) && r.state.gone == s.gone
  {
    hide Dedupe, Sort, Filter, Before, IsLast;
    DedupeMakesFeed(Sort(list + FreshVia(s, list, messages)));
  }

  lemma SameIdSameMsg(list: seq<Msg>, a: Msg, b: Msg)
    requires UniqueIds(list) && a in list && b in list && a.id == b.id
    ensures a == b
  {
    var i :| 0 <= i < |list| && list[i] == a;
    var j :| 0 <= j < |list| && list[j] == b;
  }

  /** The last message of `all` with the id of a listed one is that one, when nothing added has the id. */
  lemma LastIsOwn(list: seq<Msg>, added: seq<Msg>, all: seq<Msg>, x: Msg)
    requires UniqueIds(list) && x in list && x.id !in Ids(added)
    requires forall m :: m in all <==> m in list || m in added
    ensures IsLast(all, x)
  {
    var i :| 0 <= i < |all| && all[i] == x;
    var y := LastWithId(all, x.id, i);
    assert y in all && forall m | m in added :: m.id != x.id;
    SameIdSameMsg(list, x, y);
  }

  /** A page from another instance only adds: what the home server showed stays as it was. */
  lemma ViaOnlyAdds(s: State, list: seq<Msg>, c: Id, messages: seq<Msg>)
    requires FeedOk(list)
    ensures var r := ApplyViaPage(s, Some(list), c, messages);
      forall x | x in list :: x in r.list.value && TagOf(r.state, x.id) == TagOf(s, x.id)
  {
    hide Dedupe, Sort, Filter, Before, IsLast;
    var added := FreshVia(s, list, messages);
    var all := Sort(list + added);
    DedupeMakesFeed(all);
    forall x | x in list ensures IsLast(all, x) && x.id !in Ids(added) {
      assert x.id in Ids(list);
      LastIsOwn(list, added, all, x);
    }
  }

  // ----- whole runs -----

  /** One merge: what arrived, for the rule that takes it. */
  datatype Call =
    | MessageIn(d: Delivered, P: nat)
    | PageIn(c: Id, page: Page, kind: PageKind)
    | TrimIn(c: Id, side: Side, count: int)
    | SentIn(m: Msg)
    | EditIn(m: Msg)
    | RemovedIn(c: Id, id: Id)
    | ViaIn(c: Id, messages: seq<Msg>)
    | StandingIn(st: Standing, P: nat)
    | ListIn(res: ListReply)

  datatype Sys = Sys(state: State, feeds: Feeds)

  function FeedOf(feeds: Feeds, c: Id): Option<seq<Msg>> {
    if c in feeds then Some(feeds[c]) else None
  }

  function WithFeed(feeds: Feeds, c: Id, list: Option<seq<Msg>>): Feeds {
    if list.Some? then feeds[c := list.value] else feeds - {c}
  }

  function WithMerged(sys: Sys, c: Id, r: Merged): Sys {
    Sys(r.state, WithFeed(sys.feeds, c, r.list))
  }

  function Perform(sys: Sys, call: Call): Sys {
    match call
    case MessageIn(d, P) =>
      var c := DeliveredConv(d);
      WithMerged(sys, c, ApplyMessage(sys.state, FeedOf(sys.feeds, c), d, P))
    case PageIn(c, page, kind) => WithMerged(sys, c, ApplyPage(sys.state, FeedOf(sys.feeds, c), c, page, kind))
    case TrimIn(c, side, count) =>
      if c in sys.feeds then WithMerged(sys, c, TrimWindow(sys.state, sys.feeds[c], c, side, count)) else sys
    case SentIn(m) => WithMerged(sys, m.conv, ApplySent(sys.state, FeedOf(sys.feeds, m.conv), m))
    case EditIn(m) =>
      if m.conv in sys.feeds then sys.(feeds := sys.feeds[m.conv := ApplyEdited(sys.feeds[m.conv], m)]) else sys
    case RemovedIn(c, id) => WithMerged(sys, c, ApplyRemoved(sys.state, FeedOf(sys.feeds, c), id))
    case ViaIn(c, messages) => WithMerged(sys, c, ApplyViaPage(sys.state, FeedOf(sys.feeds, c), c, messages))
    case StandingIn(st, P) =>
      var r := ApplySummary(sys.state, st, P);
      if r.dropped.None? then sys.(state := r.state)
      else
        // A conversation the person left takes its feed and its lists along.
        var c := r.dropped.value;
        Sys(r.state.(pins := r.state.pins - {c}, scheduled := r.state.scheduled - {c}), sys.feeds - {c})
    case ListIn(res) => sys.(state := ApplyList(sys.state, res))
  }

  function PerformAll(sys: Sys, calls: seq<Call>): Sys {
    if calls == [] then sys else Perform(PerformAll(sys, calls[..|calls| - 1]), calls[|calls| - 1])
  }

  /** The server never moves a message: what arrives names it with the key and the conversation it has. */
  ghost predicate HonestCall(reg: Registry, call: Call) {
    match call
    case MessageIn(d, P) => if d.Live? then Honest(reg, d.m) else d.conv == reg.home(d.id)
    case PageIn(c, page, kind) => AllHonest(reg, page.messages) && forall m | m in page.messages :: m.conv == c
    case TrimIn(c, side, count) => true
    case SentIn(m) => Honest(reg, m)
    case EditIn(m) => Honest(reg, m)
    case RemovedIn(c, id) => c == reg.home(id)
    case ViaIn(c, messages) => AllHonest(reg, messages) && forall m | m in messages :: m.conv == c
    case StandingIn(st, P) => true
    case ListIn(res) => true
  }

  ghost predicate SysTidy(reg: Registry, sys: Sys) {
    forall c | c in sys.feeds :: Tidy(reg, sys.state.gone, c, sys.feeds[c])
  }

  /** A rule that is about conversation `c` only: it may add to `gone` ids of that conversation alone. */
  lemma PutKeepsTidy(reg: Registry, sys: Sys, c: Id, r: Merged)
    requires SysTidy(reg, sys)
    requires r.list.Some? ==> Tidy(reg, r.state.gone, c, r.list.value)
    requires sys.state.gone <= r.state.gone && forall id | id in r.state.gone - sys.state.gone :: reg.home(id) == c
    ensures SysTidy(reg, WithMerged(sys, c, r))
  {
    hide Sorted, UniqueIds;
  }

  lemma PerformKeepsTidy(reg: Registry, sys: Sys, call: Call)
    requires SysTidy(reg, sys) && HonestCall(reg, call)
    ensures SysTidy(reg, Perform(sys, call))
    ensures sys.state.gone <= Perform(sys, call).state.gone
  {
    hide ApplyMessage, ApplyPage, TrimWindow, ApplySent, ApplyEdited, ApplyRemoved, ApplyViaPage, Tidy;
    var list := FeedOf(sys.feeds, CallConv(call));
    match call
    case MessageIn(d, P) =>
      var c := DeliveredConv(d);
      MessageGone(sys.state, list, d, P);
      if list.Some? { MessageKeepsTidy(reg, sys.state, list.value, c, d, P); }
      PutKeepsTidy(reg, sys, c, ApplyMessage(sys.state, list, d, P));
    case PageIn(c, page, kind) =>
      PageKeepsTidy(reg, sys.state, list, c, page, kind);
      PutKeepsTidy(reg, sys, c, ApplyPage(sys.state, list, c, page, kind));
    case TrimIn(c, side, count) =>
      if list.Some? {
        TrimKeepsTidy(reg, sys.state, list.value, c, side, count);
        PutKeepsTidy(reg, sys, c, TrimWindow(sys.state, list.value, c, side, count));
      }
    case SentIn(m) =>
      SentGone(sys.state, list, m);
      if list.Some? { SentKeepsTidy(reg, sys.state, list.value, m.conv, m); }
      PutKeepsTidy(reg, sys, m.conv, ApplySent(sys.state, list, m));
    case EditIn(m) =>
      if list.Some? { EditedKeepsTidy(reg, sys.state, list.value, m.conv, m); }
    case RemovedIn(c, id) =>
      RemovedGone(sys.state, list, id);
      if list.Some? { RemovedKeepsTidy(reg, sys.state, list.value, c, id); }
      PutKeepsTidy(reg, sys, c, ApplyRemoved(sys.state, list, id));
    case ViaIn(c, messages) =>
      ViaGone(sys.state, list, c, messages);
      if list.Some? { ViaKeepsTidy(reg, sys.state, list.value, c, messages); }
      PutKeepsTidy(reg, sys, c, ApplyViaPage(sys.state, list, c, messages));
    case StandingIn(st, P) =>
    case ListIn(res) =>
  }

  function CallConv(call: Call): Id {
    match call
    case MessageIn(d, _) => DeliveredConv(d)
    case PageIn(c, _, _) => c
    case TrimIn(c, _, _) => c
    case SentIn(m) => m.conv
    case EditIn(m) => m.conv
    case RemovedIn(c, _) => c
    case ViaIn(c, _) => c
    case StandingIn(st, _) => StandingId(st)
    case ListIn(_) => ""
  }

  /** `gone` and absent feeds: a tombstone is remembered even without a feed, and no rule makes up a feed but a page. */
  lemma MessageGone(s: State, list: Option<seq<Msg>>, d: Delivered, P: nat)
    ensures var r := ApplyMessage(s, list, d, P);
      r.state.gone == s.gone + (if d.Tomb? then {d.id} else {}) && r.list.Some? == list.Some?
  {
    hide Sort, Filter, IndexOf, InsideWindow;
  }

  lemma SentGone(s: State, list: Option<seq<Msg>>, m: Msg)
    ensures ApplySent(s, list, m).state.gone == s.gone && ApplySent(s, list, m).list.Some? == list.Some?
  {
    hide Sort, IndexOf;
  }

  lemma RemovedGone(s: State, list: Option<seq<Msg>>, id: Id)
    ensures ApplyRemoved(s, list, id).state.gone == s.gone + {id}
    ensures ApplyRemoved(s, list, id).list.Some? == list.Some?
  {
  }

  lemma ViaGone(s: State, list: Option<seq<Msg>>, c: Id, messages: seq<Msg>)
    ensures var r := ApplyViaPage(s, list, c, messages);
      r.state.gone == s.gone && r.list.Some? == list.Some?
  {
    hide Sort, Dedupe, Filter;
  }

  /**
   * After any run of merges from a tidy state: every feed is strictly ordered with one entry a message, nothing gone is
   * listed, and what was gone at the start is gone at the end.
   */
  lemma {:induction false} RunKeepsTidy(reg: Registry, sys: Sys, calls: seq<Call>)
    requires SysTidy(reg, sys) && forall k | 0 <= k < |calls| :: HonestCall(reg, calls[k])
    ensures SysTidy(reg, PerformAll(sys, calls))
    ensures sys.state.gone <= PerformAll(sys, calls).state.gone
  {
    hide Perform, SysTidy;
    if calls != [] {
      var t := calls[..|calls| - 1];
      assert forall k | 0 <= k < |t| :: t[k] == calls[k];
      RunKeepsTidy(reg, sys, t);
      PerformKeepsTidy(reg, PerformAll(sys, t), calls[|calls| - 1]);
    }
  }

  /** A message deleted at any point of a run from the empty state is not in any feed at any later point. */
  lemma DeletedNeverReturns(reg: Registry, before: seq<Call>, after: seq<Call>, id: Id)
    requires forall k | 0 <= k < |before| :: HonestCall(reg, before[k])
    requires forall k | 0 <= k < |after| :: HonestCall(reg, after[k])
    requires id in PerformAll(Sys(EMPTY, map[]), before).state.gone
    ensures var end := PerformAll(PerformAll(Sys(EMPTY, map[]), before), after);
      forall c | c in end.feeds :: id !in Ids(end.feeds[c])
  {
    hide PerformAll, Sorted, UniqueIds;
    RunKeepsTidy(reg, Sys(EMPTY, map[]), before);
    RunKeepsTidy(reg, PerformAll(Sys(EMPTY, map[]), before), after);
  }
  // ----- numbers -----

  lemma MessageTagsGrow(s: State, list: Option<seq<Msg>>, d: Delivered, P: nat)
    ensures forall id: Id :: TagOf(s, id) <= TagOf(ApplyMessage(s, list, d, P).state, id)
  {
    hide Sort, Filter, IndexOf, InsideWindow;
  }

  lemma PageTagsGrow(s: State, page: Page)
    ensures forall id: Id :: TagOf(s, id) <= TagOf(s.(msgPts := PageTags(s, page)), id)
  {
    forall id: Id ensures TagOf(s, id) <= TagOf(s.(msgPts := PageTags(s, page)), id) {
      if id in Retagged(s, page) { assert !Newer_(s, page, id); }
    }
  }

  lemma TrimKeepsListedTags(s: State, list: seq<Msg>, c: Id, side: Side, count: int, id: Id)
    requires FeedOk(list)
    ensures var r := TrimWindow(s, list, c, side, count);
      r.list.Some? && (id in Ids(r.list.value) || id !in Ids(list) ==> TagOf(r.state, id) == TagOf(s, id))
  {
    if c in s.windows && 0 < count < |list| {
      var k := if side == Top then count else |list| - count;
      forall x, y | x in list[..k] && y in list[k..] ensures x.id != y.id {
        var i :| 0 <= i < k && list[i] == x;
        var j :| 0 <= j < |list| - k && list[k..][j] == y;
        assert list[k + j] == y;
      }
      assert forall x | x in list[..k] :: x in list;
      assert forall x | x in list[k..] :: x in list;
    }
    hide Sorted, UniqueIds;
  }

  lemma HomeIsOne(reg: Registry, sys: Sys, c: Id, k: Id, id: Id)
    requires SysTidy(reg, sys) && c in sys.feeds && k in sys.feeds && id in Ids(sys.feeds[c]) && id in Ids(sys.feeds[k])
    ensures c == k
  {
    var x :| x in sys.feeds[c] && x.id == id;
    var y :| y in sys.feeds[k] && y.id == id;
    assert Tidy(reg, sys.state.gone, c, sys.feeds[c]) && Tidy(reg, sys.state.gone, k, sys.feeds[k]);
    hide FeedOk;
  }

  /** While a message stays listed its freshness number never falls, whatever is merged. */
  lemma TagsNeverFall(reg: Registry, sys: Sys, call: Call, c: Id, id: Id)
    requires SysTidy(reg, sys) && c in sys.feeds && id in Ids(sys.feeds[c])
    requires var t := Perform(sys, call); c in t.feeds && id in Ids(t.feeds[c])
    ensures TagOf(sys.state, id) <= TagOf(Perform(sys, call).state, id)
  {
    var list := FeedOf(sys.feeds, CallConv(call));
    match call
    case MessageIn(d, P) =>
      MessageTagsGrow(sys.state, list, d, P);
      hide ApplyMessage;
    case PageIn(k, page, kind) =>
      PageTagsGrow(sys.state, page);
      hide PageTags, MergedList, MergedWindow;
    case TrimIn(k, side, count) =>
      hide TrimWindow;
      if k in sys.feeds {
        assert Tidy(reg, sys.state.gone, k, sys.feeds[k]);
        TrimKeepsListedTags(sys.state, sys.feeds[k], k, side, count, id);
        if id in Ids(sys.feeds[k]) { HomeIsOne(reg, sys, c, k, id); }
      }
    case SentIn(m) =>
      hide Sort, IndexOf;
    case ViaIn(k, messages) =>
      hide FreshVia, Dedupe, Sort;
    case StandingIn(st, P) =>
    case ListIn(res) =>
      hide ListedSummaries, ListedNumbers;
    case EditIn(m) =>
    case RemovedIn(k, i) =>
  }

  /** The message is listed after every one of the first `n` calls. */
  ghost predicate ListedThroughout(sys: Sys, calls: seq<Call>, c: Id, id: Id) {
    forall n | 0 <= n <= |calls| ::
      var t := PerformAll(sys, calls[..n]); c in t.feeds && id in Ids(t.feeds[c])
  }

  lemma {:induction false} RunTagsNeverFall(reg: Registry, sys: Sys, calls: seq<Call>, c: Id, id: Id)
    requires SysTidy(reg, sys) && (forall k | 0 <= k < |calls| :: HonestCall(reg, calls[k])) && ListedThroughout(sys, calls, c, id)
    ensures TagOf(sys.state, id) <= TagOf(PerformAll(sys, calls).state, id)
  {
    if calls != [] {
      var t := calls[..|calls| - 1];
      assert forall n | 0 <= n <= |t| :: t[..n] == calls[..n];
      assert calls[..|calls|] == calls && calls[..|t|] == t;
      forall n | 0 <= n <= |t| ensures var u := PerformAll(sys, t[..n]); c in u.feeds && id in Ids(u.feeds[c]) {
        assert t[..n] == calls[..n];
      }
      assert forall k | 0 <= k < |t| :: t[k] == calls[k];
      RunTagsNeverFall(reg, sys, t, c, id);
      RunKeepsTidy(reg, sys, t);
      hide Perform, SysTidy, HonestCall, TagOf;
      assert PerformAll(sys, calls) == Perform(PerformAll(sys, t), calls[|calls| - 1]);
      assert c in PerformAll(sys, calls[..|calls|]).feeds && c in PerformAll(sys, calls[..|t|]).feeds;
      TagsNeverFall(reg, PerformAll(sys, t), calls[|calls| - 1], c, id);
    }
  }

  // ----- summaries -----

  /** A conversation's standing with its number, as it arrives in events and replies. */
  datatype Told = Told(st: Standing, P: nat)

  function FoldStandings(s: State, ts: seq<Told>): State {
    if ts == [] then s else ApplySummary(FoldStandings(s, ts[..|ts| - 1]), ts[|ts| - 1].st, ts[|ts| - 1].P).state
  }

  /** The summary that a standing leaves behind. */
  function SummaryAfter(st: Standing): Option<Summary> {
    if st.Present? then Some(st.s)
    else if st.former.Some? && st.former.value.former && st.former.value.id == st.id then st.former
    else None
  }

  ghost predicate ShowsStanding(s: State, c: Id, t: Told) {
    c in s.summaryPts && s.summaryPts[c] == t.P &&
    (if SummaryAfter(t.st).Some? then c in s.summaries && s.summaries[c] == SummaryAfter(t.st).value else c !in s.summaries)
  }

  /** One more standing: it decides if its number is larger, else it changes nothing. */
  lemma OneStanding(s: State, c: Id, t: Told, z: Told)
    requires ShowsStanding(s, c, t) && StandingId(z.st) == c
    ensures ShowsStanding(ApplySummary(s, z.st, z.P).state, c, if z.P <= t.P then t else z)
  {
  }

  lemma FirstStanding(s: State, c: Id, z: Told)
    requires c !in s.summaryPts && StandingId(z.st) == c
    ensures ShowsStanding(ApplySummary(s, z.st, z.P).state, c, z)
  {
  }

  lemma {:induction false} StandingsAreNewest(s: State, c: Id, ts: seq<Told>)
    requires c !in s.summaryPts && ts != [] && forall t | t in ts :: StandingId(t.st) == c
    ensures exists t | t in ts :: ShowsStanding(FoldStandings(s, ts), c, t) && forall u | u in ts :: u.P <= t.P
  {
    var r, z := ts[..|ts| - 1], ts[|ts| - 1];
    assert ts == r + [z] && z in ts;
    hide ApplySummary, ShowsStanding;
    if r == [] {
      assert FoldStandings(s, r) == s;
      FirstStanding(s, c, z);
      assert ShowsStanding(FoldStandings(s, ts), c, z);
    } else {
      assert forall t | t in r :: t in ts;
      StandingsAreNewest(s, c, r);
      var t :| t in r && ShowsStanding(FoldStandings(s, r), c, t) && forall u | u in r :: u.P <= t.P;
      OneStanding(FoldStandings(s, r), c, t, z);
    }
  }

  /** In whatever order standings of a conversation arrive, the one with the largest number decides: both orders agree. */
  lemma NewestStandingWins(s: State, c: Id, a: seq<Told>, b: seq<Told>)
    requires c !in s.summaryPts && a != [] && (forall t :: t in a <==> t in b)
    requires forall t | t in a :: StandingId(t.st) == c
    requires forall t, u | t in a && u in a && t.P == u.P :: t == u
    ensures var x, y := FoldStandings(s, a), FoldStandings(s, b);
      c in x.summaryPts && c in y.summaryPts && x.summaryPts[c] == y.summaryPts[c] &&
      (c in x.summaries <==> c in y.summaries) && (c in x.summaries ==> x.summaries[c] == y.summaries[c])
  {
    assert a[0] in b;
    StandingsAreNewest(s, c, a);
    StandingsAreNewest(s, c, b);
    hide FoldStandings;
    var t :| t in a && ShowsStanding(FoldStandings(s, a), c, t) && forall u | u in a :: u.P <= t.P;
    var u :| u in b && ShowsStanding(FoldStandings(s, b), c, u) && forall v | v in b :: v.P <= u.P;
    assert t.P <= u.P && u.P <= t.P;
  }

  /** What two states say about the standing of this conversation. */
  ghost predicate SameSummary(s: State, t: State, c: Id) {
    (c in s.summaries <==> c in t.summaries) && (c in s.summaries ==> s.summaries[c] == t.summaries[c])
  }

  ghost predicate About(ts: seq<Told>, c: Id, t: Told) {
    t in ts && StandingId(t.st) == c
  }

  ghost predicate NewestOf(ts: seq<Told>, c: Id, t: Told) {
    About(ts, c, t) && forall u | About(ts, c, u) :: u.P <= t.P
  }

  ghost predicate Before_(s: State, c: Id, P: nat) {
    c in s.summaryPts ==> s.summaryPts[c] <= P
  }

  lemma OtherStanding(s: State, c: Id, z: Told)
    requires StandingId(z.st) != c
    ensures var r := ApplySummary(s, z.st, z.P).state;
      SameSummary(s, r, c) && (c in s.summaryPts <==> c in r.summaryPts) && (c in s.summaryPts ==> s.summaryPts[c] == r.summaryPts[c])
  {
  }

  lemma NewerStanding(s: State, c: Id, P: nat, z: Told)
    requires Before_(s, c, P) && StandingId(z.st) == c && z.P > P
    ensures ShowsStanding(ApplySummary(s, z.st, z.P).state, c, z)
  {
  }

  /** Standings numbered beyond `P`, of all conversations mixed: the newest one of this conversation decides, if there is one. */
  lemma {:induction false} StandingsDecide(s: State, c: Id, P: nat, ts: seq<Told>)
    requires Before_(s, c, P) && forall t | About(ts, c, t) :: t.P > P
    ensures var f := FoldStandings(s, ts);
      (exists t :: NewestOf(ts, c, t) && ShowsStanding(f, c, t)) ||
      ((forall t :: !About(ts, c, t)) && SameSummary(s, f, c) && Before_(f, c, P))
  {
    if ts != [] {
      var r, z := ts[..|ts| - 1], ts[|ts| - 1];
      assert ts == r + [z];
      assert forall t :: About(ts, c, t) <==> About(r, c, t) || (t == z && StandingId(z.st) == c);
      StandingsDecide(s, c, P, r);
      var f := FoldStandings(s, r);
      hide About, ApplySummary, ShowsStanding, FoldStandings;
      assert FoldStandings(s, ts) == ApplySummary(f, z.st, z.P).state by { FoldStep(s, r, z); }
      if StandingId(z.st) != c {
        OtherStanding(f, c, z);
        if t :| NewestOf(r, c, t) && ShowsStanding(f, c, t) {
          ShowsKept(f, ApplySummary(f, z.st, z.P).state, c, t);
          assert NewestOf(ts, c, t);
        }
      } else if t :| NewestOf(r, c, t) && ShowsStanding(f, c, t) {
        OneStanding(f, c, t, z);
        assert NewestOf(ts, c, if z.P <= t.P then t else z);
      } else {
        NewerStanding(f, c, P, z);
        assert NewestOf(ts, c, z);
      }
    }
  }

  lemma FoldStep(s: State, r: seq<Told>, z: Told)
    ensures FoldStandings(s, r + [z]) == ApplySummary(FoldStandings(s, r), z.st, z.P).state
  {
    assert (r + [z])[..|r|] == r;
  }

  lemma ShowsKept(f: State, g: State, c: Id, t: Told)
    requires ShowsStanding(f, c, t) && SameSummary(f, g, c)
    requires (c in f.summaryPts <==> c in g.summaryPts) && (c in f.summaryPts ==> f.summaryPts[c] == g.summaryPts[c])
    ensures ShowsStanding(g, c, t)
  {
  }

  /**
   * Two clients agree on a conversation at number `P` (one perhaps launched from a record of the other) and then hear the
   * same standings of it beyond `P`, in any order, with repetitions, mixed with those of others: they agree again.
   */
  lemma SummariesAgree(s: State, t: State, c: Id, P: nat, a: seq<Told>, b: seq<Told>)
    requires Before_(s, c, P) && Before_(t, c, P) && SameSummary(s, t, c)
    requires forall u :: About(a, c, u) <==> About(b, c, u)
    requires forall u | About(a, c, u) :: u.P > P
    requires forall u, v | About(a, c, u) && About(a, c, v) && u.P == v.P :: u == v
    ensures SameSummary(FoldStandings(s, a), FoldStandings(t, b), c)
  {
    StandingsDecide(s, c, P, a);
    StandingsDecide(t, c, P, b);
    hide FoldStandings, About;
    if u :| NewestOf(a, c, u) && ShowsStanding(FoldStandings(s, a), c, u) {
      var v :| NewestOf(b, c, v) && ShowsStanding(FoldStandings(t, b), c, v);
      assert u.P <= v.P && v.P <= u.P;
    }
  }
}
