/** What a page of history leaves behind, message by message: contents of the feed, flags of the window, numbers. */
module PageEffect {
  import opened Feed
  import opened SyncRules
  import FeedSafety

  /** Pages and feeds agree on where a message sits. */
  ghost predicate SameKeys(have: seq<Msg>, ms: seq<Msg>) {
    forall x, p | x in have && p in ms && x.id == p.id :: x.sortKey == p.sortKey
  }

  /**
   * The view that the page leaves of one of its messages: none if it is gone; if the client knows a view newer than the
   * page, that view as far as it is listed; else the view of the page.
   */
  ghost predicate Brought(s: State, have: seq<Msg>, page: Page, x: Msg) {
    x.id !in s.gone && x.id in Ids(page.messages) &&
    if x.id in s.msgPts && s.msgPts[x.id] > page.pts then x in have else x in page.messages
  }

  /** The client holds a view of a listed message that is newer than the page. */
  predicate Ahead(s: State, page: Page, x: Msg) {
    x.id in s.msgPts && s.msgPts[x.id] > page.pts
  }

  predicate Stale(s: State, c: Id) {
    c in s.windows && s.windows[c].stale
  }

  /** A listed message that is not ahead of the page lies at or above something the page brings. */
  ghost predicate Reaches(s: State, have: seq<Msg>, page: Page) {
    exists y, z :: y in have && !Ahead(s, page, y) && Brought(s, have, page, z) && !Before(y, z)
  }

  /**
   * An old message stays below a last page: more lies before the page, the window is not marked stale, it reaches the
   * page, and the message lies below all that the page brings.
   */
  ghost predicate StaysBelow(s: State, have: seq<Msg>, c: Id, page: Page, x: Msg) {
    x in have && page.hasMoreBefore && !Stale(s, c) && Reaches(s, have, page) &&
    forall z | Brought(s, have, page, z) :: Before(x, z)
  }

  /** The merged feed of each kind of page. A conversation without a window takes any page but a jump as its last. */
  ghost predicate ListedAfter(s: State, have: seq<Msg>, c: Id, page: Page, kind: PageKind, x: Msg) {
    if kind == Jump then Brought(s, have, page, x) || (x in have && Ahead(s, page, x) && !page.hasMoreAfter)
    else if kind == Latest || c !in s.windows then
      Brought(s, have, page, x) || (x in have && Ahead(s, page, x)) || StaysBelow(s, have, c, page, x)
    else if kind == Older then x in have || (Brought(s, have, page, x) && x.id !in Ids(have))
    else Brought(s, have, page, x) || (x in have && forall z | Brought(s, have, page, z) :: z.id != x.id)
  }

  // ----- what comes in -----

  lemma OneOf(have: seq<Msg>, x: Msg)
    requires UniqueIds(have) && x in have
    ensures 0 <= IndexOf(have, x.id) < |have| && have[IndexOf(have, x.id)] == x
  {
    var i :| 0 <= i < |have| && have[i] == x;
    assert x.id in Ids(have);
  }

  /** What is taken from the first messages of a page, exactly. */
  ghost predicate TakenFrom(s: State, have: seq<Msg>, page: Page, ms: seq<Msg>, x: Msg) {
    x.id !in s.gone && x.id in Ids(ms) && if Ahead(s, page, x) then x in have else x in ms
  }

  lemma TakenExactly(s: State, have: seq<Msg>, page: Page, m: Msg, x: Msg)
    requires UniqueIds(have)
    ensures x in Taken(s, have, page, m) <==>
      x.id == m.id && x.id !in s.gone && if Ahead(s, page, x) then x in have else x == m
  {
    hide UniqueIds;
    if x in have { OneOf(have, x); }
  }

  lemma {:induction false} IncomingExactly(s: State, have: seq<Msg>, page: Page, ms: seq<Msg>, x: Msg)
    requires UniqueIds(have) && UniqueIds(ms)
    ensures x in IncomingOf(s, have, page, ms) <==> TakenFrom(s, have, page, ms, x)
  {
    if ms != [] {
      var t, m := ms[..|ms| - 1], ms[|ms| - 1];
      assert ms == t + [m];
      forall p | p in t ensures p.id != m.id { var i :| 0 <= i < |t| && t[i] == p; assert ms[i] == p; }
      IncomingExactly(s, have, page, t, x);
      TakenExactly(s, have, page, m, x);
      hide Taken, UniqueIds, Ahead;
      assert Ids(ms) == Ids(t) + {m.id};
    }
  }

  /** One more message behind all others. */
  lemma AppendInOrder(t: seq<Msg>, m: Msg, r: seq<Msg>, k: seq<Msg>)
    requires FeedOk(r) && (forall p | p in t :: p.id != m.id && Before(p, m))
    requires forall x | x in r :: exists p :: p in t && p.id == x.id && p.sortKey == x.sortKey
    requires k == [] || (|k| == 1 && k[0].id == m.id && k[0].sortKey == m.sortKey)
    ensures FeedOk(r + k)
  {
    hide IdLess;
    if k != [] {
      forall i | 0 <= i < |r| ensures Before(r[i], k[0]) && r[i].id != k[0].id {
        assert r[i] in r;
        var p :| p in t && p.id == r[i].id && p.sortKey == r[i].sortKey;
        assert Before(p, m);
      }
      assert k == [k[0]];
    }
  }

  lemma TakenKey(s: State, have: seq<Msg>, page: Page, m: Msg)
    requires UniqueIds(have) && SameKeys(have, [m])
    ensures var k := Taken(s, have, page, m); k == [] || (|k| == 1 && k[0].id == m.id && k[0].sortKey == m.sortKey)
  {
    assert m in [m];
    hide UniqueIds;
  }

  lemma IncomingKeys(s: State, have: seq<Msg>, page: Page, ms: seq<Msg>)
    requires UniqueIds(have) && UniqueIds(ms) && SameKeys(have, ms)
    ensures forall x | x in IncomingOf(s, have, page, ms) :: exists p :: p in ms && p.id == x.id && p.sortKey == x.sortKey
  {
    forall x | x in IncomingOf(s, have, page, ms) ensures exists p :: p in ms && p.id == x.id && p.sortKey == x.sortKey {
      IncomingExactly(s, have, page, ms, x);
      hide IncomingOf;
      var p :| p in ms && p.id == x.id;
    }
  }

  /** What is taken keeps the order of the page. */
  lemma {:induction false} IncomingInOrder(s: State, have: seq<Msg>, page: Page, ms: seq<Msg>)
    requires UniqueIds(have) && FeedOk(ms) && SameKeys(have, ms)
    ensures FeedOk(IncomingOf(s, have, page, ms))
  {
    if ms != [] {
      var t, m := ms[..|ms| - 1], ms[|ms| - 1];
      IncomingSplit(s, have, page, ms);
      hide Taken, IncomingOf, Before;
      forall p | p in t ensures p in ms && p.id != m.id && Before(p, m) {
        var i :| 0 <= i < |t| && t[i] == p;
        assert ms[i] == p;
      }
      assert FeedOk(t) && m in ms && SameKeys(have, [m]) && SameKeys(have, t);
      IncomingInOrder(s, have, page, t);
      IncomingKeys(s, have, page, t);
      TakenKey(s, have, page, m);
      hide FeedOk, SameKeys;
      AppendInOrder(t, m, IncomingOf(s, have, page, t), Taken(s, have, page, m));
    } else {
      IncomingNothing(s, have, page);
    }
  }

  lemma IncomingNothing(s: State, have: seq<Msg>, page: Page)
    ensures FeedOk(IncomingOf(s, have, page, []))
  {
  }

  lemma IncomingSplit(s: State, have: seq<Msg>, page: Page, ms: seq<Msg>)
    requires ms != []
    ensures IncomingOf(s, have, page, ms) == IncomingOf(s, have, page, ms[..|ms| - 1]) + Taken(s, have, page, ms[|ms| - 1])
  {
  }

  /** The first of a feed is below all others: comparing with it is comparing with all. */
  lemma FirstDecides(inc: seq<Msg>, x: Msg)
    requires FeedOk(inc) && inc != []
    ensures Before(x, inc[0]) <==> forall z | z in inc :: Before(x, z)
    ensures !Before(x, inc[0]) <==> exists z :: z in inc && !Before(x, z)
  {
    Order();
    assert inc[0] in inc;
    hide Before;
    forall z | z in inc ensures z == inc[0] || Before(inc[0], z) { var i :| 0 <= i < |inc| && inc[i] == z; }
  }

  /** Which old messages a last page keeps below itself. */
  lemma BelowExactly(s: State, have: seq<Msg>, c: Id, page: Page, x: Msg)
    requires FeedOk(have) && FeedOk(page.messages) && SameKeys(have, page.messages)
    ensures x in OlderPart(s, have, c, page, Incoming(s, have, page)) <==> StaysBelow(s, have, c, page, x)
  {
    var inc := Incoming(s, have, page);
    IncomingInOrder(s, have, page, page.messages);
    forall z ensures z in inc <==> Brought(s, have, page, z) { IncomingExactly(s, have, page, page.messages, z); }
    hide IncomingOf, Before, FeedOk, Brought;
    if inc != [] {
      assert inc[0] in inc;
      FirstDecides(inc, x);
      forall y ensures !Before(y, inc[0]) <==> exists z :: z in inc && !Before(y, z) { FirstDecides(inc, y); }
    }
  }

  // ----- which entry of an id wins -----

  lemma {:induction false} LastOfParts(a: seq<Msg>, b: seq<Msg>, x: Msg)
    requires UniqueIds(a) && UniqueIds(b)
    ensures IsLast(a + b, x) <==> x in b || (x in a && x.id !in Ids(b))
  {
    if b == [] {
      assert a + b == a;
      if x in a { var i :| 0 <= i < |a| && a[i] == x; assert IsLast(a, x); }
    } else {
      var t, z := b[..|b| - 1], b[|b| - 1];
      assert a + b == (a + t) + [z] && b == t + [z];
      LastOfParts(a, t, x);
      IsLastStep(a + t, z, x);
      forall p | p in t ensures p.id != z.id { var i :| 0 <= i < |t| && t[i] == p; assert b[i] == p; }
      hide IsLast;
      assert Ids(b) == Ids(t) + {z.id};
    }
  }

  /** Three parts of which the outer two share no id with the middle one, and agree with each other. */
  lemma LastOfThree(older: seq<Msg>, inc: seq<Msg>, newer: seq<Msg>, x: Msg)
    requires forall y, z | y in older + inc + newer && z in older + inc + newer && y.id == z.id :: y == z
    ensures IsLast(older + inc + newer, x) <==> x in older || x in inc || x in newer
  {
    var s := older + inc + newer;
    if x in s {
      var k :| 0 <= k < |s| && s[k] == x;
      var y := LastWithId(s, x.id, k);
      assert y in s && y == x;
    }
  }

  // ----- the theorem -----

  lemma NewerExactly(s: State, have: seq<Msg>, page: Page, inc: seq<Msg>, x: Msg)
    ensures x in NewerThanPage(s, have, page, inc) <==> x in have && Ahead(s, page, x) && x.id !in Ids(inc)
  {
  }

  /** A listed message that is ahead of the page and on it is brought as it is. */
  lemma AheadOnce(s: State, have: seq<Msg>, page: Page, x: Msg)
    requires UniqueIds(have) && UniqueIds(page.messages) && x in have && Ahead(s, page, x) && x.id in Ids(Incoming(s, have, page))
    ensures Brought(s, have, page, x)
  {
    var y :| y in Incoming(s, have, page) && y.id == x.id;
    IncomingExactly(s, have, page, page.messages, y);
  }

  lemma LatestParts(s: State, have: seq<Msg>, c: Id, page: Page, x: Msg)
    requires FeedOk(have) && FeedOk(page.messages) && SameKeys(have, page.messages)
    ensures var inc := Incoming(s, have, page);
      IsLast(OlderPart(s, have, c, page, inc) + inc + NewerThanPage(s, have, page, inc), x) <==>
      Brought(s, have, page, x) || (x in have && Ahead(s, page, x)) || StaysBelow(s, have, c, page, x)
  {
    var inc := Incoming(s, have, page);
    var older, newer := OlderPart(s, have, c, page, inc), NewerThanPage(s, have, page, inc);
    forall z ensures z in inc <==> Brought(s, have, page, z) { IncomingExactly(s, have, page, page.messages, z); }
    forall z ensures z in older <==> StaysBelow(s, have, c, page, z) { BelowExactly(s, have, c, page, z); }
    forall z ensures z in newer <==> z in have && Ahead(s, page, z) && z.id !in Ids(inc) { NewerExactly(s, have, page, inc, z); }
    IncomingInOrder(s, have, page, page.messages);
    forall y, z | y in older && z in inc ensures y.id != z.id { BelowIsApart(s, have, c, page, y, z); }
    assert forall y | y in older || y in newer :: y in have;
    if x in have && Ahead(s, page, x) && x.id in Ids(inc) { AheadOnce(s, have, page, x); }
    hide OlderPart, NewerThanPage, IncomingOf, StaysBelow, Brought, Ahead;
    forall y, z | y in older + inc + newer && z in older + inc + newer && y.id == z.id ensures y == z {
      if y in inc && z in inc { FeedSafety.SameIdSameMsg(inc, y, z); }
      else if y in have && z in have { FeedSafety.SameIdSameMsg(have, y, z); }
    }
    LastOfThree(older, inc, newer, x);
  }

  /** What stays below the page is none of its messages. */
  lemma BelowIsApart(s: State, have: seq<Msg>, c: Id, page: Page, y: Msg, z: Msg)
    requires SameKeys(have, page.messages) && UniqueIds(have) && StaysBelow(s, have, c, page, y) && Brought(s, have, page, z)
    ensures y.id != z.id
  {
    assert Before(y, z);
    BeforeIsTotalOrder(y, z, z);
    if y.id == z.id && z in have { FeedSafety.SameIdSameMsg(have, y, z); }
  }

  lemma JumpParts(s: State, have: seq<Msg>, page: Page, x: Msg)
    requires FeedOk(have) && FeedOk(page.messages) && SameKeys(have, page.messages)
    ensures var inc := Incoming(s, have, page);
      IsLast(inc + (if page.hasMoreAfter then [] else NewerThanPage(s, have, page, inc)), x) <==>
      Brought(s, have, page, x) || (x in have && Ahead(s, page, x) && !page.hasMoreAfter)
  {
    var inc := Incoming(s, have, page);
    var newer := if page.hasMoreAfter then [] else NewerThanPage(s, have, page, inc);
    IncomingExactly(s, have, page, page.messages, x);
    IncomingInOrder(s, have, page, page.messages);
    NewerExactly(s, have, page, inc, x);
    if x in have && Ahead(s, page, x) && x.id in Ids(inc) { AheadOnce(s, have, page, x); }
    assert UniqueIds(newer) by { FilterKeepsFeed(have, (y: Msg) => TagOf(s, y.id) > page.pts && y.id !in Ids(inc)); }
    forall y | y in newer ensures y.id !in Ids(inc) { NewerExactly(s, have, page, inc, y); }
    hide NewerThanPage, IncomingOf, Brought, Ahead, Sorted, UniqueIds;
    LastOfParts(inc, newer, x);
  }

  lemma EdgeParts(s: State, have: seq<Msg>, page: Page, x: Msg)
    requires FeedOk(have) && FeedOk(page.messages) && SameKeys(have, page.messages)
    ensures IsLast(Incoming(s, have, page) + have, x) <==> x in have || (Brought(s, have, page, x) && x.id !in Ids(have))
    ensures IsLast(have + Incoming(s, have, page), x) <==>
      Brought(s, have, page, x) || (x in have && forall z | Brought(s, have, page, z) :: z.id != x.id)
  {
    var inc := Incoming(s, have, page);
    forall z ensures z in inc <==> Brought(s, have, page, z) { IncomingExactly(s, have, page, page.messages, z); }
    IncomingInOrder(s, have, page, page.messages);
    LastOfParts(inc, have, x);
    LastOfParts(have, inc, x);
    hide IsLast, IncomingOf, Brought, FeedOk;
  }

  /**
   * The merged feed of any page, in terms of what was listed, the numbers the client keeps and the page alone: strictly
   * ordered, and holding exactly these messages.
   */
  lemma PageListsExactly(s: State, list: Option<seq<Msg>>, c: Id, page: Page, kind: PageKind)
    requires FeedOk(Have(list)) && FeedOk(page.messages) && SameKeys(Have(list), page.messages)
    ensures var r := ApplyPage(s, list, c, page, kind).list;
      r.Some? && FeedOk(r.value) && forall x :: x in r.value <==> ListedAfter(s, Have(list), c, page, kind, x)
  {
    var have, inc := Have(list), Incoming(s, Have(list), page);
    DedupeMakesFeed(MergeParts(s, have, c, page, kind, inc));
    var r := ApplyPage(s, list, c, page, kind).list.value;
    forall x ensures x in r <==> ListedAfter(s, have, c, page, kind, x) {
      LatestParts(s, have, c, page, x);
      JumpParts(s, have, page, x);
      EdgeParts(s, have, page, x);
      hide Incoming, OlderPart, NewerThanPage, Dedupe, IsLast, Brought, StaysBelow, Ahead, FeedOk;
    }
  }

  /** The flags and the tail number of the window afterwards; a window that took a page as its last is stale no longer. */
  lemma PageSetsWindow(s: State, list: Option<seq<Msg>>, c: Id, page: Page, kind: PageKind)
    requires FeedOk(Have(list)) && FeedOk(page.messages) && SameKeys(Have(list), page.messages)
    ensures var t := ApplyPage(s, list, c, page, kind).state;
      t.windows.Keys == s.windows.Keys + {c} && forall k | k in s.windows && k != c :: t.windows[k] == s.windows[k]
    ensures var w := ApplyPage(s, list, c, page, kind).state.windows[c];
      kind == Jump ==> w == Window(page.pts, page.hasMoreBefore, page.hasMoreAfter, false)
    ensures var w := ApplyPage(s, list, c, page, kind).state.windows[c];
      kind == Latest && c in s.windows ==>
        w.basePts == Max(s.windows[c].basePts, page.pts) && w.hasMoreAfter == page.hasMoreAfter && !w.stale &&
        (if exists x :: StaysBelow(s, Have(list), c, page, x) then w.hasMoreBefore == s.windows[c].hasMoreBefore
         else w.hasMoreBefore == page.hasMoreBefore)
    ensures var w := ApplyPage(s, list, c, page, kind).state.windows[c];
      kind != Jump && c !in s.windows ==> w == Window(page.pts, page.hasMoreBefore, page.hasMoreAfter, false)
    ensures var w := ApplyPage(s, list, c, page, kind).state.windows[c];
      kind == Older && c in s.windows ==> w == s.windows[c].(hasMoreBefore := page.hasMoreBefore)
    ensures var w := ApplyPage(s, list, c, page, kind).state.windows[c];
      kind == Newer && c in s.windows ==>
        w == s.windows[c].(hasMoreAfter := page.hasMoreAfter,
                           basePts := if page.hasMoreAfter then s.windows[c].basePts else Max(s.windows[c].basePts, page.pts))
  {
    var have, inc := Have(list), Incoming(s, Have(list), page);
    var older := OlderPart(s, have, c, page, inc);
    forall x ensures x in older <==> StaysBelow(s, have, c, page, x) { BelowExactly(s, have, c, page, x); }
    HasMember(older);
    hide Incoming, OlderPart, StaysBelow, MergedList, PageTags, FeedOk;
  }

  /** A message of the page gets the number of the page unless it is gone or known in a newer view; nothing else changes. */
  lemma PageNumbers(s: State, list: Option<seq<Msg>>, c: Id, page: Page, kind: PageKind, id: Id)
    ensures var t := ApplyPage(s, list, c, page, kind).state;
      (if id in Ids(page.messages) && id !in s.gone && !(id in s.msgPts && s.msgPts[id] > page.pts)
       then id in t.msgPts && t.msgPts[id] == page.pts
       else (id in t.msgPts <==> id in s.msgPts) && (id in s.msgPts ==> t.msgPts[id] == s.msgPts[id])) &&
      t.pts == s.pts && t.phase == s.phase && t.buffer == s.buffer && t.gone == s.gone && t.summaries == s.summaries &&
      t.summaryPts == s.summaryPts && t.pins == s.pins && t.scheduled == s.scheduled
  {
    hide MergedList, MergedWindow;
    var r := Retagged(s, page);
    assert id in r <==> id in Ids(page.messages) && id !in s.gone && !(id in s.msgPts && s.msgPts[id] > page.pts);
    hide Retagged;
  }

  /**
   * The first last page after a launch starts a stale window over: nothing older stays below it, whether or not it joins,
   * and afterwards the window is stale no longer and has before it what the page says.
   */
  lemma StaleStartsOver(s: State, list: seq<Msg>, c: Id, page: Page)
    requires FeedOk(list) && FeedOk(page.messages) && SameKeys(list, page.messages) && c in s.windows && s.windows[c].stale
    ensures var r := ApplyPage(s, Some(list), c, page, Latest);
      r.list.Some? && (forall x | x in r.list.value :: x.id in Ids(page.messages) || TagOf(s, x.id) > page.pts) &&
      c in r.state.windows && !r.state.windows[c].stale && r.state.windows[c].hasMoreBefore == page.hasMoreBefore
  {
    PageListsExactly(s, Some(list), c, page, Latest);
    PageSetsWindow(s, Some(list), c, page, Latest);
    assert forall x :: !StaysBelow(s, list, c, page, x);
    hide ApplyPage, FeedOk, Reaches;
  }
}
