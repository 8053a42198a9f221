/**
 * What a client's window of one conversation means against the server's journal, and that every rule keeps it:
 * listed messages are up to date, nothing that exists is missing inside the window.
 */
module Windows {
  import opened Feed
  import opened SyncRules
  import opened Journal
  import FeedSafety

  /** `n` is the birth of a message of conversation `c`. */
  ghost predicate BirthIn(J: seq<Change>, n: nat, c: Id) {
    IsBirth(J, n) && BirthMsg(J, n).conv == c
  }

  /** The first `n` numbers of the journal. */
  ghost function UpTo(n: nat): (r: set<nat>)
    ensures forall k :: k in r <==> 1 <= k <= n
  {
    if n == 0 then {} else UpTo(n - 1) + {n}
  }

  /** The whole state: no number is ahead of the journal, only erased messages are gone. */
  ghost predicate StateOk(J: seq<Change>, s: State) {
    PtsOf(s) <= |J| &&
    (forall id | id in s.gone :: ViewAt(J, id, |J|).Erased?) &&
    (forall id | id in s.msgPts :: s.msgPts[id] <= |J|)
  }

  ghost predicate FeedPart(s: State, list: seq<Msg>, c: Id) {
    FeedOk(list) && forall x | x in list :: x.conv == c && x.id !in s.gone && x.id in s.msgPts
  }

  /** Every listed message contains all its changes up to the journal position and up to its own number. */
  ghost predicate FreshPart(J: seq<Change>, s: State, list: seq<Msg>) {
    forall x | x in list :: Fresh(J, x, Max(PtsOf(s), TagOf(s, x.id)))
  }

  /** Every change to a listed message that the client has consumed is covered by the number of the message. */
  ghost predicate StampPart(J: seq<Change>, s: State, list: seq<Msg>) {
    forall x, n: nat | x in list && n <= PtsOf(s) && Touches(J, n, x.id) :: n <= TagOf(s, x.id)
  }

  /** No hole: a message known to the window that still exists and falls inside it is listed. */
  ghost predicate HolesPart(J: seq<Change>, known: set<nat>, list: seq<Msg>, win: Window, c: Id) {
    forall n | n in known && BirthIn(J, n, c) && Lasting(J, BirthMsg(J, n).id) && InsideWindow(list, win, BirthMsg(J, n)) ::
      BirthMsg(J, n).id in Ids(list)
  }

  /** A number kept for a message that left the window is of a message the window knows about. */
  ghost predicate RemnantPart(J: seq<Change>, known: set<nat>, s: State, list: seq<Msg>, c: Id) {
    forall n | BirthIn(J, n, c) && Lasting(J, BirthMsg(J, n).id) && BirthMsg(J, n).id !in Ids(list) &&
               BirthMsg(J, n).id in s.msgPts && n <= s.msgPts[BirthMsg(J, n).id] :: n in known
  }

  /** The window knows every birth up to the journal position and up to its tail snapshot. */
  ghost predicate KnownPart(J: seq<Change>, known: set<nat>, s: State, win: Window) {
    win.basePts <= |J| && (forall n | n in known :: 1 <= n <= |J|) &&
    (forall n: nat | 1 <= n <= PtsOf(s) || 1 <= n <= win.basePts :: n in known)
  }

  /** The window invariant: `known` are the births (by number) that the window accounts for. */
  ghost predicate WinInv(J: seq<Change>, known: set<nat>, s: State, list: seq<Msg>, c: Id) {
    c in s.windows &&
    FeedPart(s, list, c) && FreshPart(J, s, list) && StampPart(J, s, list) &&
    HolesPart(J, known, list, s.windows[c], c) && RemnantPart(J, known, s, list, c) &&
    KnownPart(J, known, s, s.windows[c])
  }

  // ----- the least account -----

  function BaseOf(s: State, c: Id): nat {
    if c in s.windows then s.windows[c].basePts else 0
  }

  /** Births of conversation `c` up to the number that the client keeps for their message. */
  ghost function Tagged(J: seq<Change>, s: State, c: Id): set<nat> {
    set n | 1 <= n <= |J| && BirthIn(J, n, c) && BirthMsg(J, n).id in s.msgPts && n <= s.msgPts[BirthMsg(J, n).id]
  }

  /** What a window with this tail snapshot cannot but account for. */
  ghost function Account(J: seq<Change>, s: State, base: nat, c: Id): set<nat> {
    UpTo(Max(PtsOf(s), base)) + Tagged(J, s, c)
  }

  lemma AccountHoles(J: seq<Change>, known: set<nat>, s: State, list: seq<Msg>, base: nat, win: Window, c: Id)
    requires HolesPart(J, known, list, win, c) && RemnantPart(J, known, s, list, c) && KnownPart(J, known, s, win) && base <= win.basePts
    ensures HolesPart(J, Account(J, s, base, c), list, win, c)
  {
    hide Lasting, InsideWindow, Ids;
  }

  lemma AccountKnown(J: seq<Change>, s: State, list: seq<Msg>, win: Window, c: Id)
    requires PtsOf(s) <= |J| && win.basePts <= |J|
    ensures KnownPart(J, Account(J, s, win.basePts, c), s, win) && RemnantPart(J, Account(J, s, win.basePts, c), s, list, c)
  {
    hide Lasting, Ids;
  }

  /** A window that is right in any sense is right with the least account. */
  lemma AccountEnough(J: seq<Change>, known: set<nat>, s: State, list: seq<Msg>, c: Id)
    requires StateOk(J, s) && WinInv(J, known, s, list, c)
    ensures WinInv(J, Account(J, s, BaseOf(s, c), c), s, list, c)
  {
    AccountHoles(J, known, s, list, s.windows[c].basePts, s.windows[c], c);
    AccountKnown(J, s, list, s.windows[c], c);
    hide FeedPart, FreshPart, StampPart, HolesPart, RemnantPart, Account, ViewAt;
  }

  // ----- insides of windows -----

  lemma FeedEnds(s: seq<Msg>, x: Msg)
    requires Sorted(s) && x in s
    ensures !Before(x, s[0]) && !Before(s[|s| - 1], x)
    ensures x == s[0] || Before(s[0], x)
    ensures x == s[|s| - 1] || Before(x, s[|s| - 1])
  {
    Order();
    hide Before;
    var i :| 0 <= i < |s| && s[i] == x;
  }

  /** Removing messages never widens a window. */
  lemma InsideSubset(list: seq<Msg>, list': seq<Msg>, win: Window, y: Msg)
    requires Sorted(list) && Sorted(list') && forall x | x in list' :: x in list
    requires InsideWindow(list', win, y)
    ensures InsideWindow(list, win, y)
  {
    Order();
    hide Before;
    if list' != [] {
      assert list'[0] in list && list'[|list'| - 1] in list;
      FeedEnds(list, list'[0]);
      FeedEnds(list, list'[|list'| - 1]);
      Sandwich(y, list'[0], list[0]);
      Sandwich(list[|list| - 1], list'[|list'| - 1], y);
    }
  }

  /** If `a < c` and not `b < c` then `a < b`, for any three messages of which `b` and `c` are equal or have distinct ids. */
  lemma Sandwich(a: Msg, b: Msg, c: Msg)
    ensures Before(a, c) && (b == c || Before(c, b)) ==> Before(a, b)
    ensures Before(a, c) && (a == b || Before(b, a)) ==> Before(b, c)
  {
    Order();
    hide Before;
  }

  /** Inserting a message that is inside the window does not widen it. */
  lemma InsideInsert(list: seq<Msg>, list': seq<Msg>, win: Window, m: Msg, y: Msg)
    requires Sorted(list) && Sorted(list') && forall x :: x in list' <==> x in list || x == m
    requires InsideWindow(list, win, m) && InsideWindow(list', win, y)
    ensures InsideWindow(list, win, y)
  {
    Order();
    hide Before;
    if list != [] {
      assert list[0] in list' && list[|list| - 1] in list';
      FeedEnds(list', list[0]);
      FeedEnds(list', list[|list| - 1]);
      assert list'[0] in list' && list'[|list'| - 1] in list';
      if list'[0] != m { FeedEnds(list, list'[0]); }
      if list'[|list'| - 1] != m { FeedEnds(list, list'[|list'| - 1]); }
    }
  }

  lemma InsideByKey(list: seq<Msg>, list': seq<Msg>, win: Window, x: Msg, y: Msg)
    requires SameKey(x, y) && |list| == |list'|
    requires forall i | 0 <= i < |list| :: SameKey(list[i], list'[i])
    ensures InsideWindow(list, win, x) <==> InsideWindow(list', win, y)
  {
    hide IdLess;
  }

  /** All views of one message sit at one place. */
  lemma OneKey(J: seq<Change>, x: Msg, y: Msg, P: nat, Q: nat)
    requires Lawful(J) && Fresh(J, x, P) && Fresh(J, y, Q) && x.id == y.id
    ensures SameKey(x, y)
  {
    var a := FreshHasBirth(J, x, P);
    var b := FreshHasBirth(J, y, Q);
    BirthUnique(J, x.id, a, b);
  }

  // ----- one delivered message -----

  ghost predicate Shown(J: seq<Change>, d: Delivered, a: nat) {
    a <= |J| && ViewAt(J, DeliveredId(d), a) == (if d.Live? then Alive(d.m) else Erased)
  }

  /** The server assembled `d` after change `P`, perhaps later. */
  ghost predicate DeliveredOk(J: seq<Change>, d: Delivered, P: nat) {
    exists a | P <= a <= |J| :: Shown(J, d, a)
  }

  ghost predicate Deliverable(J: seq<Change>, known: set<nat>, s: State, list: seq<Msg>, d: Delivered, P: nat, n: nat) {
    Lawful(J) && StateOk(J, s) && WinInv(J, known, s, list, DeliveredConv(d)) &&
    DeliveredOk(J, d, P) && PtsOf(s) <= P && BornAt(J, DeliveredId(d), n) && n <= P && BirthMsg(J, n).conv == DeliveredConv(d)
  }

  lemma LiveFresh(J: seq<Change>, m: Msg, P: nat)
    requires DeliveredOk(J, Live(m), P)
    ensures P <= |J| && Fresh(J, m, P)
  {
    var a :| P <= a <= |J| && Shown(J, Live(m), a);
    ViewIsFresh(J, m, a);
    FreshWeakens(J, m, a, P);
  }

  lemma TombErased(J: seq<Change>, d: Delivered, P: nat)
    requires DeliveredOk(J, d, P) && d.Tomb?
    ensures ViewAt(J, d.id, |J|).Erased?
  {
    var a :| P <= a <= |J| && Shown(J, d, a);
    ViewNeverComesBack(J, d.id, a, |J|);
  }

  lemma HolesWithout(J: seq<Change>, known: set<nat>, list: seq<Msg>, list': seq<Msg>, win: Window, c: Id, id: Id, n: nat)
    requires HolesPart(J, known, list, win, c) && Sorted(list) && Sorted(list')
    requires forall x :: x in list' <==> x in list && x.id != id
    requires !Lasting(J, id) && BornAt(J, id, n)
    ensures HolesPart(J, known + {n}, list', win, c)
  {
    hide Lasting, Sorted, InsideWindow;
    forall k | k in known + {n} && BirthIn(J, k, c) && Lasting(J, BirthMsg(J, k).id) &&
               InsideWindow(list', win, BirthMsg(J, k))
      ensures BirthMsg(J, k).id in Ids(list')
    {
      InsideSubset(list, list', win, BirthMsg(J, k));
      var x :| x in list && x.id == BirthMsg(J, k).id;
      assert x in list';
    }
  }

  lemma HolesInsert(J: seq<Change>, known: set<nat>, list: seq<Msg>, list': seq<Msg>, win: Window, c: Id, m: Msg, n: nat)
    requires HolesPart(J, known, list, win, c) && Sorted(list) && Sorted(list')
    requires forall x :: x in list' <==> x in list || x == m
    requires InsideWindow(list, win, m) && BornAt(J, m.id, n)
    ensures HolesPart(J, known + {n}, list', win, c)
  {
    hide Lasting, Sorted, InsideWindow;
    assert m in list';
    forall k | k in known + {n} && BirthIn(J, k, c) && Lasting(J, BirthMsg(J, k).id) &&
               InsideWindow(list', win, BirthMsg(J, k))
      ensures BirthMsg(J, k).id in Ids(list')
    {
      InsideInsert(list, list', win, m, BirthMsg(J, k));
    }
  }

  lemma HolesSamePlaces(J: seq<Change>, known: set<nat>, list: seq<Msg>, list': seq<Msg>, win: Window, c: Id)
    requires HolesPart(J, known, list, win, c) && |list| == |list'|
    requires forall i | 0 <= i < |list| :: SameKey(list[i], list'[i])
    ensures HolesPart(J, known, list', win, c)
  {
    hide Lasting, InsideWindow;
    forall k | k in known && BirthIn(J, k, c) && Lasting(J, BirthMsg(J, k).id) && InsideWindow(list', win, BirthMsg(J, k))
      ensures BirthMsg(J, k).id in Ids(list')
    {
      InsideByKey(list, list', win, BirthMsg(J, k), BirthMsg(J, k));
      var i :| 0 <= i < |list| && list[i].id == BirthMsg(J, k).id;
      assert list'[i] in list';
    }
  }

  lemma KnownMore(J: seq<Change>, known: set<nat>, s: State, win: Window, n: nat)
    requires KnownPart(J, known, s, win) && IsBirth(J, n)
    ensures KnownPart(J, known + {n}, s, win)
  {
  }

  lemma DeliverTomb(J: seq<Change>, known: set<nat>, s: State, list: seq<Msg>, d: Delivered, P: nat, n: nat, list': seq<Msg>)
    requires Deliverable(J, known, s, list, d, P, n) && d.Tomb?
    requires Sorted(list') && UniqueIds(list') && forall x :: x in list' <==> x in list && x.id != d.id
    ensures var s' := s.(gone := s.gone + {d.id});
      StateOk(J, s') && WinInv(J, known + {n}, s', list', d.conv)
  {
    TombErased(J, d, P);
    assert !Lasting(J, d.id);
    var c, s' := d.conv, s.(gone := s.gone + {d.id});
    HolesWithout(J, known, list, list', s.windows[c], c, d.id, n);
    KnownMore(J, known, s, s.windows[c], n);
    hide ViewAt, Lawful, Fresh, InsideWindow, HolesPart, KnownPart, Sorted, UniqueIds, Lasting, DeliveredOk;
    forall k | BirthIn(J, k, c) && Lasting(J, BirthMsg(J, k).id) && BirthMsg(J, k).id !in Ids(list') &&
               BirthMsg(J, k).id in s.msgPts && k <= s.msgPts[BirthMsg(J, k).id]
      ensures k in known + {n}
    {
      forall x | x in list ensures x.id != BirthMsg(J, k).id { if x.id != d.id { assert x in list'; } }
    }
    assert KnownPart(J, known + {n}, s', s'.windows[c]) by { KnownSame(J, known + {n}, s, s', s.windows[c]); }
  }

  lemma KnownSame(J: seq<Change>, known: set<nat>, s: State, s': State, win: Window)
    requires KnownPart(J, known, s, win) && PtsOf(s) == PtsOf(s')
    ensures KnownPart(J, known, s', win)
  {
  }

  lemma DeliverIgnored(J: seq<Change>, known: set<nat>, s: State, list: seq<Msg>, d: Delivered, P: nat, n: nat)
    requires Deliverable(J, known, s, list, d, P, n) && d.Live?
    requires ApplyMessage(s, Some(list), d, P) == Merged(s, Some(list))
    requires d.m.id !in Ids(list) || d.m.id in s.gone || (d.m.id in s.msgPts && P <= s.msgPts[d.m.id])
    requires d.m.id in s.gone || (d.m.id in s.msgPts && P <= s.msgPts[d.m.id]) ||
             P <= s.windows[d.m.conv].basePts || !InsideWindow(list, s.windows[d.m.conv], d.m)
    ensures WinInv(J, known + {n}, s, list, d.m.conv)
  {
    var c := d.m.conv;
    LiveFresh(J, d.m, P);
    var b := FreshHasBirth(J, d.m, P);
    BirthUnique(J, d.m.id, b, n);
    hide ViewAt, Filter, Sort, Before, Lawful, Fresh, IndexOf, ApplyMessage, DeliveredOk;
    InsideByKey(list, list, s.windows[c], d.m, BirthMsg(J, n));
    hide InsideWindow;
    forall k | k in known + {n} && BirthIn(J, k, c) && Lasting(J, BirthMsg(J, k).id) &&
               InsideWindow(list, s.windows[c], BirthMsg(J, k))
      ensures BirthMsg(J, k).id in Ids(list)
    {
    }
  }

  /** The parts about listed messages, when the list gains or replaces `m` with number `P`. */
  lemma ListedParts(J: seq<Change>, s: State, list: seq<Msg>, list': seq<Msg>, m: Msg, P: nat)
    requires StateOk(J, s) && FeedPart(s, list, m.conv) && FreshPart(J, s, list) && StampPart(J, s, list)
    requires P <= |J| && Fresh(J, m, P) && PtsOf(s) <= P && m.id !in s.gone
    requires FeedOk(list') && forall x | x in list' :: x == m || (x in list && x.id != m.id)
    ensures var s' := s.(msgPts := s.msgPts[m.id := P]);
      StateOk(J, s') && FeedPart(s', list', m.conv) && FreshPart(J, s', list') && StampPart(J, s', list')
  {
    hide FeedOk, ViewAt, Fresh, Touches;
  }

  lemma RemnantsListed(J: seq<Change>, known: set<nat>, s: State, list: seq<Msg>, list': seq<Msg>, c: Id, m: Msg, P: nat, n: nat)
    requires RemnantPart(J, known, s, list, c) && Ids(list') == Ids(list) + {m.id}
    ensures RemnantPart(J, known + {n}, s.(msgPts := s.msgPts[m.id := P]), list', c)
  {
    hide Lasting;
  }

  lemma DeliverReplaced(J: seq<Change>, known: set<nat>, s: State, list: seq<Msg>, m: Msg, P: nat, n: nat, k: nat)
    requires Deliverable(J, known, s, list, Live(m), P, n)
    requires m.id !in s.gone && k < |list| && list[k].id == m.id && TagOf(s, m.id) < P
    ensures var s' := s.(msgPts := s.msgPts[m.id := P]);
      StateOk(J, s') && WinInv(J, known + {n}, s', list[k := m], m.conv)
  {
    LiveFresh(J, m, P);
    hide DeliveredOk, ViewAt, InsideWindow, HolesPart, RemnantPart, KnownPart, StampPart;
    assert list[k] in list;
    OneKey(J, list[k], m, Max(PtsOf(s), TagOf(s, m.id)), P);
    hide Lawful, Fresh, Before, FreshPart, FeedPart;
    var list' := list[k := m];
    assert FeedOk(list) by { FeedPartOk(s, list, m.conv); }
    FeedSafety.ReplaceKeepsFeed(list, k, m);
    hide FeedOk;
    assert Ids(list') == Ids(list) by {
      forall x | x in list ensures x.id in Ids(list') {
        if x.id != m.id { assert x in list'; } else { assert m in list'; }
      }
    }
    ListedParts(J, s, list, list', m, P);
    KnownMore(J, known, s, s.windows[m.conv], n);
    KnownSame(J, known + {n}, s, s.(msgPts := s.msgPts[m.id := P]), s.windows[m.conv]);
    RemnantsListed(J, known, s, list, list', m.conv, m, P, n);
    HolesSamePlaces(J, known, list, list', s.windows[m.conv], m.conv);
    HolesNow(J, known, list', s.windows[m.conv], m.conv, n);
  }

  lemma FeedPartOk(s: State, list: seq<Msg>, c: Id)
    requires FeedPart(s, list, c)
    ensures FeedOk(list)
  {
  }

  /** A window that lists a message may as well know it. */
  lemma HolesNow(J: seq<Change>, known: set<nat>, list: seq<Msg>, win: Window, c: Id, n: nat)
    requires HolesPart(J, known, list, win, c) && IsBirth(J, n) && BirthMsg(J, n).id in Ids(list)
    ensures HolesPart(J, known + {n}, list, win, c)
  {
    hide Lasting, InsideWindow;
  }

  lemma DeliverInserted(J: seq<Change>, known: set<nat>, s: State, list: seq<Msg>, m: Msg, P: nat, n: nat)
    requires Deliverable(J, known, s, list, Live(m), P, n)
    requires m.id !in s.gone && m.id !in Ids(list)
    requires InsideWindow(list, s.windows[m.conv], m)
    ensures var s' := s.(msgPts := s.msgPts[m.id := P]);
      StateOk(J, s') && WinInv(J, known + {n}, s', Sort(list + [m]), m.conv)
  {
    LiveFresh(J, m, P);
    hide DeliveredOk, ViewAt, HolesPart, RemnantPart, KnownPart, StampPart, InsideWindow;
    hide Sort, Lawful, Fresh, Before, FreshPart, FeedPart;
    var list' := Sort(list + [m]);
    assert FeedOk(list) by { FeedPartOk(s, list, m.conv); }
    FeedSafety.AppendSortKeepsFeed(list, m);
    assert m in list' && forall x | x in list :: x in list';
    assert Ids(list') == Ids(list) + {m.id};
    HolesInsert(J, known, list, list', s.windows[m.conv], m.conv, m, n);
    hide Sorted, UniqueIds;
    ListedParts(J, s, list, list', m, P);
    KnownMore(J, known, s, s.windows[m.conv], n);
    KnownSame(J, known + {n}, s, s.(msgPts := s.msgPts[m.id := P]), s.windows[m.conv]);
    RemnantsListed(J, known, s, list, list', m.conv, m, P, n);
  }

  /** A delivered view, fresh at `P`, keeps the window invariant; from now on the window knows the message. */
  lemma DeliverKeepsWindow(J: seq<Change>, known: set<nat>, s: State, list: seq<Msg>, d: Delivered, P: nat, n: nat)
    requires Deliverable(J, known, s, list, d, P, n)
    ensures var r := ApplyMessage(s, Some(list), d, P);
      StateOk(J, r.state) && r.list.Some? && WinInv(J, known + {n}, r.state, r.list.value, DeliveredConv(d))
  {
    hide ViewAt, Sort, Before, Lawful, Fresh, InsideWindow, DeliveredOk, StateOk;
    hide FreshPart, StampPart, HolesPart, RemnantPart, KnownPart;
    if d.Tomb? {
      TombList(s, list, d, P);
      hide ApplyMessage, FeedPart;
      DeliverTomb(J, known, s, list, d, P, n, ApplyMessage(s, Some(list), d, P).list.value);
    } else {
      hide FeedPart;
      if d.m.id in s.gone || (d.m.id in s.msgPts && P <= s.msgPts[d.m.id]) {
        DeliverIgnored(J, known, s, list, d, P, n);
      } else if d.m.id in Ids(list) {
        DeliverReplaced(J, known, s, list, d.m, P, n, IndexOf(list, d.m.id));
      } else if P <= s.windows[d.m.conv].basePts || !InsideWindow(list, s.windows[d.m.conv], d.m) {
        DeliverIgnored(J, known, s, list, d, P, n);
      } else {
        DeliverInserted(J, known, s, list, d.m, P, n);
      }
    }
  }

  lemma TombList(s: State, list: seq<Msg>, d: Delivered, P: nat)
    requires d.Tomb? && FeedOk(list)
    ensures var r := ApplyMessage(s, Some(list), d, P);
      r.state == s.(gone := s.gone + {d.id}) && r.list.Some? && FeedOk(r.list.value) &&
      forall x :: x in r.list.value <==> x in list && x.id != d.id
  {
    hide Filter, Before, IndexOf, FeedOk;
    FilterKeepsFeed(list, (x: Msg) => x.id != d.id);
    if IndexOf(list, d.id) < 0 { assert forall x | x in list :: x.id in Ids(list); }
  }
}
