/** The other rules that keep the window invariant: journal steps, trims, own sends, edits and deletions, full lists. */
module WindowRules {
  import opened Feed
  import opened SyncRules
  import opened Journal
  import opened Windows
  import FeedSafety

  // ----- the journal grows -----

  lemma StillLasting(J: seq<Change>, J': seq<Change>, id: Id)
    requires |J| <= |J'| && J == J'[..|J|]
    ensures Lasting(J', id) && !ViewAt(J, id, |J|).Absent? ==> Lasting(J, id)
    ensures ViewAt(J, id, |J|).Erased? ==> ViewAt(J', id, |J'|).Erased?
  {
    ViewsOfPrefix(J, J', id, |J|);
    ViewNeverComesBack(J', id, |J|, |J'|);
  }

  lemma StateOkInLonger(J: seq<Change>, J': seq<Change>, s: State)
    requires StateOk(J, s) && |J| <= |J'| && J == J'[..|J|]
    ensures StateOk(J', s)
  {
    hide ViewAt;
    forall id | id in s.gone ensures ViewAt(J', id, |J'|).Erased? { StillLasting(J, J', id); }
  }

  lemma BirthInShorter(J: seq<Change>, J': seq<Change>, n: nat, c: Id)
    requires Lawful(J') && |J| <= |J'| && J == J'[..|J|] && BirthIn(J', n, c) && n <= |J|
    ensures BirthIn(J, n, c) && BirthMsg(J, n) == BirthMsg(J', n)
    ensures Lasting(J', BirthMsg(J', n).id) ==> Lasting(J, BirthMsg(J, n).id)
  {
    var id := BirthMsg(J', n).id;
    AliveFromBirth(J', id, n, |J|);
    hide Lawful;
    ViewsOfPrefix(J, J', id, |J|);
    StillLasting(J, J', id);
  }

  /** The server's progress alone breaks nothing. */
  lemma GrowthKeepsWindow(J: seq<Change>, J': seq<Change>, known: set<nat>, s: State, list: seq<Msg>, c: Id)
    requires Lawful(J') && |J| <= |J'| && J == J'[..|J|]
    requires StateOk(J, s) && WinInv(J, known, s, list, c)
    ensures StateOk(J', s) && WinInv(J', known, s, list, c)
  {
    StateOkInLonger(J, J', s);
    hide Lawful, Lasting, InsideWindow, ViewAt, FeedOk;
    forall x | x in list ensures Fresh(J', x, Max(PtsOf(s), TagOf(s, x.id))) {
      FreshInLonger(J, J', x, Max(PtsOf(s), TagOf(s, x.id)));
    }
    hide Fresh;
    forall x, n: nat | x in list && n <= PtsOf(s) && Touches(J', n, x.id) ensures n <= TagOf(s, x.id) {
      assert Touches(J, n, x.id);
    }
    hide Touches;
    forall n | n in known && BirthIn(J', n, c) && Lasting(J', BirthMsg(J', n).id) &&
               InsideWindow(list, s.windows[c], BirthMsg(J', n))
      ensures BirthMsg(J', n).id in Ids(list)
    {
      BirthInShorter(J, J', n, c);
    }
    forall n | BirthIn(J', n, c) && Lasting(J', BirthMsg(J', n).id) && BirthMsg(J', n).id !in Ids(list) &&
               BirthMsg(J', n).id in s.msgPts && n <= s.msgPts[BirthMsg(J', n).id]
      ensures n in known
    {
      BirthInShorter(J, J', n, c);
    }
  }

  // ----- the client's journal position moves -----

  /**
   * The position moves to `P` once every change in between is absorbed: listed messages carry a number that covers it,
   * births are known.
   */
  lemma PositionKeepsWindow(J: seq<Change>, known: set<nat>, s: State, list: seq<Msg>, c: Id, P: nat)
    requires StateOk(J, s) && WinInv(J, known, s, list, c) && PtsOf(s) <= P <= |J|
    requires forall x, n: nat | x in list && PtsOf(s) < n <= P && Touches(J, n, x.id) :: n <= TagOf(s, x.id)
    requires forall n: nat | PtsOf(s) < n <= P :: n in known
    ensures StateOk(J, s.(pts := Some(P))) && WinInv(J, known, s.(pts := Some(P)), list, c)
  {
    hide ViewAt, Lasting, InsideWindow, FeedOk, Fresh;
    var s' := s.(pts := Some(P));
    forall x | x in list ensures Fresh(J, x, Max(PtsOf(s'), TagOf(s', x.id))) {
      var t := TagOf(s, x.id);
      if t < P {
        forall n | Max(PtsOf(s), t) < n <= P ensures !Touches(J, n, x.id) {}
        FreshAdvances(J, x, Max(PtsOf(s), t), P);
      }
    }
    hide Touches;
    assert FreshPart(J, s', list) && StampPart(J, s', list);
    assert HolesPart(J, known, list, s'.windows[c], c) && RemnantPart(J, known, s', list, c);
    assert KnownPart(J, known, s', s'.windows[c]);
  }

  /** A state that differs only outside conversation `c`. */
  ghost predicate SameFor(J: seq<Change>, s: State, s': State, list: seq<Msg>, c: Id) {
    PtsOf(s') == PtsOf(s) &&
    (c in s.windows ==> c in s'.windows && s'.windows[c] == s.windows[c]) &&
    (forall x | x in list :: x.id !in s'.gone && (x.id in s'.msgPts <==> x.id in s.msgPts) && TagOf(s', x.id) == TagOf(s, x.id)) &&
    (forall n | BirthIn(J, n, c) && BirthMsg(J, n).id in s'.msgPts ::
      BirthMsg(J, n).id in s.msgPts && s'.msgPts[BirthMsg(J, n).id] == s.msgPts[BirthMsg(J, n).id])
  }

  lemma OtherConversation(J: seq<Change>, known: set<nat>, s: State, s': State, list: seq<Msg>, c: Id)
    requires WinInv(J, known, s, list, c) && SameFor(J, s, s', list, c)
    ensures WinInv(J, known, s', list, c)
  {
    hide Lasting, InsideWindow, FeedOk, Fresh, Touches;
    assert FeedPart(s', list, c) && FreshPart(J, s', list) && StampPart(J, s', list);
    assert RemnantPart(J, known, s', list, c);
    assert KnownPart(J, known, s', s'.windows[c]);
  }

  // ----- trims -----

  lemma TrimmedHoles(J: seq<Change>, known: set<nat>, list: seq<Msg>, next: seq<Msg>, win: Window, win': Window, c: Id)
    requires HolesPart(J, known, list, win, c) && Sorted(list) && Sorted(next) && next != []
    requires forall x | x in next :: x in list
    requires win.hasMoreBefore ==> win'.hasMoreBefore
    requires win.hasMoreAfter ==> win'.hasMoreAfter
    requires forall x | x in list && x !in next ::
      (win'.hasMoreBefore && Before(x, next[0])) || (win'.hasMoreAfter && Before(next[|next| - 1], x))
    requires forall n, x | BirthIn(J, n, c) && x in list && x.id == BirthMsg(J, n).id :: SameKey(x, BirthMsg(J, n))
    ensures HolesPart(J, known, next, win', c)
  {
    forall n | n in known && BirthIn(J, n, c) && Lasting(J, BirthMsg(J, n).id) && InsideWindow(next, win', BirthMsg(J, n))
      ensures BirthMsg(J, n).id in Ids(next)
    {
      var y := BirthMsg(J, n);
      assert InsideWindow(next, win, y);
      InsideSubset(list, next, win, y);
      hide InsideWindow, Lasting, Sorted;
      var x :| x in list && x.id == y.id;
      SamePlace(x, y, next[0]);
      SamePlace(x, y, next[|next| - 1]);
      assert x in next by { TrimmedIn(next, win', x, y); }
    }
  }

  lemma TrimmedIn(next: seq<Msg>, win': Window, x: Msg, y: Msg)
    requires next != [] && InsideWindow(next, win', y) && SameKey(x, y)
    requires x !in next ==>
      (win'.hasMoreBefore && Before(x, next[0])) || (win'.hasMoreAfter && Before(next[|next| - 1], x))
    ensures x in next
  {
    hide IdLess;
  }

  lemma SamePlace(x: Msg, y: Msg, z: Msg)
    requires SameKey(x, y)
    ensures Before(x, z) == Before(y, z) && Before(z, x) == Before(z, y)
  {
    hide IdLess;
  }

  lemma ListedKey(J: seq<Change>, s: State, list: seq<Msg>, x: Msg, n: nat)
    requires Lawful(J) && FreshPart(J, s, list) && x in list && BornAt(J, x.id, n)
    ensures SameKey(x, BirthMsg(J, n))
  {
    var b := FreshHasBirth(J, x, Max(PtsOf(s), TagOf(s, x.id)));
    BirthUnique(J, x.id, b, n);
  }

  lemma SliceOfFeed(list: seq<Msg>, a: nat, b: nat)
    requires FeedOk(list) && a < b <= |list|
    ensures FeedOk(list[a..b]) && list[a..b] != []
    ensures forall x | x in list[a..b] :: x in list
    ensures forall x | x in list && x !in list[a..b] :: (a > 0 && Before(x, list[a])) || (b < |list| && Before(list[b - 1], x))
  {
    hide Before;
    var r := list[a..b];
    forall i | 0 <= i < |r| ensures r[i] == list[a + i] {}
    forall i | a <= i < b ensures list[i] in r { assert r[i - a] == list[i]; }
    forall x | x in list && x !in r ensures (a > 0 && Before(x, list[a])) || (b < |list| && Before(list[b - 1], x)) {
      var i :| 0 <= i < |list| && list[i] == x;
    }
  }

  /** Cutting an edge keeps the invariant: the cut edge says "there is more", and the numbers of the cut are forgotten. */
  lemma ListedKeys(J: seq<Change>, s: State, list: seq<Msg>, c: Id)
    requires Lawful(J) && FreshPart(J, s, list)
    ensures forall n, x | BirthIn(J, n, c) && x in list && x.id == BirthMsg(J, n).id :: SameKey(x, BirthMsg(J, n))
  {
    hide Lawful, FreshPart, SameKey;
    forall n, x | BirthIn(J, n, c) && x in list && x.id == BirthMsg(J, n).id ensures SameKey(x, BirthMsg(J, n)) {
      ListedKey(J, s, list, x, n);
    }
  }

  lemma TrimKeepsWindow(J: seq<Change>, known: set<nat>, s: State, list: seq<Msg>, c: Id, side: Side, count: int)
    requires Lawful(J) && StateOk(J, s) && WinInv(J, known, s, list, c)
    ensures var r := TrimWindow(s, list, c, side, count);
      StateOk(J, r.state) && r.list.Some? && WinInv(J, known, r.state, r.list.value, c)
  {
    if 0 < count < |list| {
      var a, b := if side == Top then count else 0, if side == Top then |list| else |list| - count;
      var next := list[a..b];
      var cut := if side == Top then list[..count] else list[|list| - count..];
      var r := TrimWindow(s, list, c, side, count);
      assert list[a..|list|] == list[a..] && list[0..b] == list[..b];
      assert r.list == Some(next);
      var s', win' := r.state, r.state.windows[c];
      SliceOfFeed(list, a, b);
      CutIds(list, a, b, cut);
      ListedKeys(J, s, list, c);
      hide Lawful, Fresh, Touches, ViewAt, Lasting, InsideWindow, Before, Sorted, UniqueIds, SameKey, TrimWindow;
      TrimmedHoles(J, known, list, next, s.windows[c], win', c);
      TrimmedParts(J, known, s, list, next, cut, c, win');
      hide HolesPart, FeedPart, FreshPart, StampPart, RemnantPart, KnownPart;
    }
  }

  lemma TrimmedParts(J: seq<Change>, known: set<nat>, s: State, list: seq<Msg>, next: seq<Msg>, cut: seq<Msg>, c: Id, win: Window)
    requires StateOk(J, s) && WinInv(J, known, s, list, c) && FeedOk(next) && win.basePts == s.windows[c].basePts
    requires forall x | x in next :: x in list && x.id !in Ids(cut)
    requires Ids(list) == Ids(next) + Ids(cut)
    ensures var t := s.(msgPts := s.msgPts - Ids(cut), windows := s.windows[c := win]);
      StateOk(J, t) && FeedPart(t, next, c) && FreshPart(J, t, next) && StampPart(J, t, next) &&
      RemnantPart(J, known, t, next, c) && KnownPart(J, known, t, win)
  {
    hide Fresh, Touches, ViewAt, Lasting, Sorted, UniqueIds, HolesPart, Ids;
  }

  lemma CutIds(list: seq<Msg>, a: nat, b: nat, cut: seq<Msg>)
    requires UniqueIds(list) && a < b <= |list|
    requires (b == |list| && cut == list[..a]) || (a == 0 && cut == list[b..])
    ensures forall x | x in list[a..b] :: x.id !in Ids(cut)
    ensures forall x | x in list && x !in list[a..b] :: x.id in Ids(cut)
    ensures Ids(list) == Ids(list[a..b]) + Ids(cut)
  {
    forall x, y | x in list[a..b] && y in cut ensures x.id != y.id {
      var i :| 0 <= i < b - a && list[a..b][i] == x;
      var j :| 0 <= j < |cut| && cut[j] == y;
      assert list[a + i] == x;
      assert list[if b == |list| && cut == list[..a] then j else b + j] == y;
    }
    forall i | a <= i < b ensures list[i] in list[a..b] { assert list[a..b][i - a] == list[i]; }
    forall x | x in list && x !in list[a..b] ensures x in cut {
      var i :| 0 <= i < |list| && list[i] == x;
      if b == |list| && cut == list[..a] { assert cut[i] == x; } else { assert cut[i - b] == x; }
    }
    forall y | y in cut ensures y in list {}
  }

  // ----- own sends, edits, deletions -----

  /** The view in the reply, with the number kept for the message, is as new as the window needs. */
  ghost predicate SentCurrent(J: seq<Change>, s: State, m: Msg) {
    Fresh(J, m, Max(PtsOf(s), TagOf(s, m.id))) && forall k: nat | k <= PtsOf(s) && Touches(J, k, m.id) :: k <= TagOf(s, m.id)
  }

  /** Adding the message draws nothing else that the window vouches for into the window. */
  ghost predicate SentAlone(J: seq<Change>, known: set<nat>, list: seq<Msg>, win: Window, m: Msg) {
    forall n | n in known && BirthIn(J, n, m.conv) && Lasting(J, BirthMsg(J, n).id) &&
               InsideWindow(Sort(list + [m]), win, BirthMsg(J, n)) && !InsideWindow(list, win, BirthMsg(J, n)) ::
      BirthMsg(J, n).id == m.id
  }

  /** The reply to an own send changes nothing, or adds its message alone and in a current view. */
  ghost predicate SentFits(J: seq<Change>, known: set<nat>, s: State, list: seq<Msg>, m: Msg) {
    m.conv in s.windows &&
    (m.id in s.gone || m.id in Ids(list) || (SentCurrent(J, s, m) && SentAlone(J, known, list, s.windows[m.conv], m)))
  }

  lemma SentState(s: State, list: seq<Msg>, m: Msg)
    ensures ApplySent(s, Some(list), m) ==
      if m.id in s.gone || m.id in Ids(list) then Merged(s, Some(list))
      else Merged(s.(msgPts := s.msgPts[m.id := TagOf(s, m.id)]), Some(Sort(list + [m])))
  {
    hide Sort;
    if m.id in Ids(list) { var x :| x in list && x.id == m.id; }
  }

  /** A listed message lies inside its window. */
  lemma ListedInside(list: seq<Msg>, win: Window, x: Msg, y: Msg)
    requires Sorted(list) && x in list && SameKey(x, y)
    ensures InsideWindow(list, win, y)
  {
    Order();
    FeedEnds(list, x);
    hide Sorted;
  }

  lemma SentHolesIff(J: seq<Change>, known: set<nat>, s: State, list: seq<Msg>, m: Msg)
    requires Lawful(J) && FreshPart(J, s, list) && m.conv in s.windows && HolesPart(J, known, list, s.windows[m.conv], m.conv)
    requires FeedOk(list) && FeedOk(Sort(list + [m])) && m.id !in Ids(list) && forall x :: x in Sort(list + [m]) <==> x in list || x == m
    ensures HolesPart(J, known, Sort(list + [m]), s.windows[m.conv], m.conv) <==> SentAlone(J, known, list, s.windows[m.conv], m)
  {
    var list', win := Sort(list + [m]), s.windows[m.conv];
    hide Sort, Lasting, InsideWindow, FreshPart, Lawful;
    assert m in list' && Ids(list') == Ids(list) + {m.id};
    assert Sorted(list);
    hide Sorted, UniqueIds;
    forall n | BirthIn(J, n, m.conv) && BirthMsg(J, n).id in Ids(list)
      ensures InsideWindow(list, win, BirthMsg(J, n))
    {
      var x :| x in list && x.id == BirthMsg(J, n).id;
      ListedKey(J, s, list, x, n);
      ListedInside(list, win, x, BirthMsg(J, n));
    }
  }

  lemma SentViewsIff(J: seq<Change>, s: State, list: seq<Msg>, list': seq<Msg>, m: Msg)
    requires FreshPart(J, s, list) && StampPart(J, s, list) && m.id !in Ids(list) && forall x :: x in list' <==> x in list || x == m
    ensures var s' := s.(msgPts := s.msgPts[m.id := TagOf(s, m.id)]);
      FreshPart(J, s', list') && StampPart(J, s', list') <==> SentCurrent(J, s, m)
  {
    var s' := s.(msgPts := s.msgPts[m.id := TagOf(s, m.id)]);
    assert forall x: Msg :: TagOf(s', x.id) == TagOf(s, x.id);
    hide Fresh, Touches, TagOf;
    assert m in list';
  }

  /** The reply to an own send keeps the window right with what it accounted for. */
  lemma SentKeepsKnown(J: seq<Change>, known: set<nat>, s: State, list: seq<Msg>, m: Msg)
    requires Lawful(J) && StateOk(J, s) && WinInv(J, known, s, list, m.conv)
    ensures var r := ApplySent(s, Some(list), m);
      StateOk(J, r.state) && r.list.Some? &&
      (WinInv(J, known, r.state, r.list.value, m.conv) <==> SentFits(J, known, s, list, m))
  {
    SentState(s, list, m);
    if m.id !in s.gone && m.id !in Ids(list) {
      var c, list', s' := m.conv, Sort(list + [m]), s.(msgPts := s.msgPts[m.id := TagOf(s, m.id)]);
      assert FeedOk(list);
      FeedSafety.AppendSortKeepsFeed(list, m);
      hide Sort, Lawful, FeedOk, ApplySent;
      SentHolesIff(J, known, s, list, m);
      SentViewsIff(J, s, list, list', m);
      SentQuiet(J, known, s, list, list', m);
      hide StateOk, FeedPart, FreshPart, StampPart, HolesPart, RemnantPart, KnownPart, SentAlone, SentCurrent;
    }
  }

  /** Nothing else has to be accounted for because of an own message. */
  lemma SentSameAccount(J: seq<Change>, s: State, list: seq<Msg>, m: Msg, c: Id)
    ensures var t := ApplySent(s, Some(list), m).state;
      BaseOf(t, c) == BaseOf(s, c) && Account(J, t, BaseOf(t, c), c) == Account(J, s, BaseOf(s, c), c)
  {
    SentState(s, list, m);
    hide ApplySent, Sort;
  }

  /**
   * When the reply to an own send leaves a right window, exactly: for every window, whatever happened since the message was
   * sent, wherever it falls. Otherwise the window is right in no sense.
   */
  lemma SentKeepsWindowIff(J: seq<Change>, known: set<nat>, s: State, list: seq<Msg>, m: Msg)
    requires Lawful(J) && StateOk(J, s) && WinInv(J, known, s, list, m.conv)
    ensures var r, least := ApplySent(s, Some(list), m), Account(J, s, BaseOf(s, m.conv), m.conv);
      StateOk(J, r.state) && r.list.Some? &&
      (SentFits(J, least, s, list, m) ==> WinInv(J, least, r.state, r.list.value, m.conv)) &&
      (SentFits(J, least, s, list, m) <==> exists k :: WinInv(J, k, r.state, r.list.value, m.conv))
  {
    hide WinInv, Lawful, StateOk, SentFits, ApplySent, Account, BaseOf;
    var r, c := ApplySent(s, Some(list), m), m.conv;
    var least := Account(J, s, BaseOf(s, c), c);
    AccountEnough(J, known, s, list, c);
    SentKeepsKnown(J, least, s, list, m);
    SentSameAccount(J, s, list, m, c);
    forall k | WinInv(J, k, r.state, r.list.value, c) ensures WinInv(J, least, r.state, r.list.value, c) {
      AccountEnough(J, k, r.state, r.list.value, c);
    }
  }

  /** What an own message cannot disturb. */
  lemma SentQuiet(J: seq<Change>, known: set<nat>, s: State, list: seq<Msg>, list': seq<Msg>, m: Msg)
    requires StateOk(J, s) && FeedPart(s, list, m.conv) && RemnantPart(J, known, s, list, m.conv) && m.id !in s.gone
    requires FeedOk(list') && forall x :: x in list' <==> x in list || x == m
    requires m.conv in s.windows && KnownPart(J, known, s, s.windows[m.conv])
    ensures var s' := s.(msgPts := s.msgPts[m.id := TagOf(s, m.id)]);
      StateOk(J, s') && FeedPart(s', list', m.conv) && RemnantPart(J, known, s', list', m.conv) && KnownPart(J, known, s', s'.windows[m.conv])
  {
    hide ViewAt, FeedOk, Lasting;
    assert m in list' && forall x | x in list :: x in list';
  }

  /** The reply shows the message as it was at some moment after change `n`. */
  ghost predicate ShownSince(J: seq<Change>, m: Msg, n: nat) {
    exists a | n <= a <= |J| :: ViewAt(J, m.id, a) == Alive(m)
  }

  /**
   * In time: inside the window, before the message's own event is consumed, in a view of the journal. Then the reply is
   * always right.
   */
  ghost predicate SentInTime(J: seq<Change>, s: State, list: seq<Msg>, m: Msg, n: nat) {
    BornAt(J, m.id, n) && m.conv in s.windows && n > PtsOf(s) && TagOf(s, m.id) <= n &&
    InsideWindow(list, s.windows[m.conv], m) && ShownSince(J, m, n)
  }

  lemma InTimeIsCurrent(J: seq<Change>, s: State, list: seq<Msg>, m: Msg, n: nat)
    requires Lawful(J) && SentInTime(J, s, list, m, n)
    ensures SentCurrent(J, s, m)
  {
    var a :| n <= a <= |J| && ViewAt(J, m.id, a) == Alive(m);
    ViewIsFresh(J, m, a);
    FreshWeakens(J, m, a, Max(PtsOf(s), TagOf(s, m.id)));
    forall k: nat | Touches(J, k, m.id) ensures n <= k { NoChangeBeforeBirth(J, m.id, n, k); }
    hide Lawful, Fresh, Touches;
  }

  /** A message inside the window draws nothing into it. */
  lemma InsideIsAlone(J: seq<Change>, known: set<nat>, list: seq<Msg>, win: Window, m: Msg)
    requires FeedOk(list) && m.id !in Ids(list) && InsideWindow(list, win, m)
    ensures SentAlone(J, known, list, win, m)
  {
    FeedSafety.AppendSortKeepsFeed(list, m);
    hide Sort, Before, Lasting, InsideWindow, Sorted, UniqueIds;
    forall k: nat | BirthIn(J, k, m.conv) && InsideWindow(Sort(list + [m]), win, BirthMsg(J, k))
      ensures InsideWindow(list, win, BirthMsg(J, k))
    {
      InsideInsert(list, Sort(list + [m]), win, m, BirthMsg(J, k));
    }
  }

  lemma InTimeFits(J: seq<Change>, known: set<nat>, s: State, list: seq<Msg>, m: Msg, n: nat)
    requires Lawful(J) && WinInv(J, known, s, list, m.conv) && SentInTime(J, s, list, m, n)
    ensures SentFits(J, known, s, list, m)
  {
    if m.id !in s.gone && m.id !in Ids(list) {
      InTimeIsCurrent(J, s, list, m, n);
      assert FeedOk(list);
      hide WinInv, Lawful, FeedOk, SentCurrent, SentAlone;
      InsideIsAlone(J, known, list, s.windows[m.conv], m);
    }
  }

  /** For a message that still exists and falls inside the window the reply is always right, whatever came before it. */
  lemma SentOfLastingFits(J: seq<Change>, known: set<nat>, s: State, list: seq<Msg>, m: Msg, n: nat)
    requires Lawful(J) && WinInv(J, known, s, list, m.conv)
    requires BornAt(J, m.id, n) && ShownSince(J, m, n) && Lasting(J, m.id)
    requires InsideWindow(list, s.windows[m.conv], m)
    ensures SentFits(J, known, s, list, m)
  {
    if m.id !in Ids(list) {
      var a :| n <= a <= |J| && ViewAt(J, m.id, a) == Alive(m);
      ViewIsFresh(J, m, a);
      var b := FreshHasBirth(J, m, a);
      BirthUnique(J, m.id, b, n);
      hide Lasting, Lawful, Fresh, ViewAt, FeedOk;
      InsideByKey(list, list, s.windows[m.conv], m, BirthMsg(J, n));
      assert n !in known by { hide InsideWindow; }
      assert SentInTime(J, s, list, m, n) by { hide InsideWindow; }
      hide WinInv, InsideWindow;
      InTimeFits(J, known, s, list, m, n);
    }
  }

  lemma HolesFewer(J: seq<Change>, known: set<nat>, known': set<nat>, list: seq<Msg>, win: Window, c: Id)
    requires HolesPart(J, known, list, win, c) && known' <= known
    ensures HolesPart(J, known', list, win, c)
  {
    hide Lasting, InsideWindow;
  }

  /** The reply to an own edit never rolls a message back and never moves one. */
  lemma EditedKeepsWindow(J: seq<Change>, known: set<nat>, s: State, list: seq<Msg>, c: Id, m: Msg, a: nat)
    requires Lawful(J) && StateOk(J, s) && WinInv(J, known, s, list, c)
    requires a <= |J| && ViewAt(J, m.id, a) == Alive(m) && m.edit.editedAt.Some?
    ensures WinInv(J, known, s, ApplyEdited(list, m), c)
  {
    var list' := ApplyEdited(list, m);
    ViewIsFresh(J, m, a);
    forall i | 0 <= i < |list|
      ensures SameKey(list[i], list'[i]) && Fresh(J, list'[i], Max(PtsOf(s), TagOf(s, list[i].id)))
    {
      var P := Max(PtsOf(s), TagOf(s, list[i].id));
      assert list[i] in list;
      if list[i].id == m.id {
        OneKey(J, list[i], m, P, a);
        EditedReplyIsFresh(J, list[i], m, P, a);
      }
    }
    hide ApplyEdited, Lawful, Fresh, ViewAt, Before, InsideWindow, Lasting, Touches;
    EditedParts(J, known, s, list, list', c);
    assert FeedOk(list);
    hide FeedOk;
    HolesSamePlaces(J, known, list, list', s.windows[c], c);
  }

  /** A list with the same messages in the same places, in views as fresh, stands for the old one. */
  lemma EditedParts(J: seq<Change>, known: set<nat>, s: State, list: seq<Msg>, list': seq<Msg>, c: Id)
    requires FeedPart(s, list, c) && FreshPart(J, s, list) && StampPart(J, s, list) && RemnantPart(J, known, s, list, c)
    requires |list'| == |list| && forall i | 0 <= i < |list| ::
      (SameKey(list[i], list'[i]) && Fresh(J, list'[i], Max(PtsOf(s), TagOf(s, list[i].id))))
    ensures FeedPart(s, list', c) && FreshPart(J, s, list') && StampPart(J, s, list') && RemnantPart(J, known, s, list', c)
  {
    hide Fresh, Before, Lasting, Touches;
    assert FeedOk(list') by { PlacesKeepFeed(list, list'); }
    hide FeedOk;
    assert Ids(list') == Ids(list) by {
      forall x | x in list ensures x.id in Ids(list') { var i :| 0 <= i < |list| && list[i] == x; assert list'[i] in list'; }
      forall x | x in list' ensures x.id in Ids(list) { var i :| 0 <= i < |list'| && list'[i] == x; assert list[i] in list; }
    }
    forall x | x in list' ensures exists y :: y in list && SameKey(y, x) && Fresh(J, x, Max(PtsOf(s), TagOf(s, x.id))) {
      var i :| 0 <= i < |list'| && list'[i] == x;
      assert list[i] in list;
    }
  }

  lemma PlacesKeepFeed(list: seq<Msg>, list': seq<Msg>)
    requires FeedOk(list) && |list| == |list'| && forall i | 0 <= i < |list| :: SameKey(list[i], list'[i])
    ensures FeedOk(list')
  {
    forall i, j | 0 <= i < j < |list'| ensures Before(list'[i], list'[j]) {
      assert Before(list[i], list[j]);
    }
  }

  /** A deletion the server confirmed. */
  lemma RemovedKeepsWindow(J: seq<Change>, known: set<nat>, s: State, list: seq<Msg>, c: Id, id: Id, n: nat)
    requires Lawful(J) && StateOk(J, s) && WinInv(J, known, s, list, c)
    requires BornAt(J, id, n) && BirthMsg(J, n).conv == c && ViewAt(J, id, |J|).Erased?
    ensures var r := ApplyRemoved(s, Some(list), id);
      StateOk(J, r.state) && r.list.Some? && WinInv(J, known + {n}, r.state, r.list.value, c)
  {
    assert Shown(J, Tomb(id, c), |J|);
    assert FeedOk(list);
    hide WinInv, StateOk, Lawful, ViewAt, Shown, Before, Filter;
    FilterKeepsFeed(list, (x: Msg) => x.id != id);
    DeliverTomb(J, known, s, list, Tomb(id, c), |J|, n, Without(list, id));
  }

  // ----- full lists -----

  /**
   * A full list moves the position to its own number without bringing message views. What it passes must be in the
   * window: no change to a listed message that its number does not cover, no message inside that is not listed.
   */
  ghost predicate ListFits(J: seq<Change>, s: State, list: seq<Msg>, c: Id, res: ListReply) {
    c in s.windows &&
    (forall x, n: nat | x in list && PtsOf(s) < n <= res.pts && Touches(J, n, x.id) :: n <= TagOf(s, x.id)) &&
    (forall n: nat | PtsOf(s) < n <= res.pts && BirthIn(J, n, c) && Lasting(J, BirthMsg(J, n).id) &&
                     InsideWindow(list, s.windows[c], BirthMsg(J, n)) :: BirthMsg(J, n).id in Ids(list))
  }

  lemma ListWidens(J: seq<Change>, known: set<nat>, s: State, list: seq<Msg>, c: Id, res: ListReply)
    requires WinInv(J, known, s, list, c) && res.pts <= |J| && ListFits(J, s, list, c, res)
    ensures WinInv(J, known + UpTo(res.pts), s, list, c)
  {
    hide Lasting, InsideWindow, FeedPart, FreshPart, StampPart;
  }

  /** The position and the windows after a list; nothing else that the windows depend on changes. */
  lemma ListIsPosition(J: seq<Change>, known: set<nat>, s: State, list: seq<Msg>, c: Id, res: ListReply)
    requires c in s.windows && c in ApplyList(s, res).windows
    ensures var P := Max(PtsOf(s), res.pts);
      WinInv(J, known, ApplyList(s, res), list, c) <==> WinInv(J, known, s.(pts := Some(P)), list, c)
  {
    var s1, s' := s.(pts := Some(Max(PtsOf(s), res.pts))), ApplyList(s, res);
    assert s'.msgPts == s1.msgPts && s'.gone == s1.gone && s'.windows[c] == s1.windows[c] && PtsOf(s') == PtsOf(s1) by {
      hide ListedSummaries, ListedNumbers, ListedTags;
    }
    hide ApplyList, Lasting, InsideWindow, FeedOk, Fresh, Touches;
    assert FreshPart(J, s', list) == FreshPart(J, s1, list);
    assert StampPart(J, s', list) == StampPart(J, s1, list);
  }

  lemma ListNeeds(J: seq<Change>, known: set<nat>, s: State, list: seq<Msg>, c: Id, res: ListReply)
    requires c in s.windows && WinInv(J, known, s.(pts := Some(Max(PtsOf(s), res.pts))), list, c)
    ensures ListFits(J, s, list, c, res)
  {
    hide Lasting, InsideWindow, FeedPart, FreshPart, RemnantPart, Touches;
    var t := s.(pts := Some(Max(PtsOf(s), res.pts)));
    assert forall x: Msg :: TagOf(t, x.id) == TagOf(s, x.id);
    assert HolesPart(J, known, list, s.windows[c], c) && KnownPart(J, known, t, s.windows[c]);
  }

  /**
   * When a full list leaves a right window, exactly: nothing that the position moves past touched a listed message after
   * its number, or was sent into the window and is not listed. Otherwise the window is right in no sense.
   */
  lemma ListKeepsWindowIff(J: seq<Change>, known: set<nat>, s: State, list: seq<Msg>, c: Id, res: ListReply)
    requires StateOk(J, s) && WinInv(J, known, s, list, c) && res.pts <= |J| && c in ApplyList(s, res).windows
    ensures StateOk(J, ApplyList(s, res))
    ensures ListFits(J, s, list, c, res) ==> WinInv(J, known + UpTo(res.pts), ApplyList(s, res), list, c)
    ensures ListFits(J, s, list, c, res) <==> exists k :: WinInv(J, k, ApplyList(s, res), list, c)
  {
    assert StateOk(J, ApplyList(s, res)) by { hide ViewAt, ListedSummaries, ListedNumbers, ListedTags, WinInv; }
    var P := Max(PtsOf(s), res.pts);
    hide ApplyList;
    if ListFits(J, s, list, c, res) {
      ListWidens(J, known, s, list, c, res);
      ListPassed(J, known, s, list, c, res);
      ListIsPosition(J, known + UpTo(res.pts), s, list, c, res);
    }
    hide ListFits, StateOk;
    if k :| WinInv(J, k, ApplyList(s, res), list, c) {
      assert c in s.windows;
      hide WinInv;
      ListIsPosition(J, k, s, list, c, res);
      ListNeeds(J, k, s, list, c, res);
    }
  }

  lemma ListPassed(J: seq<Change>, known: set<nat>, s: State, list: seq<Msg>, c: Id, res: ListReply)
    requires StateOk(J, s) && WinInv(J, known + UpTo(res.pts), s, list, c) && res.pts <= |J| && ListFits(J, s, list, c, res)
    ensures WinInv(J, known + UpTo(res.pts), s.(pts := Some(Max(PtsOf(s), res.pts))), list, c)
  {
    assert PtsOf(s) <= |J|;
    hide WinInv, StateOk, Touches, Lasting, InsideWindow, BirthIn;
    if PtsOf(s) <= res.pts {
      PositionKeepsWindow(J, known + UpTo(res.pts), s, list, c, res.pts);
    } else {
      PositionKeepsWindow(J, known + UpTo(res.pts), s, list, c, PtsOf(s));
    }
  }

  /** What the client can check itself: messages and tail snapshot are at least as new as the list. */
  predicate ListSafe(s: State, list: seq<Msg>, c: Id, res: ListReply) {
    res.pts <= PtsOf(s) ||
    (c in s.windows && res.pts <= s.windows[c].basePts && forall x | x in list :: res.pts <= TagOf(s, x.id))
  }

  lemma ListSafeFits(J: seq<Change>, known: set<nat>, s: State, list: seq<Msg>, c: Id, res: ListReply)
    requires WinInv(J, known, s, list, c) && ListSafe(s, list, c, res)
    ensures ListFits(J, s, list, c, res)
  {
    hide Lasting, InsideWindow, FeedPart, FreshPart, StampPart, RemnantPart, Touches;
  }
}
