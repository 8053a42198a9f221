/** Merging a page of history into a window: when it keeps the window invariant. */
module PageMerge {
  import opened Feed
  import opened SyncRules
  import opened Journal
  import opened Windows
  import FeedSafety

  // ----- order by birth -----

  /** The number of the change that created the message (0 for an unknown one). */
  ghost function Rank(J: seq<Change>, id: Id): nat {
    if exists n: nat :: BornAt(J, id, n) then (var n: nat :| BornAt(J, id, n); n) else 0
  }

  /** `x` sits in conversation `c` where the message with its id was born. */
  ghost predicate Placed(J: seq<Change>, c: Id, x: Msg) {
    BornAt(J, x.id, Rank(J, x.id)) && SameKey(x, BirthMsg(J, Rank(J, x.id))) && x.conv == c
  }

  lemma RankIs(J: seq<Change>, id: Id, n: nat)
    requires Lawful(J) && BornAt(J, id, n)
    ensures Rank(J, id) == n
  {
    BirthUnique(J, id, n, Rank(J, id));
  }

  lemma FreshIsPlaced(J: seq<Change>, x: Msg, P: nat)
    requires Lawful(J) && Fresh(J, x, P)
    ensures Placed(J, x.conv, x)
  {
    var n := FreshHasBirth(J, x, P);
    hide Lawful, Fresh;
    RankIs(J, x.id, n);
  }

  lemma BirthIsPlaced(J: seq<Change>, n: nat, c: Id)
    requires Lawful(J) && BirthIn(J, n, c)
    ensures Placed(J, c, BirthMsg(J, n)) && Rank(J, BirthMsg(J, n).id) == n
  {
    RankIs(J, BirthMsg(J, n).id, n);
  }

  /** Inside a conversation, feed order is birth order. */
  lemma RankOrder(J: seq<Change>, c: Id)
    requires Lawful(J)
    ensures forall x: Msg, y: Msg {:trigger Before(x, y)} :: Placed(J, c, x) && Placed(J, c, y) ==>
      (Before(x, y) <==> Rank(J, x.id) < Rank(J, y.id))
  {
    forall x: Msg, y: Msg | Placed(J, c, x) && Placed(J, c, y)
      ensures Before(x, y) <==> Rank(J, x.id) < Rank(J, y.id)
    {
      BeforeIsBornEarlier(J, x, y, Rank(J, x.id), Rank(J, y.id));
    }
  }

  ghost predicate AllPlaced(J: seq<Change>, c: Id, s: seq<Msg>) {
    forall x | x in s :: Placed(J, c, x)
  }

  lemma ListIsPlaced(J: seq<Change>, s: State, list: seq<Msg>, c: Id)
    requires Lawful(J) && FeedPart(s, list, c) && FreshPart(J, s, list)
    ensures AllPlaced(J, c, list)
  {
    forall x | x in list ensures Placed(J, c, x) {
      assert x.conv == c && Fresh(J, x, Max(PtsOf(s), TagOf(s, x.id)));
      hide Fresh;
      FreshIsPlaced(J, x, Max(PtsOf(s), TagOf(s, x.id)));
    }
  }

  /** Placed messages with one id share their key. */
  lemma PlacedSameKey(J: seq<Change>, c: Id, x: Msg, y: Msg)
    requires Placed(J, c, x) && Placed(J, c, y) && x.id == y.id
    ensures SameKey(x, y)
  {
  }

  // ----- what a page is -----

  ghost predicate LowerOk(page: Page, m: Msg) {
    page.hasMoreBefore ==> page.messages != [] && !Before(m, page.messages[0])
  }

  ghost predicate UpperOk(page: Page, m: Msg) {
    page.hasMoreAfter ==> page.messages != [] && !Before(page.messages[|page.messages| - 1], m)
  }

  /** The part of the history that a page of this kind accounts for. */
  ghost predicate Covered(page: Page, kind: PageKind, cursor: Msg, m: Msg) {
    match kind
    case Latest => LowerOk(page, m) && UpperOk(page, m)
    case Jump => LowerOk(page, m) && UpperOk(page, m)
    case Older => LowerOk(page, m) && Before(m, cursor)
    case Newer => Before(cursor, m) && UpperOk(page, m)
  }

  /** The cursor of a request is a message the server had when it took the snapshot. */
  ghost predicate CursorOk(J: seq<Change>, c: Id, page: Page, cursor: Msg) {
    Placed(J, c, cursor) && Rank(J, cursor.id) <= page.pts
  }

  /** A snapshot of the journal at `page.pts`: views, order, and everything that existed in the covered part. */
  ghost predicate PageOk(J: seq<Change>, c: Id, page: Page, kind: PageKind, cursor: Msg) {
    page.pts <= |J| && FeedOk(page.messages) &&
    (forall m | m in page.messages :: m.conv == c && ViewAt(J, m.id, page.pts) == Alive(m)) &&
    (forall n: nat | n <= page.pts && BirthIn(J, n, c) && ViewAt(J, BirthMsg(J, n).id, page.pts).Alive? &&
                Covered(page, kind, cursor, BirthMsg(J, n)) :: BirthMsg(J, n).id in Ids(page.messages)) &&
    (kind == Latest ==> !page.hasMoreAfter) &&
    (kind == Older ==> CursorOk(J, c, page, cursor) && forall m | m in page.messages :: Before(m, cursor)) &&
    (kind == Newer ==> CursorOk(J, c, page, cursor) && forall m | m in page.messages :: Before(cursor, m))
  }

  // ----- when a merge is right -----

  /** The guards of the two loaders: the edge the page was asked from is still the edge. */
  predicate EdgeUnchanged(list: Option<seq<Msg>>, kind: PageKind, cursor: Msg) {
    (kind == Older ==> list.Some? && list.value != [] && list.value[0].id == cursor.id) &&
    (kind == Newer ==> list.Some? && list.value != [] && list.value[|list.value| - 1].id == cursor.id)
  }

  /** A page arrives for a right window, or for none: the server and the loaders did what they promise. */
  ghost predicate PageCase(J: seq<Change>, known: set<nat>, s: State, list: Option<seq<Msg>>, c: Id,
                           page: Page, kind: PageKind, cursor: Msg) {
    Lawful(J) && StateOk(J, s) && (list.Some? <==> c in s.windows) && (list.Some? ==> WinInv(J, known, s, list.value, c)) &&
    PageOk(J, c, page, kind, cursor) && EdgeUnchanged(list, kind, cursor)
  }

  /** The tail snapshot of the merged window. */
  function BaseAfter(s: State, c: Id, page: Page, kind: PageKind): nat {
    if kind == Jump then page.pts
    else if kind == Older || (kind == Newer && page.hasMoreAfter) then BaseOf(s, c)
    else Max(BaseOf(s, c), page.pts)
  }

  /** After the merge the window vouches for everything up to here. */
  function TailNumber(s: State, c: Id, page: Page, kind: PageKind): nat {
    Max(PtsOf(s), BaseAfter(s, c, page, kind))
  }

  /** Births that the merged window, if it is right at all, accounts for or lists. */
  ghost function KnownAfter(J: seq<Change>, s: State, c: Id, page: Page, kind: PageKind): set<nat> {
    Account(J, s, BaseAfter(s, c, page, kind), c)
  }

  /** No hole in the merged window. */
  ghost predicate NoHoles(J: seq<Change>, s: State, have: seq<Msg>, c: Id, page: Page, kind: PageKind) {
    HolesPart(J, KnownAfter(J, s, c, page, kind), MergedList(s, have, c, page, kind), MergedWindow(s, have, c, page, kind), c)
  }

  /** The page carries this message in a view that is not taken, and the newer view is not listed any more. */
  predicate Dropped(s: State, have: seq<Msg>, page: Page, id: Id) {
    id !in s.gone && Newer_(s, page, id) && id !in Ids(have)
  }

  /** Which old messages stay in the merged feed, beside what is taken from the page. */
  ghost predicate KeptOld(s: State, have: seq<Msg>, c: Id, page: Page, kind: PageKind, x: Msg) {
    x in have &&
    match kind
    case Older => true
    case Newer => true
    case Jump => !page.hasMoreAfter && TagOf(s, x.id) > page.pts
    case Latest =>
      TagOf(s, x.id) > page.pts || x in OlderPart(s, have, c, page, Incoming(s, have, page))
  }

  ghost predicate Stays(s: State, have: seq<Msg>, c: Id, page: Page, kind: PageKind, x: Msg) {
    x in Incoming(s, have, page) || KeptOld(s, have, c, page, kind, x)
  }

  // ----- the exact conditions, in terms of what is there before the merge -----

  /** Nothing touched a message whose page view is taken between the number of the page and the position. */
  ghost predicate ViewsCurrent(J: seq<Change>, s: State, page: Page) {
    forall m, n: nat | m in page.messages && m.id !in s.gone && !Newer_(s, page, m.id) && page.pts < n <= PtsOf(s) ::
      !Touches(J, n, m.id)
  }

  /** Something that stays lies at or below `y` and something at or above it, where the merged window has such an edge. */
  ghost predicate Within(s: State, have: seq<Msg>, c: Id, page: Page, kind: PageKind, y: Msg) {
    var win := MergedWindow(s, have, c, page, kind);
    (win.hasMoreBefore ==> exists x :: Stays(s, have, c, page, kind, x) && !Before(y, x)) &&
    (win.hasMoreAfter ==> exists x :: Stays(s, have, c, page, kind, x) && !Before(x, y))
  }

  /** An old message with the id of birth `n` stays. */
  ghost predicate KeptBirth(J: seq<Change>, s: State, have: seq<Msg>, c: Id, page: Page, kind: PageKind, n: nat)
    requires IsBirth(J, n)
  {
    exists x :: KeptOld(s, have, c, page, kind, x) && x.id == BirthMsg(J, n).id
  }

  /** A message that still exists and that the merged window has to list if it falls inside. */
  ghost predicate Owed(J: seq<Change>, s: State, c: Id, page: Page, kind: PageKind, n: nat) {
    n in KnownAfter(J, s, c, page, kind) && BirthIn(J, n, c) && Lasting(J, BirthMsg(J, n).id)
  }

  /** The first way to a hole: the page brings a message, but a newer view of it was known and is not listed any more. */
  ghost predicate DroppedFits(J: seq<Change>, s: State, have: seq<Msg>, c: Id, page: Page, kind: PageKind) {
    forall m | m in page.messages && Dropped(s, have, page, m.id) && Lasting(J, m.id) :: !Within(s, have, c, page, kind, m)
  }

  /** The second: the page reaches the end, but something came after it was taken and does not stay. */
  ghost predicate TailFits(J: seq<Change>, s: State, have: seq<Msg>, c: Id, page: Page, kind: PageKind) {
    kind == Older || page.hasMoreAfter ||
    forall n | Owed(J, s, c, page, kind, n) && page.pts < n && Within(s, have, c, page, kind, BirthMsg(J, n)) ::
      KeptBirth(J, s, have, c, page, kind, n)
  }

  /** The old window still answers for this place: it lies below what ties the page to the window. */
  predicate BelowAnchor(s: State, have: seq<Msg>, c: Id, page: Page, kind: PageKind, cursor: Msg, y: Msg) {
    (kind == Newer && !page.hasMoreAfter && !Before(cursor, y)) ||
    (kind == Latest && OlderPart(s, have, c, page, Incoming(s, have, page)) != [] &&
     Incoming(s, have, page) != [] && Before(y, Incoming(s, have, page)[0]))
  }

  /**
   * The third: the merged window vouches for more than the old one did, below the cursor of a newer page that reaches the
   * end, or below the first message of a latest page that joins, and there the old window has a hole.
   */
  ghost predicate AnchorFits(J: seq<Change>, s: State, have: seq<Msg>, c: Id, page: Page, kind: PageKind, cursor: Msg) {
    forall n | Owed(J, s, c, page, kind, n) && c in s.windows && BelowAnchor(s, have, c, page, kind, cursor, BirthMsg(J, n)) &&
               InsideWindow(have, s.windows[c], BirthMsg(J, n)) ::
      BirthMsg(J, n).id in Ids(have)
  }

  /** A page that takes the place of the window, with more before it. */
  predicate Replacing(s: State, have: seq<Msg>, c: Id, page: Page, kind: PageKind) {
    page.hasMoreBefore && (kind == Jump || (kind == Latest && OlderPart(s, have, c, page, Incoming(s, have, page)) == []))
  }

  /**
   * The fourth: an old message that stays, because of what an event did to it during the request, lies below the page, and
   * between the two something is not listed.
   */
  ghost predicate BelowFits(J: seq<Change>, s: State, have: seq<Msg>, c: Id, page: Page, kind: PageKind) {
    Replacing(s, have, c, page, kind) ==>
      forall n, x | Owed(J, s, c, page, kind, n) && KeptOld(s, have, c, page, kind, x) && !Before(BirthMsg(J, n), x) &&
                    (page.messages == [] || Before(BirthMsg(J, n), page.messages[0])) ::
        KeptBirth(J, s, have, c, page, kind, n)
  }

  ghost predicate HolesFit(J: seq<Change>, s: State, have: seq<Msg>, c: Id, page: Page, kind: PageKind, cursor: Msg) {
    DroppedFits(J, s, have, c, page, kind) && TailFits(J, s, have, c, page, kind) &&
    AnchorFits(J, s, have, c, page, kind, cursor) && BelowFits(J, s, have, c, page, kind)
  }

  ghost predicate MergeFits(J: seq<Change>, s: State, have: seq<Msg>, c: Id, page: Page, kind: PageKind, cursor: Msg) {
    ViewsCurrent(J, s, page) && HolesFit(J, s, have, c, page, kind, cursor)
  }

  // ----- simpler conditions that are enough -----

  /** The window at the tail reaches down into the page, so it accounts for everything newer than the page. */
  predicate TailReaches(s: State, have: seq<Msg>, c: Id, page: Page) {
    c in s.windows && !s.windows[c].hasMoreAfter &&
    (!s.windows[c].hasMoreBefore ||
     (have != [] && page.messages != [] && !Before(page.messages[|page.messages| - 1], have[0])))
  }

  /** The page does not claim an end of the history that the client already has grown past. */
  predicate TailSafe(s: State, have: seq<Msg>, c: Id, page: Page, kind: PageKind) {
    kind == Older || page.hasMoreAfter || page.pts >= TailNumber(s, c, page, kind) ||
    (if kind == Newer then c in s.windows && !s.windows[c].hasMoreAfter
     else TailNumber(s, c, page, kind) == PtsOf(s) && TailReaches(s, have, c, page))
  }

  /** What was touched by an event during the request does not stick out below the page. */
  predicate NothingBelow(s: State, have: seq<Msg>, c: Id, page: Page, kind: PageKind) {
    kind == Older || kind == Newer || (kind == Jump && page.hasMoreAfter) || !page.hasMoreBefore ||
    (kind == Latest && OlderPart(s, have, c, page, Incoming(s, have, page)) != []) ||
    forall x | x in have && TagOf(s, x.id) > page.pts :: page.messages != [] && !Before(x, page.messages[0])
  }

  /** Every page view that is new to the window is at least as new as the journal position. */
  predicate ViewsSafe(s: State, have: seq<Msg>, page: Page) {
    page.pts >= PtsOf(s) || forall m | m in page.messages :: m.id in s.gone || m.id in Ids(have)
  }

  predicate NoneDropped(s: State, have: seq<Msg>, page: Page) {
    forall m | m in page.messages :: !Dropped(s, have, page, m.id)
  }

  /** All that the client itself can check before it merges a page. */
  predicate Admissible(s: State, have: seq<Msg>, c: Id, page: Page, kind: PageKind) {
    ViewsSafe(s, have, page) && NoneDropped(s, have, page) &&
    TailSafe(s, have, c, page, kind) && NothingBelow(s, have, c, page, kind)
  }

  /** A page that reaches the end: no number of an unlisted message is of one born later than the window will vouch for. */
  ghost predicate RemnantSafe(J: seq<Change>, s: State, have: seq<Msg>, c: Id, page: Page, kind: PageKind) {
    kind == Older || page.hasMoreAfter ||
    forall n: nat | BirthIn(J, n, c) && Lasting(J, BirthMsg(J, n).id) && BirthMsg(J, n).id !in Ids(have) &&
                    BirthMsg(J, n).id in s.msgPts && n <= s.msgPts[BirthMsg(J, n).id] :: n <= TailNumber(s, c, page, kind)
  }

  ghost predicate Mergeable(J: seq<Change>, known: set<nat>, s: State, list: Option<seq<Msg>>, c: Id,
                            page: Page, kind: PageKind, cursor: Msg) {
    PageCase(J, known, s, list, c, page, kind, cursor) && Admissible(s, Have(list), c, page, kind) &&
    RemnantSafe(J, s, Have(list), c, page, kind) && AnchorFits(J, s, Have(list), c, page, kind, cursor)
  }

  // ----- what comes in -----

  /** What the merge takes from the page, and the two inputs, as the proofs below see them. */
  ghost predicate Inputs(J: seq<Change>, s: State, have: seq<Msg>, c: Id, page: Page) {
    FeedOk(have) && FeedOk(page.messages) && AllPlaced(J, c, have) && AllPlaced(J, c, page.messages) &&
    forall x | x in have :: x.id !in s.gone && x.id in s.msgPts
  }

  lemma MergeInputs(J: seq<Change>, known: set<nat>, s: State, list: Option<seq<Msg>>, c: Id,
                    page: Page, kind: PageKind, cursor: Msg)
    requires PageCase(J, known, s, list, c, page, kind, cursor)
    ensures Inputs(J, s, Have(list), c, page)
  {
    if list.Some? { ListIsPlaced(J, s, list.value, c); }
    forall p | p in page.messages ensures Placed(J, c, p) {
      ViewIsFresh(J, p, page.pts);
      hide Fresh, ViewAt;
      FreshIsPlaced(J, p, page.pts);
    }
    hide Lawful, ViewAt, Placed, FeedOk, EdgeUnchanged, FreshPart, StampPart, HolesPart;
  }

  lemma TakenOne(J: seq<Change>, s: State, have: seq<Msg>, c: Id, page: Page, z: Msg)
    requires Inputs(J, s, have, c, page) && z in page.messages
    ensures var k := Taken(s, have, page, z);
      if z.id in s.gone || Dropped(s, have, page, z.id) then k == [] else |k| == 1 && k[0].id == z.id && Placed(J, c, k[0])
  {
    hide Placed, FeedOk;
  }

  /** One more message at the end of a feed that lies wholly before it. */
  lemma AppendLater(J: seq<Change>, c: Id, t: seq<Msg>, z: Msg, r: seq<Msg>, k: Msg)
    requires FeedOk(r) && AllPlaced(J, c, r) && Placed(J, c, k) && AllPlaced(J, c, t) && Placed(J, c, z) && k.id == z.id
    requires forall p | p in t :: p.id != z.id && Before(p, z)
    requires forall x | x in r :: x.id in Ids(t)
    ensures FeedOk(r + [k]) && AllPlaced(J, c, r + [k])
  {
    hide IdLess;
    forall i | 0 <= i < |r| ensures Before(r[i], k) && r[i].id != k.id {
      assert r[i] in r;
      var p :| p in t && p.id == r[i].id;
      PlacedSameKey(J, c, p, r[i]);
      PlacedSameKey(J, c, z, k);
      assert Before(p, z);
    }
  }

  /** Taken messages keep the order of the page, one an id; each sits where its page message sits. */
  lemma {:induction false} IncomingDetail(J: seq<Change>, s: State, have: seq<Msg>, c: Id, page: Page, ms: seq<Msg>)
    requires Inputs(J, s, have, c, page) && FeedOk(ms) && AllPlaced(J, c, ms)
    requires forall p | p in ms :: p in page.messages
    ensures FeedOk(IncomingOf(s, have, page, ms)) && AllPlaced(J, c, IncomingOf(s, have, page, ms))
    ensures forall p | p in ms && p.id !in s.gone && !Dropped(s, have, page, p.id) :: p.id in Ids(IncomingOf(s, have, page, ms))
  {
    hide Before, IncomingOf, Taken, Inputs, Dropped;
    if ms == [] {
      IncomingNone(s, have, page);
    } else {
      var t, z := ms[..|ms| - 1], ms[|ms| - 1];
      assert ms == t + [z] && z in ms;
      forall p | p in t ensures p in ms && p.id != z.id && Before(p, z) {
        var i :| 0 <= i < |t| && t[i] == p;
        assert ms[i] == p;
      }
      IncomingDetail(J, s, have, c, page, t);
      FeedSafety.IncomingFacts(s, have, page, t);
      TakenOne(J, s, have, c, page, z);
      IncomingStep(s, have, page, t, z);
      var r, k := IncomingOf(s, have, page, t), Taken(s, have, page, z);
      if k != [] { AppendLater(J, c, t, z, r, k[0]); assert k == [k[0]]; }
      hide Placed, Sorted, UniqueIds;
      assert r + k == r || r + k == r + [k[0]];
      TakenBoth(s, have, page, t, z, r, k);
    }
  }

  lemma TakenBoth(s: State, have: seq<Msg>, page: Page, t: seq<Msg>, z: Msg, r: seq<Msg>, k: seq<Msg>)
    requires forall p | p in t && p.id !in s.gone && !Dropped(s, have, page, p.id) :: p.id in Ids(r)
    requires z.id in s.gone || Dropped(s, have, page, z.id) || (|k| == 1 && k[0].id == z.id)
    ensures forall p | p in t + [z] && p.id !in s.gone && !Dropped(s, have, page, p.id) :: p.id in Ids(r + k)
  {
    hide Dropped;
    forall p | p in t + [z] && p.id !in s.gone && !Dropped(s, have, page, p.id) ensures p.id in Ids(r + k) {
      if p in t {
        var y :| y in r && y.id == p.id;
        assert y in r + k;
      } else {
        assert k[0] in r + k;
      }
    }
  }

  lemma IncomingNone(s: State, have: seq<Msg>, page: Page)
    ensures IncomingOf(s, have, page, []) == []
  {
  }

  lemma IncomingStep(s: State, have: seq<Msg>, page: Page, t: seq<Msg>, z: Msg)
    ensures IncomingOf(s, have, page, t + [z]) == IncomingOf(s, have, page, t) + Taken(s, have, page, z)
  {
    assert (t + [z])[..|t|] == t;
  }

  // ----- what the merged list holds -----

  /** One message an id. */
  ghost predicate Consistent(s: seq<Msg>) {
    forall x, y | x in s && y in s && x.id == y.id :: x == y
  }

  lemma DedupeOfConsistent(s: seq<Msg>)
    requires Consistent(s)
    ensures FeedOk(Dedupe(s)) && forall x :: x in Dedupe(s) <==> x in s
  {
    DedupeMakesFeed(s);
    hide Dedupe, Before;
    forall x | x in s ensures IsLast(s, x) {
      var k :| 0 <= k < |s| && s[k] == x;
      var y := LastWithId(s, x.id, k);
      assert y in s;
    }
  }

  /** Along a feed of placed messages, births grow. */
  lemma RanksGrow(J: seq<Change>, c: Id, s: seq<Msg>)
    requires Lawful(J) && FeedOk(s) && AllPlaced(J, c, s)
    ensures forall i, j | 0 <= i < j < |s| :: Rank(J, s[i].id) < Rank(J, s[j].id)
    ensures s != [] ==> forall x | x in s :: Rank(J, s[0].id) <= Rank(J, x.id) <= Rank(J, s[|s| - 1].id)
  {
    RankOrder(J, c);
    hide Lawful, Placed, Before, Rank, UniqueIds;
    forall i, j | 0 <= i < j < |s| ensures Rank(J, s[i].id) < Rank(J, s[j].id) {
      assert Before(s[i], s[j]) && s[i] in s && s[j] in s;
    }
    forall x | x in s ensures Rank(J, s[0].id) <= Rank(J, x.id) <= Rank(J, s[|s| - 1].id) {
      var i :| 0 <= i < |s| && s[i] == x;
    }
  }

  /** Pages asked from an edge do not overlap the feed. */
  lemma EdgePagesDisjoint(J: seq<Change>, known: set<nat>, s: State, list: Option<seq<Msg>>, c: Id,
                          page: Page, kind: PageKind, cursor: Msg)
    requires PageCase(J, known, s, list, c, page, kind, cursor) && (kind == Older || kind == Newer)
    ensures forall p, x | p in page.messages && x in Have(list) ::
      (kind == Older ==> Rank(J, p.id) < Rank(J, x.id)) && (kind == Newer ==> Rank(J, x.id) < Rank(J, p.id))
    ensures forall p, x | p in page.messages && x in Have(list) :: p.id != x.id
  {
    hide Lawful, WinInv, StateOk, Before, Rank, FeedOk, Placed, ViewAt, Covered;
    MergeInputs(J, known, s, list, c, page, kind, cursor);
    RanksGrow(J, c, Have(list));
    RankOrder(J, c);
    assert forall p | p in page.messages :: Placed(J, c, p);
  }

  /** Old messages of which nothing was taken from the page. */
  ghost predicate Apart(have: seq<Msg>, part: seq<Msg>, inc: seq<Msg>) {
    forall x | x in part :: x in have && x.id !in Ids(inc)
  }

  lemma OlderApart(J: seq<Change>, s: State, have: seq<Msg>, c: Id, page: Page, inc: seq<Msg>)
    requires Lawful(J) && FeedOk(inc) && AllPlaced(J, c, inc) && AllPlaced(J, c, have)
    ensures Apart(have, OlderPart(s, have, c, page, inc), inc)
  {
    RanksGrow(J, c, inc);
    RankOrder(J, c);
    hide Lawful, Joins, Before, Rank, Sorted, UniqueIds;
    forall x, y | x in OlderPart(s, have, c, page, inc) && y in inc ensures x.id != y.id {
      assert Before(x, inc[0]) && inc[0] in inc;
      assert Rank(J, x.id) < Rank(J, inc[0].id);
    }
  }

  lemma NewerApart(s: State, have: seq<Msg>, page: Page, inc: seq<Msg>)
    ensures Apart(have, NewerThanPage(s, have, page, inc), inc)
  {
  }

  /** Old messages, taken messages of other ids, old messages. */
  lemma ThreeConsistent(have: seq<Msg>, older: seq<Msg>, inc: seq<Msg>, newer: seq<Msg>)
    requires UniqueIds(have) && UniqueIds(inc) && Apart(have, older, inc) && Apart(have, newer, inc)
    ensures Consistent(older + inc + newer)
  {
    forall x, y | x in older + inc + newer && y in older + inc + newer && x.id == y.id ensures x == y {
      if x in inc && y in inc { FeedSafety.SameIdSameMsg(inc, x, y); }
      if x !in inc && y !in inc { FeedSafety.SameIdSameMsg(have, x, y); }
    }
  }

  lemma PartsConsistent(J: seq<Change>, s: State, have: seq<Msg>, c: Id, page: Page, inc: seq<Msg>)
    requires Lawful(J) && FeedOk(have) && AllPlaced(J, c, have) && FeedOk(inc) && AllPlaced(J, c, inc)
    ensures Consistent(inc + NewerThanPage(s, have, page, inc))
    ensures Consistent(OlderPart(s, have, c, page, inc) + inc + NewerThanPage(s, have, page, inc))
  {
    hide Lawful, OlderPart, NewerThanPage, AllPlaced, Consistent, Sorted, UniqueIds, Apart;
    var older, newer := OlderPart(s, have, c, page, inc), NewerThanPage(s, have, page, inc);
    OlderApart(J, s, have, c, page, inc);
    NewerApart(s, have, page, inc);
    ThreeConsistent(have, older, inc, newer);
    NoneApart(have, inc);
    ThreeConsistent(have, [], inc, newer);
    assert [] + inc == inc;
  }

  lemma NoneApart(have: seq<Msg>, inc: seq<Msg>)
    ensures Apart(have, [], inc)
  {
  }

  lemma DisjointConsistent(a: seq<Msg>, b: seq<Msg>)
    requires UniqueIds(a) && UniqueIds(b) && forall x, y | x in a && y in b :: x.id != y.id
    ensures Consistent(a + b) && Consistent(b + a)
  {
    forall x, y | x in a && y in a && x.id == y.id ensures x == y { FeedSafety.SameIdSameMsg(a, x, y); }
    forall x, y | x in b && y in b && x.id == y.id ensures x == y { FeedSafety.SameIdSameMsg(b, x, y); }
  }

  /** What was taken from the page: a feed of its messages that are not gone, or of newer listed views of them. */
  ghost predicate IncHolds(J: seq<Change>, s: State, have: seq<Msg>, c: Id, page: Page, inc: seq<Msg>) {
    FeedOk(inc) && AllPlaced(J, c, inc) &&
    (forall x | x in inc :: x.id !in s.gone && x.id in Ids(page.messages) &&
                            (if Newer_(s, page, x.id) then x in have else x in page.messages)) &&
    (forall p | p in page.messages && p.id !in s.gone && !Dropped(s, have, page, p.id) :: p.id in Ids(inc))
  }

  /** What the merged list holds, in terms of what was taken from the page and which old messages stay. */
  ghost predicate ListHolds(J: seq<Change>, s: State, have: seq<Msg>, c: Id, page: Page, kind: PageKind,
                            inc: seq<Msg>, merged: seq<Msg>) {
    FeedOk(merged) && AllPlaced(J, c, merged) &&
    (forall x | x in merged :: x in inc || KeptOld(s, have, c, page, kind, x)) &&
    (forall x | x in inc :: x in merged) &&
    (forall x | KeptOld(s, have, c, page, kind, x) :: x.id in Ids(merged))
  }

  lemma IncomingHolds(J: seq<Change>, s: State, have: seq<Msg>, c: Id, page: Page)
    requires Inputs(J, s, have, c, page)
    ensures IncHolds(J, s, have, c, page, Incoming(s, have, page))
  {
    FeedSafety.IncomingFacts(s, have, page, page.messages);
    IncomingDetail(J, s, have, c, page, page.messages);
    hide IncomingOf, Placed, Sorted, UniqueIds, Newer_, Dropped;
  }

  lemma MergedFromParts(J: seq<Change>, s: State, have: seq<Msg>, c: Id, page: Page, kind: PageKind, inc: seq<Msg>)
    requires inc == Incoming(s, have, page) && IncHolds(J, s, have, c, page, inc) && AllPlaced(J, c, have)
    requires Consistent(MergeParts(s, have, c, page, kind, inc))
    requires kind == Older || kind == Newer ==> c in s.windows
    ensures ListHolds(J, s, have, c, page, kind, inc, MergedList(s, have, c, page, kind))
  {
    hide IncomingOf, Before, Dedupe, Placed, Sorted, UniqueIds, Consistent, Filter, Joins, Newer_;
    assert forall x | x in OlderPart(s, have, c, page, inc) :: x in have by { OlderIsOld(s, have, c, page, inc); }
    hide OlderPart;
    DedupeOfConsistent(MergeParts(s, have, c, page, kind, inc));
    var merged := MergedList(s, have, c, page, kind);
    forall x | KeptOld(s, have, c, page, kind, x) ensures x.id in Ids(merged) {
      if x.id in Ids(inc) {
        var y :| y in inc && y.id == x.id;
        assert y in merged;
      } else {
        assert x in merged;
      }
    }
  }

  lemma PartsAreConsistent(J: seq<Change>, known: set<nat>, s: State, list: Option<seq<Msg>>, c: Id,
                           page: Page, kind: PageKind, cursor: Msg, inc: seq<Msg>)
    requires PageCase(J, known, s, list, c, page, kind, cursor) && Inputs(J, s, Have(list), c, page)
    requires IncHolds(J, s, Have(list), c, page, inc)
    ensures Consistent(MergeParts(s, Have(list), c, page, kind, inc))
    ensures kind == Older || kind == Newer ==> c in s.windows
  {
    hide PageOk, Lawful, WinInv, StateOk, Placed, Sorted, UniqueIds, Newer_, Dropped, AllPlaced, Consistent, OlderPart, NewerThanPage;
    var have := Have(list);
    if kind == Older || kind == Newer {
      EdgePagesDisjoint(J, known, s, list, c, page, kind, cursor);
      IncOfPage(s, have, page, inc);
      DisjointConsistent(inc, have);
    } else {
      PartsConsistent(J, s, have, c, page, inc);
      ConsistentPrefix(inc, NewerThanPage(s, have, page, inc));
    }
  }

  lemma MergedMembers(J: seq<Change>, known: set<nat>, s: State, list: Option<seq<Msg>>, c: Id,
                      page: Page, kind: PageKind, cursor: Msg)
    requires PageCase(J, known, s, list, c, page, kind, cursor)
    ensures var have, inc := Have(list), Incoming(s, Have(list), page);
      Inputs(J, s, have, c, page) && IncHolds(J, s, have, c, page, inc) &&
      ListHolds(J, s, have, c, page, kind, inc, MergedList(s, have, c, page, kind))
  {
    var have, inc := Have(list), Incoming(s, Have(list), page);
    MergeInputs(J, known, s, list, c, page, kind, cursor);
    IncomingHolds(J, s, have, c, page);
    PartsAreConsistent(J, known, s, list, c, page, kind, cursor, inc);
    assert AllPlaced(J, c, have);
    hide PageCase, Inputs, IncHolds, ListHolds, Consistent, IncomingOf, MergeParts, MergedList;
    MergedFromParts(J, s, have, c, page, kind, inc);
  }

  lemma IncOfPage(s: State, have: seq<Msg>, page: Page, inc: seq<Msg>)
    requires forall x | x in inc :: x.id in Ids(page.messages)
    requires forall p, x | p in page.messages && x in have :: p.id != x.id
    ensures forall y, x | y in inc && x in have :: y.id != x.id
  {
  }

  lemma ConsistentPrefix(a: seq<Msg>, b: seq<Msg>)
    requires Consistent(a + b)
    ensures Consistent(a + [])
  {
    assert forall x | x in a + [] :: x in a + b;
  }

  lemma OlderIsOld(s: State, have: seq<Msg>, c: Id, page: Page, inc: seq<Msg>)
    ensures forall x | x in OlderPart(s, have, c, page, inc) :: x in have
  {
    hide Before, Joins;
  }
}
