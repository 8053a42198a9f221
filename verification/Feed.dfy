/** The order of a conversation feed: message keys, sorting, filtering and de-duplication. */
module Feed {
  datatype Option<+T> = None | Some(value: T)

  type Id = string

  /** The part of a message that an edit replaces; `editedAt` is a parsed time stamp. */
  datatype Edit = Edit(text: string, editedAt: Option<int>)

  datatype Msg = Msg(id: Id, conv: Id, sortKey: int, edit: Edit, reactions: string)

  /** Comparison of two ids by code units, as the `<` of the source's strings. */
  predicate IdLess(a: Id, b: Id) {
    if |b| == 0 then false
    else if |a| == 0 then true
    else a[0] < b[0] || (a[0] == b[0] && IdLess(a[1..], b[1..]))
  }

  function CompareConv(a: Msg, b: Msg): int {
    if a.sortKey != b.sortKey then (if a.sortKey < b.sortKey then -1 else 1)
    else if IdLess(a.id, b.id) then -1
    else if IdLess(b.id, a.id) then 1
    else 0
  }

  predicate Before(a: Msg, b: Msg) {
    CompareConv(a, b) < 0
  }

  lemma {:induction false} IdTrichotomy(a: Id, b: Id)
    ensures IdLess(a, b) || IdLess(b, a) || a == b
    ensures !(IdLess(a, b) && IdLess(b, a))
    ensures !IdLess(a, a)
  {
    if |a| > 0 && |b| > 0 {
      IdTrichotomy(a[1..], b[1..]);
      IdTrichotomy(a[1..], a[1..]);
      if a[0] == b[0] && a[1..] == b[1..] {
        assert a == [a[0]] + a[1..] && b == [b[0]] + b[1..];
      }
    } else if |a| > 0 {
      IdTrichotomy(a[1..], a[1..]);
    }
  }

  lemma {:induction false} IdTransitive(a: Id, b: Id, c: Id)
    requires IdLess(a, b) && IdLess(b, c)
    ensures IdLess(a, c)
  {
    if |a| > 0 && a[0] == b[0] && b[0] == c[0] {
      IdTransitive(a[1..], b[1..], c[1..]);
    }
  }

  /** `compareConv` is a strict total order on messages with distinct ids, and blind to message content. */
  lemma BeforeIsTotalOrder(a: Msg, b: Msg, c: Msg)
    ensures !Before(a, a)
    ensures !(Before(a, b) && Before(b, a))
    ensures Before(a, b) && Before(b, c) ==> Before(a, c)
    ensures a.id != b.id ==> Before(a, b) || Before(b, a)
    ensures CompareConv(a, b) == 0 <==> a.sortKey == b.sortKey && a.id == b.id
    ensures CompareConv(a, b) > 0 <==> Before(b, a)
  {
    IdTrichotomy(a.id, a.id);
    IdTrichotomy(a.id, b.id);
    if IdLess(a.id, b.id) && IdLess(b.id, c.id) {
      IdTransitive(a.id, b.id, c.id);
    }
  }

  lemma Order()
    ensures forall a: Msg :: !Before(a, a)
    ensures forall a: Msg, b: Msg {:trigger Before(a, b)} :: Before(a, b) ==> !Before(b, a)
    ensures forall a: Msg, b: Msg, c: Msg {:trigger Before(a, b), Before(b, c)} :: Before(a, b) && Before(b, c) ==> Before(a, c)
    ensures forall a: Msg, b: Msg {:trigger Before(a, b)} :: a.id != b.id ==> Before(a, b) || Before(b, a)
  {
    forall a: Msg, b: Msg, c: Msg
      ensures !Before(a, a)
      ensures Before(a, b) ==> !Before(b, a)
      ensures Before(a, b) && Before(b, c) ==> Before(a, c)
      ensures a.id != b.id ==> Before(a, b) || Before(b, a)
    {
      BeforeIsTotalOrder(a, b, c);
    }
  }

  // ----- feeds: strictly increasing, one entry an id -----

  ghost predicate Sorted(s: seq<Msg>) {
    forall i, j | 0 <= i < j < |s| :: Before(s[i], s[j])
  }

  ghost predicate UniqueIds(s: seq<Msg>) {
    forall i, j | 0 <= i < j < |s| :: s[i].id != s[j].id
  }

  ghost predicate FeedOk(s: seq<Msg>) {
    Sorted(s) && UniqueIds(s)
  }

  function Ids(s: seq<Msg>): set<Id> {
    set m | m in s :: m.id
  }

  /** Two strictly increasing feeds with the same messages are the same feed. */
  lemma {:induction false} SortedUnique(a: seq<Msg>, b: seq<Msg>)
    requires Sorted(a) && Sorted(b)
    requires forall m :: m in a <==> m in b
    ensures a == b
  {
    Order();
    assert (a != [] ==> a[0] in b) && (b != [] ==> b[0] in a);
    if a != [] && b != [] {
      assert a[0] in b && b[0] in a;
      assert a[0] == b[0];
      forall m ensures m in a[1..] <==> m in b[1..] {
        if m in a[1..] { assert m in a && m != a[0]; }
        if m in b[1..] { assert m in b && m != b[0]; }
      }
      SortedUnique(a[1..], b[1..]);
    }
  }

  /** Index of the message with this id, or -1 (`findIndex`). */
  function IndexOf(s: seq<Msg>, id: Id): (k: int)
    ensures -1 <= k < |s|
    ensures k >= 0 ==> s[k].id == id && forall i | 0 <= i < k :: s[i].id != id
    ensures k == -1 <==> id !in Ids(s)
  {
    if s == [] then -1
    else if s[0].id == id then 0
    else
      var k := IndexOf(s[1..], id);
      assert Ids(s) == {s[0].id} + Ids(s[1..]);
      if k == -1 then -1 else k + 1
  }

  // ----- sorting -----

  /** Place `m` after every element not greater than it: the stable place of an appended element. */
  function Insert(s: seq<Msg>, m: Msg): (r: seq<Msg>)
    ensures |r| == |s| + 1
    ensures forall x :: x in r <==> x in s || x == m
  {
    if s == [] then [m]
    else if Before(m, s[|s| - 1]) then
      assert s == s[..|s| - 1] + [s[|s| - 1]];
      Insert(s[..|s| - 1], m) + [s[|s| - 1]]
    else s + [m]
  }

  /** The stable sort of the source's `Array.sort(compareConv)`. */
  function Sort(s: seq<Msg>): (r: seq<Msg>)
    ensures |r| == |s|
    ensures forall x :: x in r <==> x in s
  {
    if s == [] then []
    else
      assert s == s[..|s| - 1] + [s[|s| - 1]];
      Insert(Sort(s[..|s| - 1]), s[|s| - 1])
  }

  lemma AppendKeepsFeed(s: seq<Msg>, z: Msg)
    requires FeedOk(s) && forall x | x in s :: Before(x, z) && x.id != z.id
    ensures FeedOk(s + [z])
  {
    hide Before;
    forall i | 0 <= i < |s| ensures Before(s[i], z) && s[i].id != z.id { assert s[i] in s; }
  }

  lemma FeedWithoutLast(s: seq<Msg>)
    requires FeedOk(s) && s != []
    ensures FeedOk(s[..|s| - 1]) && forall x | x in s[..|s| - 1] :: x in s && Before(x, s[|s| - 1]) && x.id != s[|s| - 1].id
  {
    hide Before;
    var t := s[..|s| - 1];
    forall x | x in t ensures x in s && Before(x, s[|s| - 1]) && x.id != s[|s| - 1].id {
      var k :| 0 <= k < |t| && t[k] == x;
      assert s[k] == x;
    }
  }

  lemma {:induction false} InsertKeepsFeed(s: seq<Msg>, m: Msg)
    requires FeedOk(s) && m.id !in Ids(s)
    ensures FeedOk(Insert(s, m))
  {
    Order();
    hide Before;
    if s != [] {
      var t, z := s[..|s| - 1], s[|s| - 1];
      FeedWithoutLast(s);
      assert z in s && s == t + [z];
      hide FeedOk;
      if Before(m, z) {
        InsertKeepsFeed(t, m);
        AppendKeepsFeed(Insert(t, m), z);
      } else {
        AppendKeepsFeed(s, m);
      }
    }
  }

  /** Sorting messages with distinct ids gives a feed. */
  lemma {:induction false} SortMakesFeed(s: seq<Msg>)
    requires UniqueIds(s)
    ensures FeedOk(Sort(s))
  {
    if s != [] {
      var t, z := s[..|s| - 1], s[|s| - 1];
      SortMakesFeed(t);
      forall x | x in t ensures x.id != z.id {
        var k :| 0 <= k < |t| && t[k] == x;
        assert s[k] == x;
      }
      InsertKeepsFeed(Sort(t), z);
    }
  }

  /** Sorting a feed changes nothing. */
  lemma SortOfFeed(s: seq<Msg>)
    requires FeedOk(s)
    ensures Sort(s) == s
  {
    hide Sort;
    SortMakesFeed(s);
    SortedUnique(Sort(s), s);
  }

  // ----- filtering -----

  function Filter(s: seq<Msg>, p: Msg -> bool): (r: seq<Msg>)
    ensures forall x :: x in r <==> x in s && p(x)
  {
    if s == [] then []
    else
      assert s == [s[0]] + s[1..];
      if p(s[0]) then [s[0]] + Filter(s[1..], p) else Filter(s[1..], p)
  }

  lemma {:induction false} FilterKeepsFeed(s: seq<Msg>, p: Msg -> bool)
    requires FeedOk(s)
    ensures FeedOk(Filter(s, p))
  {
    if s != [] {
      FilterKeepsFeed(s[1..], p);
      var r := Filter(s[1..], p);
      forall i | 0 <= i < |r| ensures Before(s[0], r[i]) && s[0].id != r[i].id {
        assert r[i] in r;
        assert r[i] in s[1..];
        var k :| 0 <= k < |s[1..]| && s[1..][k] == r[i];
        assert s[k + 1] == r[i];
      }
    }
  }

  // ----- de-duplication -----

  /** `Map.set` on a list of entries: a known id keeps its place and takes the new value. */
  function Put(seen: seq<Msg>, m: Msg): (r: seq<Msg>) {
    var k := IndexOf(seen, m.id);
    if k >= 0 then seen[k := m] else seen + [m]
  }

  /** The values of the map that a list of messages fills: one an id, the last one wins. */
  function LastById(s: seq<Msg>): (r: seq<Msg>) {
    if s == [] then [] else Put(LastById(s[..|s| - 1]), s[|s| - 1])
  }

  function Dedupe(s: seq<Msg>): seq<Msg> {
    Sort(LastById(s))
  }

  /** `m` is the value the last occurrence of its id in `s` carries. */
  ghost predicate IsLast(s: seq<Msg>, m: Msg) {
    exists i | 0 <= i < |s| :: s[i] == m && forall j | i < j < |s| :: s[j].id != m.id
  }

  lemma PutFacts(seen: seq<Msg>, m: Msg)
    requires UniqueIds(seen)
    ensures UniqueIds(Put(seen, m))
    ensures forall x :: x in Put(seen, m) <==> x == m || (x in seen && x.id != m.id)
  {
    var k := IndexOf(seen, m.id);
    var r := Put(seen, m);
    if k >= 0 {
      forall x ensures x in r <==> x == m || (x in seen && x.id != m.id) {
        if x in seen && x.id != m.id {
          var i :| 0 <= i < |seen| && seen[i] == x;
          assert r[i] == x;
        }
        if x in r && x != m {
          var i :| 0 <= i < |r| && r[i] == x;
          assert i != k && seen[i] == x;
        }
        assert r[k] == m;
      }
    } else {
      forall i | 0 <= i < |seen| ensures seen[i].id != m.id { assert seen[i] in seen; }
      assert r[|seen|] == m;
      forall x | x in r ensures x == m || (x in seen && x.id != m.id) {}
      forall x | x in seen ensures x in r { var i :| 0 <= i < |seen| && seen[i] == x; assert r[i] == x; }
    }
  }

  lemma IsLastStep(t: seq<Msg>, z: Msg, x: Msg)
    ensures IsLast(t + [z], x) <==> x == z || (IsLast(t, x) && x.id != z.id)
  {
    var s := t + [z];
    assert s[|t|] == z;
    if x == z {
      assert IsLast(s, x);
    } else {
      if IsLast(s, x) {
        var i :| 0 <= i < |s| && s[i] == x && forall j | i < j < |s| :: s[j].id != x.id;
        assert i < |t| && t[i] == x;
        forall j | i < j < |t| ensures t[j].id != x.id { assert s[j] == t[j]; }
      }
      if IsLast(t, x) && x.id != z.id {
        var i :| 0 <= i < |t| && t[i] == x && forall j | i < j < |t| :: t[j].id != x.id;
        assert s[i] == x;
        forall j | i < j < |s| ensures s[j].id != x.id { if j < |t| { assert s[j] == t[j]; } }
      }
    }
  }

  lemma {:induction false} LastByIdFacts(s: seq<Msg>)
    ensures UniqueIds(LastById(s))
    ensures forall x :: x in LastById(s) <==> IsLast(s, x)
  {
    if s != [] {
      var t, z := s[..|s| - 1], s[|s| - 1];
      LastByIdFacts(t);
      PutFacts(LastById(t), z);
      assert s == t + [z];
      forall x ensures x in LastById(s) <==> IsLast(s, x) {
        IsLastStep(t, z, x);
      }
    }
  }

  /** Whatever list comes in, `dedupe` returns a feed holding exactly the last value of every id. */
  lemma DedupeMakesFeed(s: seq<Msg>)
    ensures FeedOk(Dedupe(s))
    ensures forall x :: x in Dedupe(s) <==> IsLast(s, x)
    ensures forall x | x in Dedupe(s) :: x in s
  {
    LastByIdFacts(s);
    SortMakesFeed(LastById(s));
  }

  /** Every id that comes in comes out. */
  lemma {:induction false} DedupeKeepsIds(s: seq<Msg>)
    ensures Ids(Dedupe(s)) == Ids(s)
  {
    DedupeMakesFeed(s);
    forall id | id in Ids(s) ensures id in Ids(Dedupe(s)) {
      var k :| 0 <= k < |s| && s[k].id == id;
      var x := LastWithId(s, id, k);
      assert x in Dedupe(s);
    }
  }

  lemma {:induction false} LastWithId(s: seq<Msg>, id: Id, k: nat) returns (x: Msg)
    requires k < |s| && s[k].id == id
    ensures x.id == id && IsLast(s, x)
    decreases |s| - k
  {
    if j :| k < j < |s| && s[j].id == id {
      x := LastWithId(s, id, j);
    } else {
      x := s[k];
    }
  }

  lemma HasMember(s: seq<Msg>)
    ensures s == [] || exists x :: x in s
  {
    if s != [] { assert s[0] in s; }
  }
}
