/** Dragging a channel to another place: where a drop lands, and the rows that must change on the server. */
module Reorder {
  import opened Feed

  datatype Channel = Channel(id: string, cat: Option<string>, position: int)

  /** A channel's place as it is sent to the server. */
  datatype Row = Row(id: string, cat: Option<string>, position: int)

  datatype Hint = Hint(cat: Option<string>, before: Option<string>)

  ghost predicate UniqueIds(all: seq<Channel>) {
    forall i, j | 0 <= i < j < |all| :: all[i].id != all[j].id
  }

  // ----- the order of a category -----

  function Pick(all: seq<Channel>, p: Channel -> bool): seq<Channel> {
    if all == [] then [] else Pick(all[..|all| - 1], p) + if p(all[|all| - 1]) then [all[|all| - 1]] else []
  }

  lemma {:induction false} PickMembers(all: seq<Channel>, p: Channel -> bool)
    ensures forall c :: c in Pick(all, p) <==> c in all && p(c)
  {
    if all != [] {
      assert all == all[..|all| - 1] + [all[|all| - 1]];
      PickMembers(all[..|all| - 1], p);
    }
  }

  function Insert(s: seq<Channel>, x: Channel): seq<Channel> {
    if s == [] then [x]
    else if x.position < s[|s| - 1].position then Insert(s[..|s| - 1], x) + [s[|s| - 1]]
    else s + [x]
  }

  lemma {:induction false} InsertMembers(s: seq<Channel>, x: Channel)
    ensures forall c :: c in Insert(s, x) <==> c in s || c == x
  {
    if s != [] {
      assert s == s[..|s| - 1] + [s[|s| - 1]];
      InsertMembers(s[..|s| - 1], x);
    }
  }

  /** By position; equal positions keep their order. */
  function Sort(s: seq<Channel>): seq<Channel> {
    if s == [] then [] else Insert(Sort(s[..|s| - 1]), s[|s| - 1])
  }

  lemma {:induction false} SortMembers(s: seq<Channel>)
    ensures forall c :: c in Sort(s) <==> c in s
  {
    if s != [] {
      assert s == s[..|s| - 1] + [s[|s| - 1]];
      SortMembers(s[..|s| - 1]);
      InsertMembers(Sort(s[..|s| - 1]), s[|s| - 1]);
    }
  }

  ghost predicate Ascending(s: seq<Channel>) {
    forall i, j | 0 <= i < j < |s| :: s[i].position <= s[j].position
  }

  lemma {:induction false} InsertAscends(s: seq<Channel>, x: Channel)
    requires Ascending(s)
    ensures Ascending(Insert(s, x))
  {
    if s != [] && x.position < s[|s| - 1].position {
      var t, z := s[..|s| - 1], s[|s| - 1];
      InsertAscends(t, x);
      InsertMembers(t, x);
      var r := Insert(t, x);
      forall i | 0 <= i < |r| ensures r[i].position <= z.position {
        assert r[i] in r;
        if r[i] in t { var k :| 0 <= k < |t| && t[k] == r[i]; assert s[k] == r[i]; }
      }
    }
  }

  lemma {:induction false} SortAscends(s: seq<Channel>)
    ensures Ascending(Sort(s))
  {
    if s != [] {
      SortAscends(s[..|s| - 1]);
      InsertAscends(Sort(s[..|s| - 1]), s[|s| - 1]);
    }
  }

  lemma PickLast(s: seq<Channel>, z: Channel, p: Channel -> bool)
    ensures Pick(s + [z], p) == Pick(s, p) + if p(z) then [z] else []
  {
    assert (s + [z])[..|s|] == s;
  }

  lemma InsertLast(s: seq<Channel>, z: Channel, x: Channel)
    ensures Insert(s + [z], x) == if x.position < z.position then Insert(s, x) + [z] else s + [z] + [x]
  {
    assert (s + [z])[..|s|] == s;
  }

  lemma SortLast(s: seq<Channel>, z: Channel)
    ensures Sort(s + [z]) == Insert(Sort(s), z)
  {
    assert (s + [z])[..|s|] == s;
  }

  /** A channel that belongs at the end goes to the end of any part. */
  lemma InsertAtEnd(s: seq<Channel>, x: Channel)
    requires forall c | c in s :: c.position <= x.position
    ensures Insert(s, x) == s + [x]
  {
    if s != [] { assert s[|s| - 1] in s; }
  }

  lemma AscendingPrefix(s: seq<Channel>)
    requires Ascending(s) && s != []
    ensures Ascending(s[..|s| - 1])
  {
  }

  lemma PickBelow(s: seq<Channel>, x: Channel, p: Channel -> bool)
    requires Ascending(s) && s != [] && s[|s| - 1].position <= x.position
    ensures forall c | c in Pick(s, p) :: c.position <= x.position
  {
    PickMembers(s, p);
    hide Pick;
    forall c | c in Pick(s, p) ensures c.position <= x.position { var k :| 0 <= k < |s| && s[k] == c; }
  }

  lemma PickOfInsertNone(x: Channel, p: Channel -> bool)
    ensures Pick(Insert([], x), p) == if p(x) then Insert(Pick([], p), x) else Pick([], p)
  {
    PickLast([], x, p);
    assert [] + [x] == [x];
  }

  lemma {:induction false} PickOfInsert(s: seq<Channel>, x: Channel, p: Channel -> bool)
    requires Ascending(s)
    ensures Pick(Insert(s, x), p) == if p(x) then Insert(Pick(s, p), x) else Pick(s, p)
  {
    hide Insert, Pick;
    if s == [] {
      PickOfInsertNone(x, p);
    } else {
      var t, z := s[..|s| - 1], s[|s| - 1];
      AscendingPrefix(s);
      assert s == t + [z];
      if x.position < z.position {
        PickOfInsert(t, x, p);
        InsertBefore(t, z, x, p);
      } else {
        PickBelow(s, x, p);
        PickLast(s, x, p);
        InsertAtEnd(Pick(s, p), x);
        InsertLast(t, z, x);
        assert Pick(s, p) + [] == Pick(s, p);
      }
    }
  }

  lemma InsertBefore(t: seq<Channel>, z: Channel, x: Channel, p: Channel -> bool)
    requires x.position < z.position
    requires Pick(Insert(t, x), p) == if p(x) then Insert(Pick(t, p), x) else Pick(t, p)
    ensures Pick(Insert(t + [z], x), p) == if p(x) then Insert(Pick(t + [z], p), x) else Pick(t + [z], p)
    ensures (t + [z])[..|t|] == t
  {
    hide Insert, Pick;
    PickLast(t, z, p);
    InsertLast(t, z, x);
    PickLast(Insert(t, x), z, p);
    InsertLast(Pick(t, p), z, x);
    assert Pick(t, p) + [] == Pick(t, p) && Insert(Pick(t, p), x) + [] == Insert(Pick(t, p), x);
  }

  lemma {:induction false} PickAscends(s: seq<Channel>, p: Channel -> bool)
    requires Ascending(s)
    ensures Ascending(Pick(s, p))
  {
    if s != [] {
      var t, z := s[..|s| - 1], s[|s| - 1];
      PickAscends(t, p);
      PickMembers(t, p);
      var r := Pick(t, p);
      forall i | 0 <= i < |r| ensures r[i].position <= z.position {
        assert r[i] in r;
        var k :| 0 <= k < |t| && t[k] == r[i];
        assert s[k] == r[i];
      }
    }
  }

  /** Leaving channels out before or after sorting is the same. */
  lemma {:induction false} PickOfSort(s: seq<Channel>, p: Channel -> bool)
    ensures Pick(Sort(s), p) == Sort(Pick(s, p))
  {
    if s != [] {
      var t, z := s[..|s| - 1], s[|s| - 1];
      assert s == t + [z];
      PickOfSort(t, p);
      SortAscends(t);
      SortLast(t, z);
      PickOfInsert(Sort(t), z, p);
      PickLast(t, z, p);
      SortLast(Pick(t, p), z);
      hide Sort, Pick, Insert;
      assert Pick(t, p) + [] == Pick(t, p);
    }
  }

  function Within(cat: Option<string>): Channel -> bool { (c: Channel) => c.cat == cat }

  function Others(drag: string): Channel -> bool { (c: Channel) => c.id != drag }

  function WithinBut(cat: Option<string>, drag: string): Channel -> bool { (c: Channel) => c.cat == cat && c.id != drag }

  function InCat(all: seq<Channel>, cat: Option<string>, drag: string): seq<Channel> {
    Sort(Pick(all, WithinBut(cat, drag)))
  }

  /** A whole category in order, with the dragged channel if it is in it. */
  function Whole(all: seq<Channel>, cat: Option<string>): seq<Channel> {
    Sort(Pick(all, Within(cat)))
  }

  lemma {:induction false} PickTwice(s: seq<Channel>, p: Channel -> bool, q: Channel -> bool, both: Channel -> bool)
    requires forall c :: both(c) <==> p(c) && q(c)
    ensures Pick(Pick(s, p), q) == Pick(s, both)
  {
    if s != [] {
      PickTwice(s[..|s| - 1], p, q, both);
      var r, z := Pick(s[..|s| - 1], p), s[|s| - 1];
      assert (r + [z])[..|r|] == r;
      if !p(z) { assert r + [] == r; }
    }
  }

  /** The category without the dragged channel is the category with it, minus it. */
  lemma InCatOfWhole(all: seq<Channel>, cat: Option<string>, drag: string)
    ensures InCat(all, cat, drag) == Pick(Whole(all, cat), Others(drag))
  {
    PickOfSort(Pick(all, Within(cat)), Others(drag));
    PickTwice(all, Within(cat), Others(drag), WithinBut(cat, drag));
  }

  // ----- the rows of a drop -----

  function Find(all: seq<Channel>, id: string): (r: int)
    ensures -1 <= r < |all| && (r >= 0 ==> all[r].id == id && forall i | 0 <= i < r :: all[i].id != id)
    ensures r < 0 ==> forall i | 0 <= i < |all| :: all[i].id != id
  {
    if all == [] then -1
    else if all[0].id == id then 0
    else
      var k := Find(all[1..], id);
      assert forall i | 1 <= i < |all| :: all[i] == all[1..][i - 1];
      if k < 0 then -1 else k + 1
  }

  /** Where the dragged channel goes in; an empty id counts as none. */
  function Slot(target: seq<Channel>, before: Option<string>): (at: nat)
    ensures at <= |target|
  {
    var at := if before.Some? && before.value != "" then Find(target, before.value) else -1;
    if at < 0 then |target| else at
  }

  function Placed(target: seq<Channel>, before: Option<string>, dragged: Channel): seq<Channel> {
    target[..Slot(target, before)] + [dragged] + target[Slot(target, before)..]
  }

  function Dense(s: seq<Channel>, cat: Option<string>): (r: seq<Row>)
    ensures |r| == |s| && forall i | 0 <= i < |r| :: r[i] == Row(s[i].id, cat, i)
  {
    seq(|s|, i requires 0 <= i < |s| => Row(s[i].id, cat, i))
  }

  /** The dragged channel's target category with it, and its old category without it, numbered anew. */
  function Renumbered(all: seq<Channel>, drag: string, cat: Option<string>, before: Option<string>): seq<Row> {
    var k := Find(all, drag);
    if k < 0 then []
    else
      Dense(Placed(InCat(all, cat, drag), before, all[k]), cat)
      + if all[k].cat == cat then [] else Dense(InCat(all, all[k].cat, drag), all[k].cat)
  }

  predicate Changed(all: seq<Channel>, u: Row) {
    var k := Find(all, u.id);
    k >= 0 && (all[k].cat != u.cat || all[k].position != u.position)
  }

  function OnlyChanged(all: seq<Channel>, rows: seq<Row>): (r: seq<Row>)
    ensures forall u :: u in r <==> u in rows && Changed(all, u)
  {
    if rows == [] then []
    else
      assert rows == rows[..|rows| - 1] + [rows[|rows| - 1]];
      OnlyChanged(all, rows[..|rows| - 1]) + if Changed(all, rows[|rows| - 1]) then [rows[|rows| - 1]] else []
  }

  function ComputeReorder(all: seq<Channel>, drag: string, cat: Option<string>, before: Option<string>): seq<Row> {
    OnlyChanged(all, Renumbered(all, drag, cat, before))
  }

  method ReorderByLoop(all: seq<Channel>, drag: string, cat: Option<string>, before: Option<string>) returns (out: seq<Row>)
    ensures out == ComputeReorder(all, drag, cat, before)
  {
    out := [];
    var k := Find(all, drag);
    if k < 0 { return; }
    hide InCat, Dense, Slot;
    var target := InCat(all, cat, drag);
    var at := Slot(target, before);
    target := target[..at] + [all[k]] + target[at..];
    var updates := DenseByLoop(target, cat);
    if all[k].cat != cat {
      var rest := DenseByLoop(InCat(all, all[k].cat, drag), all[k].cat);
      updates := updates + rest;
    }
    assert updates == Renumbered(all, drag, cat, before);
    out := ChangedByLoop(all, updates);
  }

  method ChangedByLoop(all: seq<Channel>, updates: seq<Row>) returns (out: seq<Row>)
    ensures out == OnlyChanged(all, updates)
  {
    out := [];
    var i := 0;
    while i < |updates|
      invariant 0 <= i <= |updates| && out == OnlyChanged(all, updates[..i])
    {
      assert updates[..i + 1][..i] == updates[..i];
      if Changed(all, updates[i]) { out := out + [updates[i]]; }
      i := i + 1;
    }
    assert updates[..i] == updates;
  }

  method DenseByLoop(s: seq<Channel>, cat: Option<string>) returns (rows: seq<Row>)
    ensures rows == Dense(s, cat)
  {
    rows := [];
    var i := 0;
    while i < |s|
      invariant 0 <= i <= |s| && |rows| == i && forall j | 0 <= j < i :: rows[j] == Row(s[j].id, cat, j)
    {
      rows := rows + [Row(s[i].id, cat, i)];
      i := i + 1;
    }
  }

  // ----- what the rows do -----

  /** The row for this channel, if there is one. */
  function RowFor(rows: seq<Row>, id: string): Option<Row> {
    if rows == [] then None else if rows[0].id == id then Some(rows[0]) else RowFor(rows[1..], id)
  }

  function After(c: Channel, rows: seq<Row>): Channel {
    var u := RowFor(rows, c.id);
    if u.None? then c else Channel(c.id, u.value.cat, u.value.position)
  }

  /** The server's channels once it has taken the rows. */
  function Apply(all: seq<Channel>, rows: seq<Row>): (r: seq<Channel>)
    ensures |r| == |all| && forall i | 0 <= i < |r| :: r[i] == After(all[i], rows)
  {
    seq(|all|, i requires 0 <= i < |all| => After(all[i], rows))
  }

  ghost predicate OneRowEach(rows: seq<Row>) {
    forall i, j | 0 <= i < j < |rows| :: rows[i].id != rows[j].id
  }

  lemma {:induction false} RowForIs(rows: seq<Row>, u: Row)
    requires OneRowEach(rows) && u in rows
    ensures RowFor(rows, u.id) == Some(u)
  {
    if rows[0] != u {
      assert u in rows[1..];
      var k :| 0 <= k < |rows[1..]| && rows[1..][k] == u;
      assert rows[k + 1] == u;
      RowForIs(rows[1..], u);
    }
  }

  lemma {:induction false} RowForNone(rows: seq<Row>, id: string)
    requires forall u | u in rows :: u.id != id
    ensures RowFor(rows, id) == None
  {
    if rows != [] { RowForNone(rows[1..], id); }
  }

  lemma {:induction false} OnlyChangedOneEach(all: seq<Channel>, rows: seq<Row>)
    requires OneRowEach(rows)
    ensures OneRowEach(OnlyChanged(all, rows))
  {
    if rows != [] {
      var t, z := rows[..|rows| - 1], rows[|rows| - 1];
      OnlyChangedOneEach(all, t);
      var r := OnlyChanged(all, t);
      forall i | 0 <= i < |r| ensures r[i].id != z.id {
        assert r[i] in r && r[i] in t;
        var k :| 0 <= k < |t| && t[k] == r[i];
        assert rows[k] == r[i];
      }
    }
  }

  lemma {:induction false} DistinctPick(s: seq<Channel>, p: Channel -> bool)
    requires UniqueIds(s)
    ensures UniqueIds(Pick(s, p))
  {
    if s != [] {
      var t, z := s[..|s| - 1], s[|s| - 1];
      DistinctPick(t, p);
      PickMembers(t, p);
      var r := Pick(t, p);
      forall i | 0 <= i < |r| ensures r[i].id != z.id {
        assert r[i] in r && r[i] in t;
        var k :| 0 <= k < |t| && t[k] == r[i];
        assert s[k] == r[i];
      }
    }
  }

  lemma {:induction false} DistinctInsert(s: seq<Channel>, x: Channel)
    requires UniqueIds(s) && forall c | c in s :: c.id != x.id
    ensures UniqueIds(Insert(s, x))
  {
    if s != [] && x.position < s[|s| - 1].position {
      var t, z := s[..|s| - 1], s[|s| - 1];
      assert forall c | c in t :: c in s;
      DistinctInsert(t, x);
      InsertMembers(t, x);
      var r := Insert(t, x);
      forall i | 0 <= i < |r| ensures r[i].id != z.id {
        assert r[i] in r;
        if r[i] in t { var k :| 0 <= k < |t| && t[k] == r[i]; assert s[k] == r[i]; } else { assert z in s; }
      }
    }
  }

  lemma {:induction false} DistinctSort(s: seq<Channel>)
    requires UniqueIds(s)
    ensures UniqueIds(Sort(s))
  {
    if s != [] {
      var t, z := s[..|s| - 1], s[|s| - 1];
      DistinctSort(t);
      SortMembers(t);
      forall c | c in Sort(t) ensures c.id != z.id {
        var k :| 0 <= k < |t| && t[k] == c;
        assert s[k] == c;
      }
      DistinctInsert(Sort(t), z);
    }
  }

  lemma InCatFacts(all: seq<Channel>, cat: Option<string>, drag: string)
    requires UniqueIds(all)
    ensures UniqueIds(InCat(all, cat, drag)) && Ascending(InCat(all, cat, drag))
    ensures forall c :: c in InCat(all, cat, drag) <==> c in all && c.cat == cat && c.id != drag
  {
    var p := WithinBut(cat, drag);
    DistinctPick(all, p);
    DistinctSort(Pick(all, p));
    SortAscends(Pick(all, p));
    PickMembers(all, p);
    SortMembers(Pick(all, p));
    hide Sort, Pick;
  }

  lemma FindUnique(all: seq<Channel>, c: Channel)
    requires UniqueIds(all) && c in all
    ensures Find(all, c.id) >= 0 && all[Find(all, c.id)] == c
  {
    var i :| 0 <= i < |all| && all[i] == c;
  }

  /** The dragged channel with its new neighbours, and the category it came from. */
  ghost function Target(all: seq<Channel>, drag: string, cat: Option<string>, before: Option<string>): seq<Channel>
    requires Find(all, drag) >= 0
  {
    Placed(InCat(all, cat, drag), before, all[Find(all, drag)])
  }

  lemma PlacedMembers(o: seq<Channel>, d: Channel, at: nat)
    requires at <= |o|
    ensures forall c :: c in o[..at] + [d] + o[at..] <==> c in o || c == d
  {
    assert o == o[..at] + o[at..];
  }

  lemma PlacedFacts(o: seq<Channel>, d: Channel, at: nat)
    requires UniqueIds(o) && at <= |o| && forall c | c in o :: c.id != d.id
    ensures var t := o[..at] + [d] + o[at..]; UniqueIds(t) && forall c :: c in t <==> c in o || c == d
  {
    PlacedMembers(o, d, at);
    PlacedAt(o, d, at);
    assert forall i | 0 <= i < |o| :: o[i] in o;
    var t := o[..at] + [d] + o[at..];
    assert |t| == |o| + 1;
  }

  lemma PlacedAt(o: seq<Channel>, d: Channel, at: nat)
    requires at <= |o|
    ensures var t := o[..at] + [d] + o[at..];
      |t| == |o| + 1 && forall i | 0 <= i < |t| :: t[i] == if i < at then o[i] else if i == at then d else o[i - 1]
  {
  }

  lemma TargetFacts(all: seq<Channel>, drag: string, cat: Option<string>, before: Option<string>)
    requires UniqueIds(all) && Find(all, drag) >= 0
    ensures var t := Target(all, drag, cat, before);
      UniqueIds(t) && forall c :: c in t <==> c in all && (c.id == drag || c.cat == cat)
  {
    var o, d := InCat(all, cat, drag), all[Find(all, drag)];
    InCatFacts(all, cat, drag);
    hide InCat, Slot, UniqueIds;
    PlacedFacts(o, d, Slot(o, before));
    forall c | c in all && c.id == drag ensures c == d { FindUnique(all, c); }
  }

  lemma DenseRows(s: seq<Channel>, cat: Option<string>)
    requires UniqueIds(s)
    ensures OneRowEach(Dense(s, cat))
    ensures forall u :: u in Dense(s, cat) <==> exists i | 0 <= i < |s| :: u == Row(s[i].id, cat, i)
  {
    var r := Dense(s, cat);
    forall i | 0 <= i < |s| ensures Row(s[i].id, cat, i) in r { assert r[i] == Row(s[i].id, cat, i); }
  }

  lemma RowsApart(a: seq<Row>, b: seq<Row>)
    requires OneRowEach(a) && OneRowEach(b) && forall u, v | u in a && v in b :: u.id != v.id
    ensures OneRowEach(a + b)
  {
    var c := a + b;
    forall i, j | 0 <= i < j < |c| ensures c[i].id != c[j].id {
      if i < |a| <= j { assert c[i] in a && c[j] in b; }
    }
  }

  ghost predicate RowsWithin(rows: seq<Row>, s: seq<Channel>) {
    forall u | u in rows :: exists c | c in s :: c.id == u.id
  }

  lemma DenseWithin(s: seq<Channel>, cat: Option<string>)
    ensures RowsWithin(Dense(s, cat), s)
  {
    forall u | u in Dense(s, cat) ensures exists c | c in s :: c.id == u.id {
      var i :| 0 <= i < |s| && u == Dense(s, cat)[i];
      assert s[i] in s && s[i].id == u.id;
    }
  }

  /** One row a channel, and only for channels that exist. */
  lemma RenumberedRows(all: seq<Channel>, drag: string, cat: Option<string>, before: Option<string>)
    requires UniqueIds(all) && Find(all, drag) >= 0
    ensures OneRowEach(Renumbered(all, drag, cat, before))
  {
    var src := all[Find(all, drag)].cat;
    var t, r := Target(all, drag, cat, before), InCat(all, src, drag);
    TargetFacts(all, drag, cat, before);
    InCatFacts(all, src, drag);
    DenseRows(t, cat);
    DenseRows(r, src);
    DenseWithin(t, cat);
    DenseWithin(r, src);
    var a, b := Dense(t, cat), Dense(r, src);
    assert Renumbered(all, drag, cat, before) == a + (if src == cat then [] else b);
    hide InCat, Target, Dense, Find, UniqueIds, OneRowEach, Renumbered, Ascending;
    if src != cat {
      forall u, v | u in a && v in b ensures u.id != v.id {
        var c :| c in t && c.id == u.id;
        var d :| d in r && d.id == v.id;
        SameIdSame(all, c, d);
      }
      RowsApart(a, b);
    } else {
      assert a + [] == a;
    }
  }

  lemma SameIdSame(all: seq<Channel>, c: Channel, d: Channel)
    requires UniqueIds(all) && c in all && d in all
    ensures c.id == d.id ==> c == d
  {
    FindUnique(all, c);
    FindUnique(all, d);
  }

  /** Leaving out the rows that change nothing changes nothing; each row that is sent changes its channel. */
  lemma OnlyChangedSuffices(all: seq<Channel>, rows: seq<Row>, c: Channel)
    requires UniqueIds(all) && OneRowEach(rows) && c in all
    ensures After(c, OnlyChanged(all, rows)) == After(c, rows)
    ensures (exists u | u in OnlyChanged(all, rows) :: u.id == c.id) <==> After(c, rows) != c
  {
    FindUnique(all, c);
    OnlyChangedOneEach(all, rows);
    var sent := OnlyChanged(all, rows);
    hide OnlyChanged, RowFor;
    if u :| u in rows && u.id == c.id {
      RowForIs(rows, u);
      if Changed(all, u) {
        RowForIs(sent, u);
      } else {
        forall v | v in sent ensures v.id != c.id {
          if v.id == c.id { RowForIs(rows, v); }
        }
        RowForNone(sent, c.id);
      }
    } else {
      RowForNone(rows, c.id);
      RowForNone(sent, c.id);
    }
  }

  /** The category holds exactly these channels, and each one's position is its place in the list. */
  ghost predicate Holds(all: seq<Channel>, cat: Option<string>, order: seq<Channel>) {
    (forall i | 0 <= i < |order| :: Channel(order[i].id, cat, i) in all) &&
    forall c | c in all && c.cat == cat :: 0 <= c.position < |order| && order[c.position].id == c.id
  }

  lemma AfterRow(rows: seq<Row>, c: Channel, u: Row)
    requires OneRowEach(rows) && u in rows && u.id == c.id
    ensures After(c, rows) == Channel(c.id, u.cat, u.position)
  {
    RowForIs(rows, u);
  }

  lemma DenseGives(s: seq<Channel>, cat: Option<string>, rows: seq<Row>, c: Channel)
    requires OneRowEach(rows) && c in s && forall u | u in Dense(s, cat) :: u in rows
    ensures var d := After(c, rows); d.cat == cat && d.id == c.id && 0 <= d.position < |s| && s[d.position] == c
  {
    var i :| 0 <= i < |s| && s[i] == c;
    assert Dense(s, cat)[i] == Row(c.id, cat, i);
    AfterRow(rows, c, Row(c.id, cat, i));
  }

  lemma OthersStay(all: seq<Channel>, s: seq<Channel>, rows: seq<Row>, c: Channel)
    requires UniqueIds(all) && RowsWithin(rows, s) && c in all && c !in s && forall d | d in s :: d in all
    ensures forall u | u in rows :: u.id != c.id
  {
    forall u | u in rows ensures u.id != c.id {
      var d :| d in s && d.id == u.id;
      SameIdSame(all, c, d);
    }
  }

  /** Where each channel ends up: in the target at its place, in the old category at its place, or where it was. */
  lemma Lands(all: seq<Channel>, drag: string, cat: Option<string>, before: Option<string>, c: Channel)
    requires UniqueIds(all) && Find(all, drag) >= 0 && c in all
    ensures var src, t, r := all[Find(all, drag)].cat, Target(all, drag, cat, before), InCat(all, all[Find(all, drag)].cat, drag);
      var d := After(c, Renumbered(all, drag, cat, before));
      if c.id == drag || c.cat == cat then d.cat == cat && 0 <= d.position < |t| && t[d.position] == c && d.id == c.id
      else if c.cat == src then d.cat == src && 0 <= d.position < |r| && r[d.position] == c && d.id == c.id
      else d == c
  {
    var src := all[Find(all, drag)].cat;
    var t, r := Target(all, drag, cat, before), InCat(all, src, drag);
    var rows := Renumbered(all, drag, cat, before);
    TargetFacts(all, drag, cat, before);
    InCatFacts(all, src, drag);
    RenumberedRows(all, drag, cat, before);
    DenseWithin(t, cat);
    DenseWithin(r, src);
    var a, b := Dense(t, cat), Dense(r, src);
    assert rows == a + (if src == cat then [] else b);
    hide InCat, Target, Dense, RowFor, Renumbered, Find, UniqueIds, OneRowEach, Ascending, RowsWithin, After;
    if c.id == drag || c.cat == cat {
      DenseGives(t, cat, rows, c);
    } else if c.cat == src {
      DenseGives(r, src, rows, c);
    } else {
      OthersStay(all, t, a, c);
      OthersStay(all, r, b, c);
      RowForNone(rows, c.id);
      AfterNoRow(rows, c);
    }
  }

  lemma AfterNoRow(rows: seq<Row>, c: Channel)
    requires RowFor(rows, c.id) == None
    ensures After(c, rows) == c
  {
  }

  /**
   * The rows that are sent put the dragged channel where it was dropped: the target category is its old order with the
   * channel at the drop, the old category closes up in its old order, every position is the place in its category, and
   * no other category changes.
   */
  lemma ReorderPlaces(all: seq<Channel>, drag: string, cat: Option<string>, before: Option<string>)
    requires UniqueIds(all) && Find(all, drag) >= 0
    ensures var d, next := all[Find(all, drag)], Apply(all, ComputeReorder(all, drag, cat, before));
      Holds(next, cat, Target(all, drag, cat, before)) &&
      (d.cat != cat ==> Holds(next, d.cat, InCat(all, d.cat, drag))) &&
      forall i | 0 <= i < |all| && all[i].cat != cat && all[i].cat != d.cat :: next[i] == all[i]
  {
    var d := all[Find(all, drag)];
    var t, r := Target(all, drag, cat, before), InCat(all, d.cat, drag);
    var rows := Renumbered(all, drag, cat, before);
    var next := Apply(all, ComputeReorder(all, drag, cat, before));
    RenumberedRows(all, drag, cat, before);
    hide Renumbered, OnlyChanged, InCat, Target, After, Find, UniqueIds, OneRowEach, Holds;
    forall i | 0 <= i < |all| ensures next[i] == After(all[i], rows) { OnlyChangedSuffices(all, rows, all[i]); }
    LandsAll(all, drag, cat, before, next);
  }

  lemma HoldsByPlace(all: seq<Channel>, next: seq<Channel>, rows: seq<Row>, cat: Option<string>, order: seq<Channel>)
    requires |next| == |all| && (forall i | 0 <= i < |all| :: next[i] == After(all[i], rows))
    requires forall c | c in order :: c in all
    requires forall i | 0 <= i < |order| :: After(order[i], rows) == Channel(order[i].id, cat, i)
    requires forall c | c in all && After(c, rows).cat == cat ::
      0 <= After(c, rows).position < |order| && order[After(c, rows).position].id == After(c, rows).id
    ensures Holds(next, cat, order)
  {
    hide After;
    forall i | 0 <= i < |order| ensures Channel(order[i].id, cat, i) in next {
      assert order[i] in order;
      var k :| 0 <= k < |all| && all[k] == order[i];
      assert next[k] == Channel(order[i].id, cat, i);
    }
    forall d | d in next && d.cat == cat ensures 0 <= d.position < |order| && order[d.position].id == d.id {
      var k :| 0 <= k < |all| && next[k] == d;
      assert all[k] in all;
    }
  }

  lemma PlaceOf(order: seq<Channel>, i: nat, k: int)
    requires UniqueIds(order) && i < |order| && 0 <= k < |order| && order[k] == order[i]
    ensures k == i
  {
  }

  lemma PlacesAre(t: seq<Channel>, cat: Option<string>, rows: seq<Row>)
    requires UniqueIds(t)
    requires forall c | c in t :: var e := After(c, rows); e.cat == cat && e.id == c.id && 0 <= e.position < |t| && t[e.position] == c
    ensures forall i | 0 <= i < |t| :: After(t[i], rows) == Channel(t[i].id, cat, i)
  {
    hide After, UniqueIds;
    forall i | 0 <= i < |t| ensures After(t[i], rows) == Channel(t[i].id, cat, i) {
      assert t[i] in t;
      PlaceOf(t, i, After(t[i], rows).position);
    }
  }

  lemma LandsAll(all: seq<Channel>, drag: string, cat: Option<string>, before: Option<string>, next: seq<Channel>)
    requires UniqueIds(all) && Find(all, drag) >= 0 && |next| == |all|
    requires forall i | 0 <= i < |all| :: next[i] == After(all[i], Renumbered(all, drag, cat, before))
    ensures var d := all[Find(all, drag)];
      Holds(next, cat, Target(all, drag, cat, before)) &&
      (d.cat != cat ==> Holds(next, d.cat, InCat(all, d.cat, drag))) &&
      forall i | 0 <= i < |all| && all[i].cat != cat && all[i].cat != d.cat :: next[i] == all[i]
  {
    var d := all[Find(all, drag)];
    var t, r := Target(all, drag, cat, before), InCat(all, d.cat, drag);
    var rows := Renumbered(all, drag, cat, before);
    hide Renumbered, InCat, After, Target, Ascending, UniqueIds, Holds;
    TargetFacts(all, drag, cat, before);
    InCatFacts(all, d.cat, drag);
    hide Find;
    forall c | c in all ensures c.id == drag ==> c == d { if c.id == drag { FindUnique(all, c); } }
    forall c | c in all ensures (
      var e := After(c, rows);
      if c.id == drag || c.cat == cat then e.cat == cat && 0 <= e.position < |t| && t[e.position] == c && e.id == c.id
      else if c.cat == d.cat then e.cat == d.cat && 0 <= e.position < |r| && r[e.position] == c && e.id == c.id
      else e == c)
    {
      Lands(all, drag, cat, before, c);
    }
    PlacesAre(t, cat, rows);
    HoldsByPlace(all, next, rows, cat, t);
    if d.cat != cat {
      PlacesAre(r, d.cat, rows);
      HoldsByPlace(all, next, rows, d.cat, r);
    }
    forall i | 0 <= i < |all| && all[i].cat != cat && all[i].cat != d.cat ensures next[i] == all[i] { assert all[i] in all; }
  }

  /** The rows sent are exactly those of channels that change: none missing, none for nothing. */
  lemma ReorderIsMinimal(all: seq<Channel>, drag: string, cat: Option<string>, before: Option<string>, c: Channel)
    requires UniqueIds(all) && Find(all, drag) >= 0 && c in all
    ensures var rows := ComputeReorder(all, drag, cat, before);
      OneRowEach(rows) && ((exists u | u in rows :: u.id == c.id) <==> After(c, rows) != c)
  {
    RenumberedRows(all, drag, cat, before);
    OnlyChangedSuffices(all, Renumbered(all, drag, cat, before), c);
    OnlyChangedOneEach(all, Renumbered(all, drag, cat, before));
  }

  // ----- where a drop over a row lands -----

  function IdsOf(s: seq<Channel>): seq<string> {
    seq(|s|, i requires 0 <= i < |s| => s[i].id)
  }

  function IndexOf(ids: seq<string>, id: string): (r: int)
    ensures -1 <= r < |ids| && (r >= 0 ==> ids[r] == id) && (r < 0 ==> id !in ids)
  {
    if ids == [] then -1
    else if ids[0] == id then 0
    else
      assert ids == [ids[0]] + ids[1..];
      var k := IndexOf(ids[1..], id);
      if k < 0 then -1 else k + 1
  }

  /** The first id that is not the dragged channel's. */
  function FirstOther(ids: seq<string>, drag: string): Option<string> {
    if ids == [] then None else if ids[0] != drag then Some(ids[0]) else FirstOther(ids[1..], drag)
  }

  function DropHint(drag: string, target: string, cat: Option<string>, after: bool, ordered: seq<string>): Option<Hint> {
    if target == drag then None
    else if !after then Some(Hint(cat, Some(target)))
    else
      var k := IndexOf(ordered, target);
      if k < 0 then Some(Hint(cat, None)) else Some(Hint(cat, FirstOther(ordered[k + 1..], drag)))
  }

  lemma {:induction false} PickFirst(x: Channel, s: seq<Channel>, p: Channel -> bool)
    ensures Pick([x] + s, p) == (if p(x) then [x] else []) + Pick(s, p)
  {
    if s == [] {
      assert [x] + [] == [] + [x];
      PickLast([], x, p);
    } else {
      var t, z := s[..|s| - 1], s[|s| - 1];
      assert s == t + [z] && [x] + s == ([x] + t) + [z];
      PickFirst(x, t, p);
      PickLast([x] + t, z, p);
      PickLast(t, z, p);
    }
  }

  lemma {:induction false} PickSum(a: seq<Channel>, b: seq<Channel>, p: Channel -> bool)
    ensures Pick(a + b, p) == Pick(a, p) + Pick(b, p)
  {
    if b == [] {
      assert a + b == a;
    } else {
      var t, z := b[..|b| - 1], b[|b| - 1];
      assert b == t + [z] && a + b == (a + t) + [z];
      PickSum(a, t, p);
      PickLast(a + t, z, p);
      PickLast(t, z, p);
    }
  }

  lemma {:induction false} FirstOtherIs(s: seq<Channel>, drag: string)
    ensures var r := Pick(s, Others(drag));
      FirstOther(IdsOf(s), drag) == if r == [] then None else Some(r[0].id)
  {
    if s != [] {
      FirstOtherIs(s[1..], drag);
      PickFirst(s[0], s[1..], Others(drag));
      assert s == [s[0]] + s[1..] && IdsOf(s)[1..] == IdsOf(s[1..]);
      hide Pick;
    }
  }

  ghost predicate Named(all: seq<Channel>) {
    UniqueIds(all) && forall c | c in all :: c.id != ""
  }

  /** `x` stands right before `y`. */
  ghost predicate Adjacent(s: seq<Channel>, x: Channel, y: Channel) {
    exists i | 0 <= i < |s| - 1 :: s[i] == x && s[i + 1] == y
  }

  lemma SlotIs(o: seq<Channel>, before: Option<string>, j: nat)
    requires UniqueIds(o) && j <= |o| && forall c | c in o :: c.id != ""
    requires before == if j < |o| then Some(o[j].id) else None
    ensures Slot(o, before) == j
  {
    if j < |o| { assert o[j] in o; FindUnique(o, o[j]); }
  }

  lemma IndexIs(s: seq<Channel>, k: nat)
    requires UniqueIds(s) && k < |s|
    ensures IndexOf(IdsOf(s), s[k].id) == k
  {
    assert IdsOf(s)[k] == s[k].id;
    var i := IndexOf(IdsOf(s), s[k].id);
    assert IdsOf(s)[k] in IdsOf(s);
    assert s[i].id == s[k].id;
  }

  lemma PickAround(a: seq<Channel>, x: Channel, b: seq<Channel>, p: Channel -> bool)
    ensures Pick(a + [x] + b, p) == Pick(a, p) + (if p(x) then [x] else []) + Pick(b, p)
  {
    PickSum(a + [x], b, p);
    PickLast(a, x, p);
  }

  /** What stays of a list around one channel that stays. */
  lemma SplitAround(w: seq<Channel>, k: nat, drag: string)
    requires k < |w| && w[k].id != drag
    ensures Pick(w, Others(drag)) == Pick(w[..k], Others(drag)) + [w[k]] + Pick(w[k + 1..], Others(drag))
  {
    hide Pick;
    var a, b := w[..k], w[k + 1..];
    assert w == a + [w[k]] + b;
    PickAround(a, w[k], b, Others(drag));
  }

  /** Below the middle of a row: the slot is right after that row in the category without the dragged channel. */
  lemma SlotAfter(all: seq<Channel>, drag: string, cat: Option<string>, t: Channel) returns (j: nat)
    requires Named(all) && t in all && t.cat == cat && t.id != drag
    ensures var o := InCat(all, cat, drag);
      j < |o| && o[j] == t &&
      DropHint(drag, t.id, cat, true, IdsOf(Whole(all, cat))) == Some(Hint(cat, if j + 1 < |o| then Some(o[j + 1].id) else None))
  {
    var w := Whole(all, cat);
    WholeFacts(all, cat);
    InCatOfWhole(all, cat, drag);
    hide Whole, Pick, InCat, Ascending, DropHint;
    assert t in w;
    var k: nat :| k < |w| && w[k] == t;
    j := |Pick(w[..k], Others(drag))|;
    SplitAround(w, k, drag);
    AroundAt(Pick(w[..k], Others(drag)), t, Pick(w[k + 1..], Others(drag)), InCat(all, cat, drag));
    HintBelow(w, k, drag, cat);
  }

  lemma HintBelow(w: seq<Channel>, k: nat, drag: string, cat: Option<string>)
    requires UniqueIds(w) && k < |w| && w[k].id != drag
    ensures var rest := Pick(w[k + 1..], Others(drag));
      DropHint(drag, w[k].id, cat, true, IdsOf(w)) == Some(Hint(cat, if rest != [] then Some(rest[0].id) else None))
  {
    hide Pick, UniqueIds, FirstOther, IndexOf;
    IndexIs(w, k);
    FirstOtherIs(w[k + 1..], drag);
    assert IdsOf(w)[k + 1..] == IdsOf(w[k + 1..]);
  }

  lemma AroundAt(a: seq<Channel>, t: Channel, b: seq<Channel>, o: seq<Channel>)
    requires o == a + [t] + b
    ensures o[|a|] == t && (b == [] <==> |a| + 1 == |o|) && (b != [] ==> o[|a| + 1] == b[0])
  {
  }

  lemma WholeFacts(all: seq<Channel>, cat: Option<string>)
    requires UniqueIds(all)
    ensures UniqueIds(Whole(all, cat)) && Ascending(Whole(all, cat))
    ensures forall c :: c in Whole(all, cat) <==> c in all && c.cat == cat
  {
    var p := Within(cat);
    DistinctPick(all, p);
    DistinctSort(Pick(all, p));
    SortAscends(Pick(all, p));
    PickMembers(all, p);
    SortMembers(Pick(all, p));
    hide Sort, Pick;
  }

  /** With no row to stand before, or an empty id, the channel goes to the end; so does a drop below a row that is not in the list. */
  lemma NoRowIsTheEnd(all: seq<Channel>, drag: string, cat: Option<string>, target: string, ordered: seq<string>)
    requires Find(all, drag) >= 0 && target != drag && target !in ordered
    ensures var o, d := InCat(all, cat, drag), all[Find(all, drag)];
      Target(all, drag, cat, None) == o + [d] && Target(all, drag, cat, Some("")) == o + [d] &&
      DropHint(drag, target, cat, true, ordered) == Some(Hint(cat, None))
  {
    hide InCat, Find;
    var o := InCat(all, cat, drag);
    assert o[..|o|] == o && o[|o|..] == [];
  }

  /** A drop over a row puts the channel right before it or right after it, as the hint said. */
  lemma DropLandsBesideRow(all: seq<Channel>, drag: string, cat: Option<string>, t: Channel, after: bool)
    requires Named(all) && Find(all, drag) >= 0 && t in all && t.cat == cat && t.id != drag
    ensures var h, d := DropHint(drag, t.id, cat, after, IdsOf(Whole(all, cat))), all[Find(all, drag)];
      h.Some? && h.value.cat == cat &&
      (if after then Adjacent(Target(all, drag, cat, h.value.before), t, d)
       else Adjacent(Target(all, drag, cat, h.value.before), d, t))
  {
    InCatFacts(all, cat, drag);
    var j := HintSlot(all, drag, cat, t, after);
    hide InCat, Whole, DropHint, Find, Placed, Ascending, IdsOf, Adjacent, Slot;
    if after { BesideAfter(InCat(all, cat, drag), j, t, all[Find(all, drag)]); }
    else { BesideBefore(InCat(all, cat, drag), j, t, all[Find(all, drag)]); }
  }

  lemma BesideAfter(o: seq<Channel>, j: nat, t: Channel, d: Channel)
    requires UniqueIds(o) && j < |o| && o[j] == t && forall c | c in o :: c.id != ""
    ensures Adjacent(Placed(o, if j + 1 < |o| then Some(o[j + 1].id) else None, d), t, d)
  {
    PlacedBeside(o, if j + 1 < |o| then Some(o[j + 1].id) else None, j + 1, d);
  }

  lemma BesideBefore(o: seq<Channel>, j: nat, t: Channel, d: Channel)
    requires UniqueIds(o) && j < |o| && o[j] == t && forall c | c in o :: c.id != ""
    ensures Adjacent(Placed(o, Some(t.id), d), d, t)
  {
    PlacedBeside(o, Some(t.id), j, d);
  }

  /** The hint names the row at the slot: the one below the row, or the row itself. */
  lemma HintSlot(all: seq<Channel>, drag: string, cat: Option<string>, t: Channel, after: bool) returns (j: nat)
    requires Named(all) && t in all && t.cat == cat && t.id != drag
    ensures var o := InCat(all, cat, drag);
      j < |o| && o[j] == t &&
      DropHint(drag, t.id, cat, after, IdsOf(Whole(all, cat))) ==
        Some(Hint(cat, if !after then Some(t.id) else if j + 1 < |o| then Some(o[j + 1].id) else None))
  {
    j := SlotAfter(all, drag, cat, t);
    hide InCat, Whole, IdsOf;
  }

  /** A channel put into a slot stands right after the one before the slot and right before the one at the slot. */
  lemma PlacedBeside(o: seq<Channel>, before: Option<string>, j: nat, d: Channel)
    requires UniqueIds(o) && j <= |o| && forall c | c in o :: c.id != ""
    requires before == if j < |o| then Some(o[j].id) else None
    ensures j > 0 ==> Adjacent(Placed(o, before, d), o[j - 1], d)
    ensures j < |o| ==> Adjacent(Placed(o, before, d), d, o[j])
  {
    SlotIs(o, before, j);
    hide Slot, UniqueIds;
    var r := o[..j] + [d] + o[j..];
    assert Placed(o, before, d) == r && r[j] == d;
    if j > 0 { assert r[j - 1] == o[j - 1]; }
    if j < |o| { assert r[j + 1] == o[j]; }
  }

  // ----- a drop back onto its own place -----

  lemma {:induction false} PickAll(s: seq<Channel>, p: Channel -> bool)
    requires forall c | c in s :: p(c)
    ensures Pick(s, p) == s
  {
    if s != [] {
      var t, z := s[..|s| - 1], s[|s| - 1];
      assert s == t + [z];
      assert forall c | c in t :: c in s;
      assert z in s;
      PickAll(t, p);
    }
  }

  lemma {:induction false} NothingChanged(all: seq<Channel>, rows: seq<Row>)
    requires forall u | u in rows :: !Changed(all, u)
    ensures OnlyChanged(all, rows) == []
  {
    if rows != [] {
      assert rows[|rows| - 1] in rows;
      forall u | u in rows[..|rows| - 1] ensures u in rows {}
      NothingChanged(all, rows[..|rows| - 1]);
    }
  }

  /** In a category whose positions are its places, dropping a channel before the one that follows it changes nothing. */
  lemma DropBackChangesNothing(all: seq<Channel>, drag: string, cat: Option<string>, i: nat)
    requires Named(all) && var w := Whole(all, cat);
      i < |w| && w[i].id == drag && forall k | 0 <= k < |w| :: w[k].position == k
    ensures var w := Whole(all, cat);
      ComputeReorder(all, drag, cat, if i + 1 < |w| then Some(w[i + 1].id) else None) == []
  {
    var w, other := Whole(all, cat), Others(drag);
    var before := if i + 1 < |w| then Some(w[i + 1].id) else None;
    WholeFacts(all, cat);
    InCatFacts(all, cat, drag);
    InCatOfWhole(all, cat, drag);
    assert w[i] in w;
    FindUnique(all, w[i]);
    var o := InCat(all, cat, drag);
    WithoutOne(w, i, drag);
    hide Whole, Pick, InCat, Find, OnlyChanged, Ascending, UniqueIds;
    PutBack(w, i, before, o);
    assert Renumbered(all, drag, cat, before) == Dense(w, cat) by { assert Dense(w, cat) + [] == Dense(w, cat); }
    hide Renumbered, Placed;
    forall u | u in Dense(w, cat) ensures !Changed(all, u) {
      var k :| 0 <= k < |w| && Dense(w, cat)[k] == u;
      assert w[k] in w;
      FindUnique(all, w[k]);
    }
    NothingChanged(all, Dense(w, cat));
  }

  /** A channel taken out and put back before the one that followed it. */
  lemma PutBack(w: seq<Channel>, i: nat, before: Option<string>, o: seq<Channel>)
    requires UniqueIds(w) && i < |w| && o == w[..i] + w[i + 1..] && forall c | c in w :: c.id != ""
    requires before == if i + 1 < |w| then Some(w[i + 1].id) else None
    ensures Placed(o, before, w[i]) == w
  {
    assert forall c | c in o :: c in w;
    forall a, b | 0 <= a < b < |o| ensures o[a].id != o[b].id {
      assert o[a] == w[if a < i then a else a + 1] && o[b] == w[if b < i then b else b + 1];
    }
    assert i < |o| ==> o[i] == w[i + 1];
    SlotIs(o, before, i);
    hide Slot, UniqueIds;
    assert o[..i] == w[..i] && o[i..] == w[i + 1..];
    assert w == w[..i] + [w[i]] + w[i + 1..];
  }

  lemma WithoutOne(w: seq<Channel>, i: nat, drag: string)
    requires UniqueIds(w) && i < |w| && w[i].id == drag
    ensures Pick(w, Others(drag)) == w[..i] + w[i + 1..]
  {
    hide Pick, UniqueIds;
    assert w == w[..i] + [w[i]] + w[i + 1..];
    OthersDiffer(w, i);
    PickAround(w[..i], w[i], w[i + 1..], Others(drag));
    PickAll(w[..i], Others(drag));
    PickAll(w[i + 1..], Others(drag));
    assert w[..i] + [] == w[..i];
  }

  lemma OthersDiffer(w: seq<Channel>, i: nat)
    requires UniqueIds(w) && i < |w|
    ensures forall c | c in w[..i] || c in w[i + 1..] :: c.id != w[i].id
  {
    forall c | c in w[..i] ensures c.id != w[i].id { var k :| 0 <= k < i && w[k] == c; }
    forall c | c in w[i + 1..] ensures c.id != w[i].id {
      var k :| 0 <= k < |w| - i - 1 && w[i + 1..][k] == c;
      assert w[i + 1 + k] == c;
    }
  }

  /**
   * Dropping a channel on the lower half of the row above it, or on the upper half of the row below it, puts it where it
   * is: nothing is sent.
   */
  lemma DropOnNeighbourChangesNothing(all: seq<Channel>, drag: string, cat: Option<string>, i: nat, after: bool)
    requires Named(all) && var w := Whole(all, cat);
      i < |w| && w[i].id == drag && (if after then i > 0 else i + 1 < |w|) && forall k | 0 <= k < |w| :: w[k].position == k
    ensures var w := Whole(all, cat);
      var h := DropHint(drag, w[if after then i - 1 else i + 1].id, cat, after, IdsOf(w));
      h.Some? && ComputeReorder(all, drag, cat, h.value.before) == []
  {
    var w := Whole(all, cat);
    var t := w[if after then i - 1 else i + 1];
    WholeFacts(all, cat);
    assert t in w && t.id != drag;
    DropBackChangesNothing(all, drag, cat, i);
    if after {
      var j := SlotAfter(all, drag, cat, t);
      InCatOfWhole(all, cat, drag);
      WithoutOne(w, i, drag);
      var o := InCat(all, cat, drag);
      hide Whole, Pick, InCat, ComputeReorder;
      assert o == w[..i] + w[i + 1..];
      assert o[i - 1] == t;
      assert j == i - 1;
      assert j + 1 < |o| ==> o[j + 1] == w[i + 1];
    }
  }
}
