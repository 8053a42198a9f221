/** Which rows of a feed move: those that appear at its end, and those that are deleted in place and shown a moment longer. */
module Motion {
  import opened Feed

  const MOTION_MAX: nat := 3

  /** A row is identified by its id; the rest of it may change between two renderings. */
  datatype Row = Row(id: string, body: string)

  datatype Leaving = Leaving(row: Row, afterId: string)

  function Ids(rows: seq<Row>): seq<string> {
    seq(|rows|, i requires 0 <= i < |rows| => rows[i].id)
  }

  ghost predicate UniqueIds(rows: seq<Row>) {
    forall i, j | 0 <= i < j < |rows| :: rows[i].id != rows[j].id
  }

  ghost predicate Named(rows: seq<Row>) {
    UniqueIds(rows) && forall i | 0 <= i < |rows| :: rows[i].id != ""
  }

  // ----- rows at the end -----

  /** Place of the first row with this id, or the number of rows. */
  function Find(rows: seq<Row>, id: string): (k: nat)
    ensures k <= |rows| && (k < |rows| ==> rows[k].id == id) && forall i | 0 <= i < k :: rows[i].id != id
  {
    if rows == [] then 0
    else if rows[0].id == id then 0
    else
      var k := Find(rows[1..], id);
      assert forall i | 1 <= i < k + 1 :: rows[i] == rows[1..][i - 1];
      k + 1
  }

  function FreshTail(prev: Option<seq<Row>>, next: seq<Row>): seq<string> {
    if prev.None? || prev.value == [] || next == [] then []
    else
      var at := Find(next, prev.value[|prev.value| - 1].id);
      if at == |next| then []
      else
        var added := next[at + 1..];
        if added == [] || |added| > MOTION_MAX then [] else Ids(added)
  }

  /** Whatever is loaded above and however old rows change: what was added below the last old row, if it is one to three rows. */
  lemma FreshTailIsWhatWasAdded(prev: seq<Row>, above: seq<Row>, last: Row, added: seq<Row>)
    requires prev != [] && last.id == prev[|prev| - 1].id && UniqueIds(above + [last] + added)
    ensures FreshTail(Some(prev), above + [last] + added) == if 1 <= |added| <= 3 then Ids(added) else []
  {
    var next := above + [last] + added;
    var at := Find(next, last.id);
    assert next[|above|] == last;
    assert at == |above|;
    assert next[at + 1..] == added;
  }

  /** A first rendering, or a window that lost its old end, moves nothing. */
  lemma NoTailNoMotion(prev: Option<seq<Row>>, next: seq<Row>)
    requires prev.Some? && prev.value != [] ==> prev.value[|prev.value| - 1].id !in Ids(next)
    ensures FreshTail(prev, next) == []
  {
    if prev.Some? && prev.value != [] {
      forall i | 0 <= i < |next| ensures next[i].id in Ids(next) { assert Ids(next)[i] == next[i].id; }
    }
  }

  // ----- rows deleted in place -----

  function Gone(prev: seq<Row>, have: set<string>): seq<Row> {
    if prev == [] then [] else (if prev[0].id in have then [] else [prev[0]]) + Gone(prev[1..], have)
  }

  /** Every row that is gone, with the nearest row above it that stays; `last` is that row so far. */
  function Removed(prev: seq<Row>, have: set<string>, last: Option<string>): seq<Leaving> {
    if prev == [] then []
    else if prev[0].id in have then Removed(prev[1..], have, Some(prev[0].id))
    else (if last.Some? then [Leaving(prev[0], last.value)] else []) + Removed(prev[1..], have, last)
  }

  function IdSet(rows: seq<Row>): set<string> {
    set r | r in rows :: r.id
  }

  function RemovedInPlace(prev: Option<seq<Row>>, next: seq<Row>): seq<Leaving> {
    if prev.None? || prev.value == [] || next == [] then []
    else
      var gone := Gone(prev.value, IdSet(next));
      if gone == [] || |gone| > MOTION_MAX then [] else Removed(prev.value, IdSet(next), None)
  }

  /** The nearest row above place `i` that stays. */
  function Above(prev: seq<Row>, have: set<string>, i: nat): Option<string>
    requires i <= |prev|
  {
    if i == 0 then None else if prev[i - 1].id in have then Some(prev[i - 1].id) else Above(prev, have, i - 1)
  }

  lemma {:induction false} RemovedUpTo(prev: seq<Row>, have: set<string>, i: nat)
    requires i < |prev|
    ensures Removed(prev[..i + 1], have, None) == Removed(prev[..i], have, None) +
      if prev[i].id in have || Above(prev, have, i).None? then [] else [Leaving(prev[i], Above(prev, have, i).value)]
  {
    RemovedAppend(prev[..i], have, None, prev[i]);
    assert prev[..i + 1] == prev[..i] + [prev[i]];
    AboveOfPrefix(prev, have, i);
  }

  /** The last row of `rows` that stays, or `last`. */
  function LastKept(rows: seq<Row>, have: set<string>, last: Option<string>): Option<string> {
    if rows == [] then last else LastKept(rows[1..], have, if rows[0].id in have then Some(rows[0].id) else last)
  }

  lemma {:induction false} RemovedAppend(rows: seq<Row>, have: set<string>, last: Option<string>, z: Row)
    ensures var k := LastKept(rows, have, last);
      Removed(rows + [z], have, last) == Removed(rows, have, last) + if z.id in have || k.None? then [] else [Leaving(z, k.value)]
  {
    if rows != [] {
      assert (rows + [z])[1..] == rows[1..] + [z];
      RemovedAppend(rows[1..], have, if rows[0].id in have then Some(rows[0].id) else last, z);
    } else {
      assert rows + [z] == [z] && [z][1..] == [];
    }
  }

  lemma {:induction false} AboveOfPrefix(prev: seq<Row>, have: set<string>, i: nat)
    requires i <= |prev|
    ensures LastKept(prev[..i], have, None) == Above(prev, have, i)
  {
    if i > 0 {
      AboveOfPrefix(prev, have, i - 1);
      LastKeptAppend(prev[..i - 1], have, None, prev[i - 1]);
      assert prev[..i] == prev[..i - 1] + [prev[i - 1]];
    }
  }

  lemma {:induction false} LastKeptAppend(rows: seq<Row>, have: set<string>, last: Option<string>, z: Row)
    ensures LastKept(rows + [z], have, last) == if z.id in have then Some(z.id) else LastKept(rows, have, last)
  {
    if rows != [] {
      assert (rows + [z])[1..] == rows[1..] + [z];
      LastKeptAppend(rows[1..], have, if rows[0].id in have then Some(rows[0].id) else last, z);
    } else {
      assert rows + [z] == [z] && [z][1..] == [];
    }
  }

  /** The source's loop: for each row that is gone, a walk up to the nearest one that stays. */
  method RemovedByLoop(prev: seq<Row>, next: seq<Row>) returns (out: seq<Leaving>)
    ensures out == RemovedInPlace(Some(prev), next)
  {
    out := [];
    if prev == [] || next == [] { return; }
    var have := IdSet(next);
    var gone := Gone(prev, have);
    if gone == [] || |gone| > MOTION_MAX { return; }
    var i := 0;
    while i < |prev|
      invariant 0 <= i <= |prev| && out == Removed(prev[..i], have, None)
    {
      RemovedUpTo(prev, have, i);
      if prev[i].id !in have {
        var k := i;
        while k > 0 && prev[k - 1].id !in have
          invariant 0 <= k <= i && Above(prev, have, k) == Above(prev, have, i)
        {
          k := k - 1;
        }
        if k > 0 { out := out + [Leaving(prev[i], prev[k - 1].id)]; }
      }
      i := i + 1;
    }
    assert prev[..i] == prev;
  }

  /** The rows that leave right below the row with this id. */
  function After(leaving: seq<Leaving>, id: string): seq<Row> {
    if leaving == [] then [] else (if leaving[0].afterId == id then [leaving[0].row] else []) + After(leaving[1..], id)
  }

  function NotIn(rows: seq<Row>, have: set<string>): seq<Row> {
    if rows == [] then [] else (if rows[0].id in have then [] else [rows[0]]) + NotIn(rows[1..], have)
  }

  function Woven(rows: seq<Row>, leaving: seq<Leaving>, have: set<string>): seq<Row> {
    if rows == [] then []
    else [rows[0]] + (if rows[0].id == "" then [] else NotIn(After(leaving, rows[0].id), have)) + Woven(rows[1..], leaving, have)
  }

  function WithLeaving(rows: seq<Row>, leaving: seq<Leaving>): seq<Row> {
    Woven(rows, leaving, IdSet(rows))
  }

  lemma {:induction false} AfterAppend(a: seq<Leaving>, g: Leaving, id: string)
    ensures After(a + [g], id) == After(a, id) + if g.afterId == id then [g.row] else []
  {
    if a != [] {
      assert (a + [g])[1..] == a[1..] + [g];
      AfterAppend(a[1..], g, id);
    } else {
      assert a + [g] == [g] && [g][1..] == [];
    }
  }

  function Get(after: map<string, seq<Row>>, id: string): seq<Row> {
    if id in after then after[id] else []
  }

  ghost predicate Grouped(after: map<string, seq<Row>>, leaving: seq<Leaving>) {
    "" !in after && forall id :: id != "" ==> Get(after, id) == After(leaving, id)
  }

  lemma GroupOne(after: map<string, seq<Row>>, leaving: seq<Leaving>, g: Leaving)
    requires Grouped(after, leaving)
    ensures Grouped(if g.afterId == "" then after else after[g.afterId := Get(after, g.afterId) + [g.row]], leaving + [g])
  {
    forall id ensures After(leaving + [g], id) == After(leaving, id) + if g.afterId == id then [g.row] else [] {
      AfterAppend(leaving, g, id);
    }
    hide After;
    var next := if g.afterId == "" then after else after[g.afterId := Get(after, g.afterId) + [g.row]];
    forall id | id != "" ensures Get(next, id) == After(leaving + [g], id) {
      assert After(leaving, id) + [] == After(leaving, id);
    }
  }

  /** The dictionary of the source: leaving rows by the row they follow. */
  method GroupByLoop(leaving: seq<Leaving>) returns (after: map<string, seq<Row>>)
    ensures Grouped(after, leaving)
  {
    after := map[];
    var i := 0;
    assert Grouped(after, leaving[..0]);
    hide Grouped;
    while i < |leaving|
      invariant 0 <= i <= |leaving| && Grouped(after, leaving[..i])
    {
      var g := leaving[i];
      GroupOne(after, leaving[..i], g);
      assert leaving[..i + 1] == leaving[..i] + [g];
      if g.afterId != "" { after := after[g.afterId := Get(after, g.afterId) + [g.row]]; }
      i := i + 1;
    }
    assert leaving[..i] == leaving;
  }

  method NotInByLoop(rows: seq<Row>, have: set<string>) returns (out: seq<Row>)
    ensures out == NotIn(rows, have)
  {
    out := [];
    var j := 0;
    while j < |rows|
      invariant 0 <= j <= |rows| && out + NotIn(rows[j..], have) == NotIn(rows, have)
    {
      assert rows[j..][1..] == rows[j + 1..];
      if rows[j].id !in have { out := out + [rows[j]]; }
      j := j + 1;
    }
  }

  method WithLeavingByLoop(rows: seq<Row>, leaving: seq<Leaving>) returns (out: seq<Row>)
    ensures out == WithLeaving(rows, leaving)
  {
    var after := GroupByLoop(leaving);
    var have := IdSet(rows);
    hide IdSet, NotIn, After, Woven, Grouped, Get;
    out := [];
    assert rows[0..] == rows;
    assert Woven(rows[|rows|..], leaving, have) == [] by { WovenNone(leaving, have); assert rows[|rows|..] == []; }
    var i := 0;
    while i < |rows|
      invariant 0 <= i <= |rows| && out + Woven(rows[i..], leaving, have) == Woven(rows, leaving, have)
    {
      var r := rows[i];
      var follow := NotInByLoop(Get(after, r.id), have);
      WovenNext(rows, i, leaving, have, after);
      assert out + ([r] + follow + Woven(rows[i + 1..], leaving, have)) == (out + [r] + follow) + Woven(rows[i + 1..], leaving, have);
      out := out + [r] + follow;
      i := i + 1;
    }
  }

  lemma WovenNone(leaving: seq<Leaving>, have: set<string>)
    ensures Woven([], leaving, have) == []
  {
  }

  lemma WovenNext(rows: seq<Row>, i: nat, leaving: seq<Leaving>, have: set<string>, after: map<string, seq<Row>>)
    requires i < |rows| && Grouped(after, leaving)
    ensures Woven(rows[i..], leaving, have) == [rows[i]] + NotIn(Get(after, rows[i].id), have) + Woven(rows[i + 1..], leaving, have)
  {
    assert rows[i..][1..] == rows[i + 1..];
    NoneBelowUnnamed(have);
    hide After, NotIn;
  }

  lemma NoneBelowUnnamed(have: set<string>)
    ensures NotIn([], have) == []
  {
  }

  // ----- the two undo each other -----

  function Kept(prev: seq<Row>, have: set<string>): seq<Row> {
    if prev == [] then [] else (if prev[0].id in have then [prev[0]] else []) + Kept(prev[1..], have)
  }

  /** The rows at the top of `prev` that are gone. */
  function Run(prev: seq<Row>, have: set<string>): (k: nat)
    ensures k <= |prev| && (forall i | 0 <= i < k :: prev[i].id !in have) && (k < |prev| ==> prev[k].id in have)
  {
    if prev == [] || prev[0].id in have then 0
    else
      var k := Run(prev[1..], have);
      assert forall i | 1 <= i < k + 1 :: prev[i] == prev[1..][i - 1];
      k + 1
  }

  lemma {:induction false} AfterNone(p: seq<Row>, have: set<string>, last: Option<string>, id: string)
    requires id !in Ids(p) && last != Some(id)
    ensures After(Removed(p, have, last), id) == []
  {
    if p != [] {
      assert Ids(p)[0] == p[0].id && forall i | 0 <= i < |p| - 1 :: Ids(p[1..])[i] == Ids(p)[i + 1];
      AfterNone(p[1..], have, if p[0].id in have then Some(p[0].id) else last, id);
      SkipFirst(p, have, last, id);
    }
  }

  /** The first row leaves below another row, or stays: it adds nothing below this one. */
  lemma SkipFirst(p: seq<Row>, have: set<string>, last: Option<string>, id: string)
    requires p != [] && last != Some(id)
    ensures After(Removed(p, have, last), id) ==
      After(Removed(p[1..], have, if p[0].id in have then Some(p[0].id) else last), id)
  {
    var rest := Removed(p[1..], have, last);
    if p[0].id !in have {
      if last.Some? { assert ([Leaving(p[0], last.value)] + rest)[1..] == rest; } else { assert [] + rest == rest; }
    }
  }

  lemma {:induction false} AfterLast(p: seq<Row>, have: set<string>, id: string)
    requires id !in Ids(p)
    ensures After(Removed(p, have, Some(id)), id) == p[..Run(p, have)]
  {
    if p != [] {
      assert Ids(p)[0] == p[0].id && forall i | 0 <= i < |p| - 1 :: Ids(p[1..])[i] == Ids(p)[i + 1];
      if p[0].id in have {
        AfterNone(p[1..], have, Some(p[0].id), id);
      } else {
        AfterLast(p[1..], have, id);
        var rest := Removed(p[1..], have, Some(id));
        assert ([Leaving(p[0], id)] + rest)[1..] == rest;
        assert p[..Run(p, have)] == [p[0]] + p[1..][..Run(p[1..], have)];
      }
    }
  }

  lemma UniqueTail(p: seq<Row>)
    requires Named(p) && p != []
    ensures Named(p[1..]) && p[0].id !in Ids(p[1..])
  {
    forall i | 0 <= i < |p| - 1 ensures Ids(p[1..])[i] != p[0].id { assert p[1..][i] == p[i + 1]; }
  }

  /** What leaves below a row that stays is the run of rows that are gone right below it. */
  lemma {:induction false} AfterInside(p: seq<Row>, have: set<string>, last: Option<string>, j: nat)
    requires Named(p) && j < |p| && p[j].id in have && (last.Some? ==> last.value !in Ids(p))
    ensures After(Removed(p, have, last), p[j].id) == p[j + 1..][..Run(p[j + 1..], have)]
  {
    UniqueTail(p);
    assert Ids(p)[j] == p[j].id && Ids(p)[0] == p[0].id;
    if j == 0 {
      AfterLast(p[1..], have, p[0].id);
    } else {
      forall i | 0 <= i < |p| - 1 ensures Ids(p[1..])[i] == Ids(p)[i + 1] {}
      assert p[1..][j - 1] == p[j] && p[1..][j..] == p[j + 1..];
      AfterInside(p[1..], have, if p[0].id in have then Some(p[0].id) else last, j - 1);
      SkipFirst(p, have, last, p[j].id);
      hide After, Removed, Run;
    }
  }

  lemma {:induction false} NotInWhole(rows: seq<Row>, have: set<string>)
    requires forall i | 0 <= i < |rows| :: rows[i].id !in have
    ensures NotIn(rows, have) == rows
  {
    if rows != [] { NotInWhole(rows[1..], have); }
  }

  lemma IdsSum(a: seq<Row>, b: seq<Row>)
    ensures Ids(a + b) == Ids(a) + Ids(b)
  {
  }

  lemma IdsTail(rows: seq<Row>)
    requires rows != []
    ensures Ids(rows) == [rows[0].id] + Ids(rows[1..])
  {
  }

  /** One row that stays, and the run of deleted rows below it. */
  lemma WovenStep(prev: seq<Row>, have: set<string>, leaving: seq<Leaving>, j: nat, next: seq<Row>)
    requires Named(prev) && j < |prev| && leaving == Removed(prev, have, None) && prev[j].id in have
    requires next != [] && next[0].id == prev[j].id
    ensures var q := prev[j + 1..]; Woven(next, leaving, have) == [next[0]] + q[..Run(q, have)] + Woven(next[1..], leaving, have)
  {
    var q := prev[j + 1..];
    AfterInside(prev, have, None, j);
    NotInWhole(q[..Run(q, have)], have);
    hide Run, Removed, NotIn, After;
  }

  /** From any place on: the rows that stay, woven with what left, are the old rows from the first one that stays. */
  lemma {:induction false} WovenRestores(prev: seq<Row>, have: set<string>, leaving: seq<Leaving>, j: nat, next: seq<Row>)
    requires Named(prev) && j <= |prev| && leaving == Removed(prev, have, None)
    requires Ids(next) == Ids(Kept(prev[j..], have))
    ensures Ids(Woven(next, leaving, have)) == Ids(prev[j..][Run(prev[j..], have)..])
    decreases |prev| - j
  {
    var p := prev[j..];
    if j == |prev| {
      assert Ids(next) == [];
      assert |next| == 0;
    } else {
      var q := prev[j + 1..];
      assert p[1..] == q && p[0] == prev[j];
      if p[0].id !in have {
        assert Kept(p, have) == Kept(q, have);
        WovenRestores(prev, have, leaving, j + 1, next);
        assert p[Run(p, have)..] == q[Run(q, have)..];
      } else {
        KeptFirst(p, have, next);
        WovenRestores(prev, have, leaving, j + 1, next[1..]);
        WovenStep(prev, have, leaving, j, next);
        assert p[0..] == p && Run(p, have) == 0;
        hide Removed, Woven, Kept, Run;
        Joined(p, q, Run(q, have), next, Woven(next[1..], leaving, have));
      }
    }
  }

  lemma KeptFirst(p: seq<Row>, have: set<string>, next: seq<Row>)
    requires p != [] && p[0].id in have && Ids(next) == Ids(Kept(p, have))
    ensures next != [] && next[0].id == p[0].id && Ids(next[1..]) == Ids(Kept(p[1..], have))
  {
    KeptHead(p, have);
    hide Kept;
    SameTails(next, p[0], Kept(p[1..], have));
  }

  lemma KeptHead(p: seq<Row>, have: set<string>)
    requires p != [] && p[0].id in have
    ensures Ids(Kept(p, have)) == [p[0].id] + Ids(Kept(p[1..], have))
  {
    IdsTail(Kept(p, have));
  }

  lemma SameTails(next: seq<Row>, first: Row, rest: seq<Row>)
    requires Ids(next) == [first.id] + Ids(rest)
    ensures next != [] && next[0].id == first.id && Ids(next[1..]) == Ids(rest)
  {
    assert |Ids(next)| == |next|;
    IdsTail(next);
    hide Ids;
    assert ([next[0].id] + Ids(next[1..]))[1..] == Ids(next[1..]) && ([first.id] + Ids(rest))[1..] == Ids(rest);
    assert ([next[0].id] + Ids(next[1..]))[0] == ([first.id] + Ids(rest))[0];
  }

  lemma Joined(p: seq<Row>, q: seq<Row>, k: nat, next: seq<Row>, rest: seq<Row>)
    requires p != [] && q == p[1..] && k <= |q| && next != [] && next[0].id == p[0].id && Ids(rest) == Ids(q[k..])
    ensures Ids([next[0]] + q[..k] + rest) == Ids(p)
  {
    IdsSum([next[0]] + q[..k], rest);
    IdsSum([next[0]], q[..k]);
    IdsSum(q[..k], q[k..]);
    IdsTail(p);
    assert q == q[..k] + q[k..] && Ids([next[0]]) == [p[0].id];
    hide Ids;
    assert ([p[0].id] + Ids(q[..k])) + Ids(q[k..]) == [p[0].id] + (Ids(q[..k]) + Ids(q[k..]));
  }

  lemma {:induction false} NothingGone(prev: seq<Row>, have: set<string>)
    requires Gone(prev, have) == []
    ensures Removed(prev, have, None) == [] && Kept(prev, have) == prev
  {
    NothingRemoved(prev, have, None);
  }

  lemma {:induction false} NothingRemoved(prev: seq<Row>, have: set<string>, last: Option<string>)
    requires Gone(prev, have) == []
    ensures Removed(prev, have, last) == [] && Kept(prev, have) == prev
  {
    if prev != [] {
      assert prev[0].id in have;
      NothingRemoved(prev[1..], have, Some(prev[0].id));
    }
  }

  lemma {:induction false} GoneCounts(prev: seq<Row>, have: set<string>)
    ensures |Gone(prev, have)| + |Kept(prev, have)| == |prev|
    ensures forall r :: r in Gone(prev, have) <==> r in prev && r.id !in have
  {
    if prev != [] {
      GoneCounts(prev[1..], have);
      assert prev == [prev[0]] + prev[1..];
    }
  }

  /** When more than three rows are gone at once, or none, nothing is woven in. */
  lemma ManyGoneMoveNothing(prev: seq<Row>, next: seq<Row>)
    requires var gone := |prev| - |Kept(prev, IdSet(next))|; gone > 3 || gone == 0
    ensures RemovedInPlace(Some(prev), next) == []
  {
    GoneCounts(prev, IdSet(next));
  }

  lemma {:induction false} NotInIs(rows: seq<Row>, have: set<string>)
    ensures forall x :: x in NotIn(rows, have) <==> x in rows && x.id !in have
  {
    if rows != [] {
      NotInIs(rows[1..], have);
      assert rows == [rows[0]] + rows[1..];
    }
  }

  lemma {:induction false} AfterIs(leaving: seq<Leaving>, id: string)
    ensures forall x :: x in After(leaving, id) <==> exists g :: g in leaving && g.afterId == id && g.row == x
  {
    if leaving != [] {
      AfterIs(leaving[1..], id);
      assert leaving == [leaving[0]] + leaving[1..];
    }
  }

  lemma {:induction false} WovenIs(rows: seq<Row>, leaving: seq<Leaving>, have: set<string>)
    ensures forall x :: x in Woven(rows, leaving, have) <==>
      x in rows || (x.id !in have && exists g, r :: g in leaving && r in rows && r.id != "" && g.afterId == r.id && g.row == x)
  {
    if rows != [] {
      var t, add := rows[1..], if rows[0].id == "" then [] else NotIn(After(leaving, rows[0].id), have);
      WovenIs(t, leaving, have);
      NotInIs(After(leaving, rows[0].id), have);
      AfterIs(leaving, rows[0].id);
      assert rows == [rows[0]] + t && Woven(rows, leaving, have) == [rows[0]] + add + Woven(t, leaving, have);
      hide Woven, NotIn, After;
    }
  }

  /**
   * What is shown while rows leave: every row that is there, and of the rows that leave those whose neighbour above is
   * there and that have not come back meanwhile, so nothing is shown twice.
   */
  lemma WovenShows(rows: seq<Row>, leaving: seq<Leaving>)
    ensures forall x :: x in WithLeaving(rows, leaving) <==>
      x in rows || (x.id !in IdSet(rows) && exists g, r :: g in leaving && r in rows && r.id != "" && g.afterId == r.id && g.row == x)
  {
    WovenIs(rows, leaving, IdSet(rows));
    hide Woven, IdSet;
  }

  /**
   * Deleting at most three rows and weaving them back gives the old feed again, by id, but for deleted rows above the
   * first one that stays; rows that stay may have changed.
   */
  lemma RemovedRowsComeBack(prev: seq<Row>, next: seq<Row>)
    requires Named(prev) && next != [] && Ids(next) == Ids(Kept(prev, IdSet(next))) && |prev| <= |next| + 3
    ensures Ids(WithLeaving(next, RemovedInPlace(Some(prev), next))) == Ids(prev[Run(prev, IdSet(next))..])
  {
    var have := IdSet(next);
    assert prev[0..] == prev;
    GoneCounts(prev, have);
    assert |next| == |Ids(next)| == |Kept(prev, have)|;
    if Gone(prev, have) == [] { NothingGone(prev, have); }
    WovenRestores(prev, have, Removed(prev, have, None), 0, next);
  }
}
