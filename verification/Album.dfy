/** The layout of an album: all splits into rows, the best of them, and whole-pixel tiles that fill the grid exactly. */
module Album {
  const ROW_MAX: nat := 4
  const ROWS_MAX: nat := 4

  // ----- splits into rows -----

  function Sum(s: seq<nat>): nat {
    if s == [] then 0 else s[0] + Sum(s[1..])
  }

  /** `n` photos in `rows` rows of one to four each. */
  predicate Composition(s: seq<nat>, n: nat, rows: nat) {
    |s| == rows && Sum(s) == n && forall i | 0 <= i < |s| :: 1 <= s[i] <= ROW_MAX
  }

  function Prefixed(k: nat, ss: seq<seq<nat>>): seq<seq<nat>> {
    seq(|ss|, i requires 0 <= i < |ss| => [k] + ss[i])
  }

  function Splits(n: nat, rows: nat): seq<seq<nat>>
    requires rows >= 1
    decreases rows, 1, 0
  {
    if rows == 1 then (if 1 <= n <= ROW_MAX then [[n]] else []) else SplitsFrom(n, rows, 1)
  }

  /** Splits whose first row has `k` photos or more. */
  function SplitsFrom(n: nat, rows: nat, k: nat): seq<seq<nat>>
    requires rows >= 2
    decreases rows, 0, ROW_MAX + 1 - k
  {
    if k > ROW_MAX || k >= n then [] else Prefixed(k, Splits(n - k, rows - 1)) + SplitsFrom(n, rows, k + 1)
  }

  method SplitsOf(n: nat, rows: nat) returns (out: seq<seq<nat>>)
    requires rows >= 1
    ensures out == Splits(n, rows)
    decreases rows
  {
    hide Splits, SplitsFrom, Prefixed;
    if rows == 1 {
      SplitsOne(n);
      return if 1 <= n <= ROW_MAX then [[n]] else [];
    }
    SplitsFirst(n, rows);
    out := [];
    var k := 1;
    while k <= ROW_MAX && k < n
      invariant 1 <= k <= ROW_MAX + 1 && out + SplitsFrom(n, rows, k) == Splits(n, rows)
    {
      var rest := SplitsOf(n - k, rows - 1);
      SplitsStep(n, rows, k, out);
      out := out + Prefixed(k, rest);
      k := k + 1;
    }
    SplitsEnd(n, rows, k);
  }

  lemma SplitsOne(n: nat)
    ensures Splits(n, 1) == if 1 <= n <= ROW_MAX then [[n]] else []
  {
  }

  lemma SplitsFirst(n: nat, rows: nat)
    requires rows >= 2
    ensures [] + SplitsFrom(n, rows, 1) == Splits(n, rows)
  {
  }

  lemma SplitsStep(n: nat, rows: nat, k: nat, out: seq<seq<nat>>)
    requires rows >= 2 && k <= ROW_MAX && k < n
    ensures out + SplitsFrom(n, rows, k) == (out + Prefixed(k, Splits(n - k, rows - 1))) + SplitsFrom(n, rows, k + 1)
  {
    hide Prefixed, Splits;
    Regroup(out, Prefixed(k, Splits(n - k, rows - 1)), SplitsFrom(n, rows, k + 1));
  }

  lemma SplitsEnd(n: nat, rows: nat, k: nat)
    requires rows >= 2 && !(k <= ROW_MAX && k < n)
    ensures SplitsFrom(n, rows, k) == []
  {
  }

  lemma Regroup<T>(a: seq<T>, b: seq<T>, c: seq<T>)
    ensures a + (b + c) == (a + b) + c
  {
  }

  lemma PrefixedMembers(k: nat, ss: seq<seq<nat>>)
    ensures forall s :: s in Prefixed(k, ss) <==> s != [] && s[0] == k && s[1..] in ss
  {
    var r := Prefixed(k, ss);
    forall s ensures s in r <==> s != [] && s[0] == k && s[1..] in ss {
      if s in r {
        var i :| 0 <= i < |r| && r[i] == s;
        assert s[1..] == ss[i];
      }
      if s != [] && s[0] == k && s[1..] in ss {
        var i :| 0 <= i < |ss| && ss[i] == s[1..];
        assert r[i] == [k] + s[1..] == s;
      }
    }
  }

  lemma CompositionStep(s: seq<nat>, n: nat, rows: nat)
    requires rows >= 2
    ensures Composition(s, n, rows) <==>
      s != [] && 1 <= s[0] <= ROW_MAX && s[0] < n && Composition(s[1..], n - s[0], rows - 1)
  {
    if s != [] {
      var t := s[1..];
      assert Sum(s) == s[0] + Sum(t);
      assert forall i | 0 <= i < |t| :: t[i] == s[i + 1];
      if Composition(s, n, rows) {
        forall i | 0 <= i < |t| ensures 1 <= t[i] <= ROW_MAX {}
        assert t[0] >= 1;
      }
      if 1 <= s[0] <= ROW_MAX && s[0] < n && Composition(t, n - s[0], rows - 1) {
        forall i | 0 <= i < |s| ensures 1 <= s[i] <= ROW_MAX { if i > 0 { assert s[i] == t[i - 1]; } }
        assert Composition(s, n, rows);
      }
    }
  }

  /** The enumeration is sound and complete: it lists exactly the compositions. */
  lemma {:induction false} SplitsAreCompositions(n: nat, rows: nat)
    requires rows >= 1
    ensures forall s :: s in Splits(n, rows) <==> Composition(s, n, rows)
    decreases rows, 1, 0
  {
    if rows == 1 {
      forall s ensures s in Splits(n, rows) <==> Composition(s, n, rows) {
        if |s| == 1 { assert s == [s[0]] && s[1..] == []; assert Sum(s) == s[0]; }
      }
    } else {
      SplitsFromAre(n, rows, 1);
      forall s ensures s in Splits(n, rows) <==> Composition(s, n, rows) { CompositionStep(s, n, rows); }
    }
  }

  lemma {:induction false} SplitsFromAre(n: nat, rows: nat, k: nat)
    requires rows >= 2
    ensures forall s :: s in SplitsFrom(n, rows, k) <==>
      s != [] && k <= s[0] <= ROW_MAX && s[0] < n && Composition(s[1..], n - s[0], rows - 1)
    decreases rows, 0, ROW_MAX + 1 - k
  {
    if k <= ROW_MAX && k < n {
      SplitsAreCompositions(n - k, rows - 1);
      SplitsFromAre(n, rows, k + 1);
      PrefixedMembers(k, Splits(n - k, rows - 1));
      hide Composition;
    }
  }

  ghost predicate Distinct(ss: seq<seq<nat>>) {
    forall i, j | 0 <= i < j < |ss| :: ss[i] != ss[j]
  }

  lemma DistinctSum(a: seq<seq<nat>>, b: seq<seq<nat>>)
    requires Distinct(a) && Distinct(b) && forall s :: !(s in a && s in b)
    ensures Distinct(a + b)
  {
    var c := a + b;
    forall i, j | 0 <= i < j < |c| ensures c[i] != c[j] {
      if i < |a| <= j { assert c[i] in a && c[j] in b; }
    }
  }

  /** No split is listed twice. */
  lemma {:induction false} SplitsAreDistinct(n: nat, rows: nat)
    requires rows >= 1
    ensures Distinct(Splits(n, rows))
    decreases rows, 1, 0
  {
    if rows > 1 { SplitsFromDistinct(n, rows, 1); }
  }

  lemma {:induction false} SplitsFromDistinct(n: nat, rows: nat, k: nat)
    requires rows >= 2
    ensures Distinct(SplitsFrom(n, rows, k))
    decreases rows, 0, ROW_MAX + 1 - k
  {
    if k <= ROW_MAX && k < n {
      var ss := Splits(n - k, rows - 1);
      SplitsAreDistinct(n - k, rows - 1);
      var a := Prefixed(k, ss);
      forall i, j | 0 <= i < j < |a| ensures a[i] != a[j] { assert a[i][1..] == ss[i] && a[j][1..] == ss[j]; }
      SplitsFromDistinct(n, rows, k + 1);
      PrefixedMembers(k, ss);
      SplitsFromAre(n, rows, k + 1);
      DistinctSum(a, SplitsFrom(n, rows, k + 1));
    }
  }

  /** Splits into one to `rows` rows. */
  function AllSplits(n: nat, rows: nat): seq<seq<nat>> {
    if rows == 0 then [] else AllSplits(n, rows - 1) + Splits(n, rows)
  }

  lemma {:induction false} AllSplitsAre(n: nat, rows: nat)
    ensures forall s :: s in AllSplits(n, rows) <==> 1 <= |s| <= rows && Composition(s, n, |s|)
    ensures Distinct(AllSplits(n, rows))
  {
    if rows > 0 {
      AllSplitsAre(n, rows - 1);
      SplitsAreCompositions(n, rows);
      SplitsAreDistinct(n, rows);
      forall s ensures !(s in AllSplits(n, rows - 1) && s in Splits(n, rows)) {}
      DistinctSum(AllSplits(n, rows - 1), Splits(n, rows));
    }
  }

  /** Rows of four, the last one shorter: the way out when there are more photos than four rows hold. */
  function Fours(n: nat): seq<nat> {
    if n == 0 then [] else if n <= ROW_MAX then [n] else [ROW_MAX] + Fours(n - ROW_MAX)
  }

  lemma {:induction false} FoursCompose(n: nat)
    ensures Composition(Fours(n), n, |Fours(n)|) && |Fours(n)| == (n + ROW_MAX - 1) / ROW_MAX
  {
    if n > ROW_MAX {
      FoursCompose(n - ROW_MAX);
      var t := Fours(n - ROW_MAX);
      assert Fours(n)[1..] == t;
    } else if n > 0 {
      assert Fours(n)[1..] == [];
    }
  }

  lemma {:induction false} AtMostFourEach(s: seq<nat>)
    requires forall i | 0 <= i < |s| :: s[i] <= ROW_MAX
    ensures Sum(s) <= ROW_MAX * |s|
  {
    if s != [] { AtMostFourEach(s[1..]); }
  }

  /** There is a split into at most four rows exactly for one to sixteen photos. */
  lemma SomeSplitIff(n: nat)
    ensures AllSplits(n, ROWS_MAX) != [] <==> 1 <= n <= 16
  {
    AllSplitsAre(n, ROWS_MAX);
    FoursCompose(n);
    if AllSplits(n, ROWS_MAX) != [] {
      var s := AllSplits(n, ROWS_MAX)[0];
      assert s in AllSplits(n, ROWS_MAX);
      AtMostFourEach(s);
      assert s[0] >= 1;
    }
    if 1 <= n <= 16 { assert Fours(n) in AllSplits(n, ROWS_MAX); }
  }

  function Candidates(n: nat): seq<seq<nat>> {
    var all := AllSplits(n, ROWS_MAX);
    if all == [] then [Fours(n)] else all
  }

  lemma CandidatesCompose(n: nat)
    requires n >= 1
    ensures Candidates(n) != [] && forall s | s in Candidates(n) :: s != [] && Composition(s, n, |s|)
  {
    AllSplitsAre(n, ROWS_MAX);
    FoursCompose(n);
  }

  /** For up to sixteen photos every split into one to four rows of one to four is tried, and nothing else; beyond, rows of four. */
  lemma CandidatesAre(n: nat)
    requires n >= 1
    ensures n <= 16 ==> forall s :: s in Candidates(n) <==> 1 <= |s| <= 4 && Composition(s, n, |s|)
    ensures n > 16 ==> Candidates(n) == [Fours(n)]
  {
    AllSplitsAre(n, ROWS_MAX);
    SomeSplitIff(n);
  }

  // ----- proportions and scores -----

  function LeastOf(a: real, b: real): real { if a < b then a else b }

  function MostOf(a: real, b: real): real { if a > b then a else b }

  function Proper(r: real): real { if r > 0.0 then r else 1.0 }

  function SumFrom(rs: seq<real>, start: real): real {
    if rs == [] then start else SumFrom(rs[..|rs| - 1], start) + rs[|rs| - 1]
  }

  /** The sum of `k` values from place `at`. */
  function Part(rs: seq<real>, at: nat, k: nat): real
    requires at + k <= |rs|
    decreases k
  {
    if k == 0 then 0.0 else rs[at] + Part(rs, at + 1, k - 1)
  }

  function Clamped(ratios: seq<real>): (rs: seq<real>)
    requires ratios != []
    ensures |rs| == |ratios| && forall i | 0 <= i < |rs| :: 2.0 / 3.0 <= rs[i] <= 2.75
  {
    var proper := seq(|ratios|, i requires 0 <= i < |ratios| => Proper(ratios[i]));
    var avg := SumFrom(proper, 1.0) / (|ratios| as real);
    seq(|ratios|, i requires 0 <= i < |ratios| =>
      if avg > 1.1 then LeastOf(MostOf(proper[i], 1.0), 2.75) else LeastOf(MostOf(proper[i], 2.0 / 3.0), 1.0))
  }

  ghost predicate Positive(rs: seq<real>) {
    forall i | 0 <= i < |rs| :: rs[i] > 0.0
  }

  /** The split's rows cover the photos from place `at` to the end. */
  predicate Covers(rs: seq<real>, split: seq<nat>, at: nat) {
    at + Sum(split) == |rs| && forall i | 0 <= i < |split| :: split[i] >= 1
  }

  lemma {:induction false} PartPositive(rs: seq<real>, at: nat, k: nat)
    requires Positive(rs) && at + k <= |rs|
    ensures Part(rs, at, k) >= 0.0 && (k > 0 ==> Part(rs, at, k) > 0.0)
    decreases k
  {
    if k > 0 { PartPositive(rs, at + 1, k - 1); }
  }

  /** The height of each row that makes it exactly as wide as the grid. */
  function Heights(rs: seq<real>, split: seq<nat>, at: nat, maxW: real): (hs: seq<real>)
    requires Positive(rs) && Covers(rs, split, at) && maxW > 0.0
    ensures |hs| == |split| && Positive(hs)
  {
    if split == [] then []
    else
      PartPositive(rs, at, split[0]);
      [maxW / Part(rs, at, split[0])] + Heights(rs, split[1..], at + split[0], maxW)
  }

  function Total(hs: seq<real>): real {
    if hs == [] then 0.0 else hs[0] + Total(hs[1..])
  }

  /** The narrowest tile of a row. */
  function Narrowest(rs: seq<real>, at: nat, k: nat, sum: real, maxW: real, best: real): real
    requires at + k <= |rs| && sum > 0.0
    decreases k
  {
    if k == 0 then best else Narrowest(rs, at + 1, k - 1, sum, maxW, LeastOf(best, rs[at] / sum * maxW))
  }

  /** The smallest side of any tile. */
  function Smallest(rs: seq<real>, split: seq<nat>, at: nat, maxW: real): real
    requires Positive(rs) && Covers(rs, split, at) && maxW > 0.0 && split != []
  {
    PartPositive(rs, at, split[0]);
    var sum := Part(rs, at, split[0]);
    var row := Narrowest(rs, at, split[0], sum, maxW, maxW / sum);
    if |split| == 1 then row else LeastOf(row, Smallest(rs, split[1..], at + split[0], maxW))
  }

  /** The width of the last tile. */
  function LastWidth(rs: seq<real>, split: seq<nat>, at: nat, maxW: real): real
    requires Positive(rs) && Covers(rs, split, at) && maxW > 0.0 && split != []
  {
    PartPositive(rs, at, split[0]);
    if |split| == 1 then rs[|rs| - 1] / Part(rs, at, split[0]) * maxW else LastWidth(rs, split[1..], at + split[0], maxW)
  }

  predicate Shrinks(split: seq<nat>) {
    exists i | 0 < i < |split| :: split[i - 1] > split[i]
  }

  function Abs(x: real): real { if x < 0.0 then -x else x }

  /** Lower is better: large smallest tile, height near the limit, room for the time on the last tile. */
  function Score(rs: seq<real>, split: seq<nat>, maxW: real, maxH: real, minTile: real): real
    requires Positive(rs) && Covers(rs, split, 0) && split != [] && maxW > 0.0 && maxH > 0.0
  {
    var total := Total(Heights(rs, split, 0, maxW));
    TotalPositive(Heights(rs, split, 0, maxW));
    var fit := LeastOf(1.0, maxH / total);
    -Times(Times(Smallest(rs, split, 0, maxW), fit), if Shrinks(split) then 0.9 else 1.0)
    + (10.0 * Abs(Times(total, fit) - maxH)) / maxH
    + (if Times(LastWidth(rs, split, 0, maxW), fit) >= minTile then 0.0 else 1000.0)
  }

  lemma {:induction false} TotalPositive(hs: seq<real>)
    requires Positive(hs)
    ensures Total(hs) >= 0.0 && (hs != [] ==> Total(hs) > 0.0)
  {
    if hs != [] { TotalPositive(hs[1..]); }
  }

  // ----- what the parts of a score mean -----

  lemma {:induction false} SumFromIs(rs: seq<real>, start: real)
    ensures SumFrom(rs, start) == start + Part(rs, 0, |rs|)
  {
    if rs == [] {
    } else {
      var t := rs[..|rs| - 1];
      SumFromIs(t, start);
      PartOfPrefix(rs, t, 0, |t|);
      PartEnd(rs, 0, |t|);
    }
  }

  lemma {:induction false} PartOfPrefix(rs: seq<real>, t: seq<real>, at: nat, k: nat)
    requires |rs| > 0 && t == rs[..|rs| - 1] && at + k <= |t|
    ensures Part(rs, at, k) == Part(t, at, k)
    decreases k
  {
    if k > 0 { PartOfPrefix(rs, t, at + 1, k - 1); }
  }

  lemma {:induction false} PartEnd(rs: seq<real>, at: nat, k: nat)
    requires at + k < |rs|
    ensures Part(rs, at, k + 1) == Part(rs, at, k) + rs[at + k]
    decreases k
  {
    if k > 0 { PartEnd(rs, at + 1, k - 1); }
  }

  /**
   * A ratio is used as it is inside the range, and the nearer end of it outside: 1 to 2.75 for an album of mostly wide
   * photos, two thirds to 1 for any other; a ratio that is not positive counts as 1.
   */
  lemma ClampedIs(ratios: seq<real>, i: nat)
    requires i < |ratios|
    ensures var proper := seq(|ratios|, j requires 0 <= j < |ratios| => if ratios[j] > 0.0 then ratios[j] else 1.0);
      var wide := 1.0 + Part(proper, 0, |ratios|) > 1.1 * (|ratios| as real);
      var low, high := if wide then 1.0 else 2.0 / 3.0, if wide then 2.75 else 1.0;
      Clamped(ratios)[i] == if proper[i] < low then low else if proper[i] > high then high else proper[i]
  {
    var proper := seq(|ratios|, j requires 0 <= j < |ratios| => Proper(ratios[j]));
    assert proper == seq(|ratios|, j requires 0 <= j < |ratios| => if ratios[j] > 0.0 then ratios[j] else 1.0);
    hide Part, SumFrom;
    SumFromIs(proper, 1.0);
    Exceeds(SumFrom(proper, 1.0), 1.1, |ratios| as real);
    ClampedBy(ratios, proper, i);
    hide Clamped, Proper;
  }

  lemma ClampedBy(ratios: seq<real>, proper: seq<real>, i: nat)
    requires i < |ratios| && proper == seq(|ratios|, j requires 0 <= j < |ratios| => Proper(ratios[j]))
    ensures var wide := SumFrom(proper, 1.0) / (|ratios| as real) > 1.1;
      var low, high := if wide then 1.0 else 2.0 / 3.0, if wide then 2.75 else 1.0;
      Clamped(ratios)[i] == if proper[i] < low then low else if proper[i] > high then high else proper[i]
  {
    hide SumFrom;
  }

  lemma Exceeds(a: real, b: real, n: real)
    requires n > 0.0
    ensures a / n > b <==> a > b * n
  {
    var q := a / n;
    assert q * n == a;
    if q > b { assert (q - b) * n > 0.0; } else { assert (b - q) * n >= 0.0; }
  }

  /** A row as high as this is exactly as wide as the grid. */
  lemma {:induction false} RowsFillWidth(rs: seq<real>, split: seq<nat>, at: nat, maxW: real, j: nat)
    requires Positive(rs) && Covers(rs, split, at) && maxW > 0.0 && j < |split|
    ensures at + Sum(split[..j]) + split[j] <= |rs|
    ensures Times(Heights(rs, split, at, maxW)[j], Part(rs, at + Sum(split[..j]), split[j])) == maxW
  {
    PartPositive(rs, at, split[0]);
    if j == 0 {
      assert split[..0] == [];
      Quotients(maxW, Part(rs, at, split[0]));
      hide Times, Part;
    } else {
      hide Times, Part;
      RowsFillWidth(rs, split[1..], at + split[0], maxW, j - 1);
      assert split[..j] == [split[0]] + split[1..][..j - 1];
    }
  }

  lemma Quotients(a: real, b: real)
    requires b > 0.0
    ensures Times(a / b, b) == a
  {
  }

  /** The least of a list of at least one. */
  ghost predicate LeastIn(x: real, values: set<real>) {
    x in values && forall y | y in values :: x <= y
  }

  ghost function Scaled(r: real, sum: real, maxW: real): real
    requires sum > 0.0
  {
    r / sum * maxW
  }

  /** Widths of the first `k` tiles of a row, scaled to the grid. */
  ghost function Widths(rs: seq<real>, at: nat, k: nat, sum: real, maxW: real): set<real>
    requires at + k <= |rs| && sum > 0.0
  {
    set i | at <= i < at + k :: Scaled(rs[i], sum, maxW)
  }

  lemma WidthsNext(rs: seq<real>, at: nat, k: nat, sum: real, maxW: real)
    requires 0 < k && at + k <= |rs| && sum > 0.0
    ensures Widths(rs, at, k, sum, maxW) == {Scaled(rs[at], sum, maxW)} + Widths(rs, at + 1, k - 1, sum, maxW)
  {
    hide Scaled;
  }

  lemma LeastOfBoth(x: real, a: real, b: real, rest: set<real>)
    requires LeastIn(x, {LeastOf(a, b)} + rest)
    ensures LeastIn(x, {a, b} + rest)
  {
  }

  lemma {:induction false} NarrowestIs(rs: seq<real>, at: nat, k: nat, sum: real, maxW: real, best: real)
    requires at + k <= |rs| && sum > 0.0
    ensures LeastIn(Narrowest(rs, at, k, sum, maxW, best), {best} + Widths(rs, at, k, sum, maxW))
    decreases k
  {
    if k > 0 {
      var w := Scaled(rs[at], sum, maxW);
      assert Narrowest(rs, at, k, sum, maxW, best) == Narrowest(rs, at + 1, k - 1, sum, maxW, LeastOf(best, w));
      hide Narrowest, Scaled;
      NarrowestIs(rs, at + 1, k - 1, sum, maxW, LeastOf(best, w));
      WidthsNext(rs, at, k, sum, maxW);
      hide Widths;
      LeastOfBoth(Narrowest(rs, at, k, sum, maxW, best), best, w, Widths(rs, at + 1, k - 1, sum, maxW));
      assert {best} + ({w} + Widths(rs, at + 1, k - 1, sum, maxW)) == {best, w} + Widths(rs, at + 1, k - 1, sum, maxW);
      hide LeastIn;
    }
  }

  /** All sides of all tiles: of each row its height and the widths of its tiles. */
  ghost function Sides(rs: seq<real>, split: seq<nat>, at: nat, maxW: real): set<real>
    requires Positive(rs) && Covers(rs, split, at) && maxW > 0.0
  {
    if split == [] then {}
    else
      PartPositive(rs, at, split[0]);
      var sum := Part(rs, at, split[0]);
      {maxW / sum} + Widths(rs, at, split[0], sum, maxW) + Sides(rs, split[1..], at + split[0], maxW)
  }

  /** The smallest side of any tile is just that. */
  lemma {:induction false} SmallestIs(rs: seq<real>, split: seq<nat>, at: nat, maxW: real)
    requires Positive(rs) && Covers(rs, split, at) && maxW > 0.0 && split != []
    ensures LeastIn(Smallest(rs, split, at, maxW), Sides(rs, split, at, maxW))
  {
    PartPositive(rs, at, split[0]);
    var sum := Part(rs, at, split[0]);
    NarrowestIs(rs, at, split[0], sum, maxW, maxW / sum);
    if |split| == 1 {
      assert split[1..] == [];
    } else {
      SmallestIs(rs, split[1..], at + split[0], maxW);
    }
    hide Narrowest, Widths, Part;
  }

  /** The last tile is as wide as its share of the last row. */
  lemma {:induction false} LastWidthIs(rs: seq<real>, split: seq<nat>, at: nat, maxW: real)
    requires Positive(rs) && Covers(rs, split, at) && maxW > 0.0 && split != []
    ensures 1 <= split[|split| - 1] <= |rs|
    ensures Times(LastWidth(rs, split, at, maxW), Part(rs, |rs| - split[|split| - 1], split[|split| - 1])) == Times(rs[|rs| - 1], maxW)
  {
    PartPositive(rs, at, split[0]);
    hide Times;
    if |split| == 1 {
      assert split == [split[0]] && Sum(split[1..]) == 0;
      Shares(rs[|rs| - 1], Part(rs, at, split[0]), maxW);
    } else {
      LastWidthIs(rs, split[1..], at + split[0], maxW);
    }
  }

  lemma Shares(a: real, b: real, c: real)
    requires b > 0.0
    ensures Times(a / b * c, b) == Times(a, c)
  {
    var q := a / b;
    assert q * b == a;
    assert q * c * b == (q * b) * c;
  }

  /** How far the whole is shrunk to the limit. */
  ghost function Fit(rs: seq<real>, split: seq<nat>, maxW: real, maxH: real): (f: real)
    requires Positive(rs) && Covers(rs, split, 0) && split != [] && maxW > 0.0 && maxH > 0.0
    ensures 0.0 < f <= 1.0
  {
    TotalPositive(Heights(rs, split, 0, maxW));
    LeastOf(1.0, maxH / Total(Heights(rs, split, 0, maxW)))
  }

  /** The limits of a layout: the grid, its lowest tile, and what the photos are. */
  ghost predicate Scored(rs: seq<real>, split: seq<nat>, maxW: real, maxH: real) {
    Positive(rs) && Covers(rs, split, 0) && split != [] && maxW > 0.0 && maxH > 0.0
  }

  ghost function TotalOf(rs: seq<real>, split: seq<nat>, maxW: real): real
    requires Positive(rs) && Covers(rs, split, 0) && maxW > 0.0
  {
    Total(Heights(rs, split, 0, maxW))
  }

  /** There is room for the time on the last tile. */
  ghost predicate RoomForTime(rs: seq<real>, split: seq<nat>, maxW: real, maxH: real, minTile: real)
    requires Scored(rs, split, maxW, maxH)
  {
    Times(LastWidth(rs, split, 0, maxW), Fit(rs, split, maxW, maxH)) >= minTile
  }

  /** The score in terms of what it weighs. */
  lemma ScoreParts(rs: seq<real>, split: seq<nat>, maxW: real, maxH: real, minTile: real)
    requires Scored(rs, split, maxW, maxH)
    ensures var total, f := TotalOf(rs, split, maxW), Fit(rs, split, maxW, maxH);
      Score(rs, split, maxW, maxH, minTile) ==
        -Times(Times(Smallest(rs, split, 0, maxW), f), if Shrinks(split) then 0.9 else 1.0) + (10.0 * Abs(Times(total, f) - maxH)) / maxH +
        (if RoomForTime(rs, split, maxW, maxH, minTile) then 0.0 else 1000.0)
    ensures TotalOf(rs, split, maxW) > 0.0
    ensures Fit(rs, split, maxW, maxH) == LeastOf(1.0, maxH / TotalOf(rs, split, maxW))
  {
    TotalPositive(Heights(rs, split, 0, maxW));
    hide Smallest, Heights, Total, LastWidth, Times, Shrinks, Abs;
  }

  /** Other things being equal, the split with the larger smallest tile has the lower score. */
  lemma LargerTilesWin(rs: seq<real>, a: seq<nat>, b: seq<nat>, maxW: real, maxH: real, minTile: real)
    requires Scored(rs, a, maxW, maxH) && Scored(rs, b, maxW, maxH) && TotalOf(rs, a, maxW) == TotalOf(rs, b, maxW)
    requires (Shrinks(a) <==> Shrinks(b)) && (RoomForTime(rs, a, maxW, maxH, minTile) <==> RoomForTime(rs, b, maxW, maxH, minTile))
    requires Smallest(rs, a, 0, maxW) > Smallest(rs, b, 0, maxW)
    ensures Score(rs, a, maxW, maxH, minTile) < Score(rs, b, maxW, maxH, minTile)
  {
    ScoreParts(rs, a, maxW, maxH, minTile);
    ScoreParts(rs, b, maxW, maxH, minTile);
    var f, k := Fit(rs, a, maxW, maxH), if Shrinks(a) then 0.9 else 1.0;
    Grows(Smallest(rs, b, 0, maxW), Smallest(rs, a, 0, maxW), f);
    Grows(Times(Smallest(rs, b, 0, maxW), f), Times(Smallest(rs, a, 0, maxW), f), k);
    hide Score, Smallest, TotalOf, Covers, Positive, Times, Fit, RoomForTime, Abs;
  }

  lemma Grows(x: real, y: real, k: real)
    requires x < y && k > 0.0
    ensures Times(x, k) < Times(y, k) && Times(k, x) < Times(k, y)
  {
    assert (y - x) * k > 0.0;
  }

  /** Other things being equal, rows that hold fewer photos than the row before cost a tenth of the smallest tile. */
  lemma ShrinkingRowsLose(rs: seq<real>, a: seq<nat>, b: seq<nat>, maxW: real, maxH: real, minTile: real)
    requires Scored(rs, a, maxW, maxH) && Scored(rs, b, maxW, maxH) && TotalOf(rs, a, maxW) == TotalOf(rs, b, maxW)
    requires (forall i | 0 < i < |a| :: a[i - 1] <= a[i]) && (exists i | 0 < i < |b| :: b[i - 1] > b[i])
    requires (RoomForTime(rs, a, maxW, maxH, minTile) <==> RoomForTime(rs, b, maxW, maxH, minTile))
    requires Smallest(rs, a, 0, maxW) == Smallest(rs, b, 0, maxW) > 0.0
    ensures Score(rs, a, maxW, maxH, minTile) < Score(rs, b, maxW, maxH, minTile)
  {
    hide Score, Smallest, TotalOf, Covers, Positive, Times, Fit, RoomForTime, Abs, LeastOf;
    ShrinksIs(a);
    ShrinksIs(b);
    hide Shrinks;
    ScoreParts(rs, a, maxW, maxH, minTile);
    ScoreParts(rs, b, maxW, maxH, minTile);
    var x, f := Smallest(rs, a, 0, maxW), Fit(rs, a, maxW, maxH);
    Above(x, f);
    Grows(0.9, 1.0, Times(x, f));
  }

  lemma ShrinksIs(s: seq<nat>)
    ensures Shrinks(s) <==> exists i | 0 < i < |s| :: s[i - 1] > s[i]
  {
  }

  lemma Above(x: real, f: real)
    requires x > 0.0 && f > 0.0
    ensures Times(x, f) > 0.0
  {
  }

  /** Other things being equal, no room for the time on the last tile costs a thousand. */
  lemma NoRoomCosts(rs: seq<real>, a: seq<nat>, b: seq<nat>, maxW: real, maxH: real, minTile: real)
    requires Scored(rs, a, maxW, maxH) && Scored(rs, b, maxW, maxH) && TotalOf(rs, a, maxW) == TotalOf(rs, b, maxW)
    requires (Shrinks(a) <==> Shrinks(b)) && Smallest(rs, a, 0, maxW) == Smallest(rs, b, 0, maxW)
    requires RoomForTime(rs, a, maxW, maxH, minTile) && !RoomForTime(rs, b, maxW, maxH, minTile)
    ensures Score(rs, b, maxW, maxH, minTile) == Score(rs, a, maxW, maxH, minTile) + 1000.0
  {
    ScoreParts(rs, a, maxW, maxH, minTile);
    ScoreParts(rs, b, maxW, maxH, minTile);
    hide Score, Smallest, TotalOf, Covers, Positive, Times, Fit, RoomForTime, Abs;
  }

  /** Other things being equal, of two layouts that need no shrinking the higher one has the lower score. */
  lemma FullerGridWins(rs: seq<real>, a: seq<nat>, b: seq<nat>, maxW: real, maxH: real, minTile: real)
    requires Scored(rs, a, maxW, maxH) && Scored(rs, b, maxW, maxH) && TotalOf(rs, b, maxW) < TotalOf(rs, a, maxW) <= maxH
    requires (Shrinks(a) <==> Shrinks(b)) && (RoomForTime(rs, a, maxW, maxH, minTile) <==> RoomForTime(rs, b, maxW, maxH, minTile))
    requires Smallest(rs, a, 0, maxW) == Smallest(rs, b, 0, maxW)
    ensures Score(rs, a, maxW, maxH, minTile) < Score(rs, b, maxW, maxH, minTile)
  {
    ScoreParts(rs, a, maxW, maxH, minTile);
    ScoreParts(rs, b, maxW, maxH, minTile);
    var x, y := TotalOf(rs, a, maxW), TotalOf(rs, b, maxW);
    NoShrinking(x, maxH);
    NoShrinking(y, maxH);
    Nearer(maxH - x, maxH - y, maxH);
    hide Score, Smallest, TotalOf, Covers, Positive, Times, Fit, RoomForTime, LeastOf;
  }

  lemma NoShrinking(total: real, maxH: real)
    requires 0.0 < total <= maxH
    ensures LeastOf(1.0, maxH / total) == 1.0 && Times(total, 1.0) == total
  {
    var q := maxH / total;
    assert q * total == maxH;
    NotNegative(q - 1.0, total);
    assert (q - 1.0) * total == maxH - total;
  }

  lemma NotNegative(a: real, s: real)
    requires s > 0.0
    ensures a * s >= 0.0 <==> a >= 0.0
  {
  }

  lemma Nearer(a: real, b: real, h: real)
    requires 0.0 <= a < b && h > 0.0
    ensures (10.0 * a) / h < (10.0 * b) / h
  {
    var x, y := (10.0 * a) / h, (10.0 * b) / h;
    assert x * h == 10.0 * a && y * h == 10.0 * b;
    assert (y - x) * h > 0.0;
  }

  /** The first of the best splits. */
  method BestSplit(rs: seq<real>, splits: seq<seq<nat>>, maxW: real, maxH: real, minTile: real) returns (best: seq<nat>)
    requires Positive(rs) && maxW > 0.0 && maxH > 0.0 && splits != []
    requires forall s | s in splits :: s != [] && Covers(rs, s, 0)
    ensures best in splits
    ensures forall s | s in splits :: Score(rs, best, maxW, maxH, minTile) <= Score(rs, s, maxW, maxH, minTile)
  {
    hide Score, Covers;
    assert splits[0] in splits;
    best := splits[0];
    var bestScore := Score(rs, best, maxW, maxH, minTile);
    var i := 1;
    while i < |splits|
      invariant 1 <= i <= |splits| && best in splits && bestScore == Score(rs, best, maxW, maxH, minTile)
      invariant forall j | 0 <= j < i :: splits[j] in splits && bestScore <= Score(rs, splits[j], maxW, maxH, minTile)
    {
      assert splits[i] in splits;
      var score := Score(rs, splits[i], maxW, maxH, minTile);
      if score < bestScore { best, bestScore := splits[i], score; }
      i := i + 1;
    }
  }

  // ----- tiles -----

  function Times(a: real, b: real): real { a * b }

  lemma TimesSum(a: real, b: real, k: real)
    ensures Times(a + b, k) == Times(a, k) + Times(b, k)
  {
  }

  lemma TimesPositive(a: real, k: real)
    requires a >= 0.0 && k >= 0.0
    ensures Times(a, k) >= 0.0
  {
  }

  /** Rounds a half up. */
  function Round(r: real): int { (r + 0.5).Floor }

  lemma RoundGrows(a: real, b: real)
    requires a <= b
    ensures Round(a) <= Round(b)
  {
  }

  lemma RoundWhole(n: int)
    ensures Round(n as real) == n
  {
  }

  /** To the nearest whole number, a half upwards. */
  lemma RoundIsNearest(r: real)
    ensures Round(r) as real - 0.5 <= r < Round(r) as real + 0.5
  {
  }

  datatype Tile = Tile(x: int, y: int, w: int, h: int)

  datatype Edges = Edges(top: bool, right: bool, bottom: bool, left: bool)

  datatype Grid = Grid(width: int, height: int, tiles: seq<Tile>, edges: seq<Edges>)

  /** The share of a photo in its row. */
  function Wide(r: real, sum: real, width: int): real
    requires sum > 0.0
  {
    r / sum * (width as real)
  }

  lemma WideSum(a: real, b: real, sum: real, width: int)
    requires sum > 0.0
    ensures Wide(a, sum, width) + Wide(b, sum, width) == Wide(a + b, sum, width)
  {
  }

  lemma WideWhole(sum: real, width: int)
    requires sum > 0.0
    ensures Wide(sum, sum, width) == width as real
  {
  }

  lemma WidePositive(r: real, sum: real, width: int)
    requires sum > 0.0 && r >= 0.0 && width >= 0
    ensures Wide(r, sum, width) >= 0.0
  {
    assert r / sum >= 0.0;
  }

  function RowTiles(rs: seq<real>, at: nat, k: nat, x: real, sum: real, width: int, y: int, h: int): (r: seq<Tile>)
    requires at + k <= |rs| && sum > 0.0
    ensures |r| == k
    decreases k
  {
    if k == 0 then []
    else
      var next := x + Wide(rs[at], sum, width);
      [Tile(Round(x), y, Round(next) - Round(x), h)] + RowTiles(rs, at + 1, k - 1, next, sum, width, y, h)
  }

  function Rows(rs: seq<real>, split: seq<nat>, hs: seq<real>, at: nat, y: real, k: real, width: int): (r: seq<Tile>)
    requires Positive(rs) && Covers(rs, split, at) && |hs| == |split|
    ensures |r| == |rs| - at
  {
    if split == [] then []
    else
      PartPositive(rs, at, split[0]);
      var next := y + Times(hs[0], k);
      RowTiles(rs, at, split[0], 0.0, Part(rs, at, split[0]), width, Round(y), Round(next) - Round(y))
      + Rows(rs, split[1..], hs[1..], at + split[0], next, k, width)
  }

  predicate Inside(t: Tile, px: int, py: int) {
    t.x <= px < t.x + t.w && t.y <= py < t.y + t.h
  }

  /** How many tiles contain a pixel. */
  function Count(tiles: seq<Tile>, px: int, py: int): nat {
    if tiles == [] then 0 else (if Inside(tiles[0], px, py) then 1 else 0) + Count(tiles[1..], px, py)
  }

  lemma {:induction false} CountSum(a: seq<Tile>, b: seq<Tile>, px: int, py: int)
    ensures Count(a + b, px, py) == Count(a, px, py) + Count(b, px, py)
  {
    if a == [] {
      assert a + b == b;
    } else {
      assert (a + b)[1..] == a[1..] + b;
      CountSum(a[1..], b, px, py);
    }
  }

  /** The tiles of a row cover exactly the pixels between its first and its last edge, each once. */
  lemma {:induction false} RowTilesOnce(rs: seq<real>, at: nat, k: nat, x: real, sum: real, width: int, y: int, h: int, px: int, py: int)
    requires Positive(rs) && at + k <= |rs| && sum > 0.0 && width >= 0
    ensures Count(RowTiles(rs, at, k, x, sum, width, y, h), px, py) ==
      if y <= py < y + h && Round(x) <= px < Round(x + Wide(Part(rs, at, k), sum, width)) then 1 else 0
    ensures Round(x) <= Round(x + Wide(Part(rs, at, k), sum, width))
    decreases k
  {
    if k == 0 {
      assert Wide(0.0, sum, width) == 0.0;
    } else {
      hide Wide, Round;
      var next := x + Wide(rs[at], sum, width);
      RowTilesOnce(rs, at + 1, k - 1, next, sum, width, y, h, px, py);
      WidePositive(rs[at], sum, width);
      WideSum(rs[at], Part(rs, at + 1, k - 1), sum, width);
      assert next + Wide(Part(rs, at + 1, k - 1), sum, width) == x + Wide(Part(rs, at, k), sum, width);
      RoundGrows(x, next);
      var t := RowTiles(rs, at, k, x, sum, width, y, h);
      assert t[1..] == RowTiles(rs, at + 1, k - 1, next, sum, width, y, h);
    }
  }

  /** A full row covers the whole width between its top and its bottom. */
  lemma FullRowOnce(rs: seq<real>, at: nat, k: nat, width: int, top: int, bottom: int, px: int, py: int)
    requires Positive(rs) && at + k <= |rs| && k > 0 && width >= 0 && Part(rs, at, k) > 0.0
    ensures Count(RowTiles(rs, at, k, 0.0, Part(rs, at, k), width, top, bottom - top), px, py) ==
      if top <= py < bottom && 0 <= px < width then 1 else 0
  {
    var sum := Part(rs, at, k);
    RowTilesOnce(rs, at, k, 0.0, sum, width, top, bottom - top, px, py);
    WideWhole(sum, width);
    RoundWhole(width);
    RoundWhole(0);
    hide Round, Wide, RowTiles;
    assert 0.0 + Wide(sum, sum, width) == width as real;
  }

  lemma TotalStep(hs: seq<real>, y: real, k: real)
    requires Positive(hs) && hs != [] && k >= 0.0
    ensures y + Times(Total(hs), k) == (y + Times(hs[0], k)) + Times(Total(hs[1..]), k)
    ensures Round(y) <= Round(y + Times(hs[0], k)) && Times(Total(hs[1..]), k) >= 0.0
  {
    TotalPositive(hs[1..]);
    TimesSum(hs[0], Total(hs[1..]), k);
    TimesPositive(hs[0], k);
    TimesPositive(Total(hs[1..]), k);
    hide Times;
    RoundGrows(y, y + Times(hs[0], k));
  }

  lemma NoTotal(k: real)
    ensures Times(Total([]), k) == 0.0
  {
  }

  /** All rows together cover exactly the pixels of the grid from height `y` on, each once. */
  lemma {:induction false} RowsOnce(rs: seq<real>, split: seq<nat>, hs: seq<real>, at: nat, y: real, k: real, width: int, px: int, py: int)
    requires Positive(rs) && Covers(rs, split, at) && |hs| == |split| && Positive(hs) && k >= 0.0 && width >= 0
    ensures Count(Rows(rs, split, hs, at, y, k, width), px, py) ==
      if 0 <= px < width && Round(y) <= py < Round(y + Times(Total(hs), k)) then 1 else 0
    ensures Round(y) <= Round(y + Times(Total(hs), k))
    decreases |split|
  {
    hide Times, Round, Total, Count, RowTiles, Part, Rows, Covers;
    if split == [] {
      assert hs == [];
      RowsEnd(rs, split, hs, at, y, k, width);
      NothingCounted(px, py);
      NoTotal(k);
    } else {
      var next := y + Times(hs[0], k);
      RowsStep(rs, split, hs, at, y, k, width);
      SplitHasRows(rs, split, at);
      TotalStep(hs, y, k);
      FullRowOnce(rs, at, split[0], width, Round(y), Round(next), px, py);
      RowsOnce(rs, split[1..], hs[1..], at + split[0], next, k, width, px, py);
      CountSum(RowTiles(rs, at, split[0], 0.0, Part(rs, at, split[0]), width, Round(y), Round(next) - Round(y)),
               Rows(rs, split[1..], hs[1..], at + split[0], next, k, width), px, py);
    }
  }

  lemma NothingCounted(px: int, py: int)
    ensures Count([], px, py) == 0
  {
  }

  /** Every tile is as wide as its photo's share of the row, up to less than one pixel. */
  lemma {:induction false} TileKeepsShare(rs: seq<real>, at: nat, k: nat, x: real, sum: real, width: int, y: int, h: int, i: nat)
    requires Positive(rs) && at + k <= |rs| && sum > 0.0 && i < k
    ensures var t := RowTiles(rs, at, k, x, sum, width, y, h)[i];
      Abs(t.w as real - Wide(rs[at + i], sum, width)) < 1.0 && t.y == y && t.h == h
    decreases k
  {
    var next := x + Wide(rs[at], sum, width);
    hide Wide;
    if i > 0 { TileKeepsShare(rs, at + 1, k - 1, next, sum, width, y, h, i - 1); }
  }

  /** Every tile is as high as its row and as wide as its photo's share of the row, both up to less than a pixel. */
  lemma {:induction false} TileKeepsShape(rs: seq<real>, split: seq<nat>, hs: seq<real>, at: nat, y: real, k: real, width: int, j: nat, i: nat)
    requires Positive(rs) && Covers(rs, split, at) && |hs| == |split| && j < |split| && i < split[j]
    ensures at + Sum(split[..j]) + split[j] <= |rs| && Part(rs, at + Sum(split[..j]), split[j]) > 0.0
    ensures var first := at + Sum(split[..j]);
      var t := Rows(rs, split, hs, at, y, k, width)[first - at + i];
      Abs(t.h as real - Times(hs[j], k)) < 1.0 && Abs(t.w as real - Wide(rs[first + i], Part(rs, first, split[j]), width)) < 1.0
    decreases |split|
  {
    hide Times, Part, Rows, Wide, RowTiles, Round;
    RowsStep(rs, split, hs, at, y, k, width);
    var next, sum := y + Times(hs[0], k), Part(rs, at, split[0]);
    if j == 0 {
      assert split[..0] == [];
      TileKeepsShare(rs, at, split[0], 0.0, sum, width, Round(y), Round(next) - Round(y), i);
      RoundIsNearest(y);
      RoundIsNearest(next);
    } else {
      TileKeepsShape(rs, split[1..], hs[1..], at + split[0], next, k, width, j - 1, i);
      assert split[..j] == [split[0]] + split[1..][..j - 1];
    }
  }

  /** The lowest edge of any tile is the bottom of the last row. */
  lemma {:induction false} BottomOfRows(rs: seq<real>, split: seq<nat>, hs: seq<real>, at: nat, y: real, k: real, width: int)
    requires Positive(rs) && Covers(rs, split, at) && |hs| == |split| && Positive(hs) && k >= 0.0 && split != []
    ensures var tiles, bottom := Rows(rs, split, hs, at, y, k, width), Round(y + Times(Total(hs), k));
      tiles != [] && tiles[|tiles| - 1].y + tiles[|tiles| - 1].h == bottom && forall t | t in tiles :: t.y + t.h <= bottom
    decreases |split|
  {
    hide Times, Rows, Round, Total, Part, Wide, RowTiles, Covers;
    SplitHasRows(rs, split, at);
    RowsStep(rs, split, hs, at, y, k, width);
    var next, sum := y + Times(hs[0], k), Part(rs, at, split[0]);
    TotalStep(hs, y, k);
    var row := RowTiles(rs, at, split[0], 0.0, sum, width, Round(y), Round(next) - Round(y));
    forall i | 0 <= i < |row| ensures row[i].y + row[i].h == Round(next) {
      TileKeepsShare(rs, at, split[0], 0.0, sum, width, Round(y), Round(next) - Round(y), i);
    }
    if |split| > 1 {
      BottomOfRows(rs, split[1..], hs[1..], at + split[0], next, k, width);
      RoundGrows(next, next + Times(Total(hs[1..]), k));
    } else {
      assert hs[1..] == [] && split[1..] == [];
      RowsEnd(rs, split[1..], hs[1..], at + split[0], next, k, width);
      NoTotal(k);
    }
  }

  lemma SplitHasRows(rs: seq<real>, split: seq<nat>, at: nat)
    requires Covers(rs, split, at) && split != []
    ensures split[0] >= 1
  {
  }

  method RowByLoop(rs: seq<real>, at: nat, k: nat, sum: real, width: int, y: int, h: int) returns (row: seq<Tile>)
    requires at + k <= |rs| && sum > 0.0
    ensures row == RowTiles(rs, at, k, 0.0, sum, width, y, h)
  {
    hide Wide, Round;
    row := [];
    var x, col := 0.0, 0;
    while col < k
      invariant 0 <= col <= k
      invariant row + RowTiles(rs, at + col, k - col, x, sum, width, y, h) == RowTiles(rs, at, k, 0.0, sum, width, y, h)
    {
      var left := Round(x);
      x := x + Wide(rs[at + col], sum, width);
      row := row + [Tile(left, y, Round(x) - left, h)];
      col := col + 1;
    }
  }

  method RowsByLoop(rs: seq<real>, split: seq<nat>, hs: seq<real>, k: real, width: int) returns (tiles: seq<Tile>)
    requires Positive(rs) && Covers(rs, split, 0) && |hs| == |split|
    ensures tiles == Rows(rs, split, hs, 0, 0.0, k, width)
  {
    hide Round, RowTiles, Times, Rows, Part, Covers, Positive;
    tiles := [];
    var at, y, row := 0, 0.0, 0;
    assert split[row..] == split && hs[row..] == hs;
    while row < |split|
      invariant 0 <= row <= |split| && Covers(rs, split[row..], at)
      invariant tiles + Rows(rs, split[row..], hs[row..], at, y, k, width) == Rows(rs, split, hs, 0, 0.0, k, width)
    {
      var cols := split[row];
      assert split[row..][0] == cols && split[row..][1..] == split[row + 1..];
      assert hs[row..][0] == hs[row] && hs[row..][1..] == hs[row + 1..];
      RowsStep(rs, split[row..], hs[row..], at, y, k, width);
      var top := Round(y);
      y := y + Times(hs[row], k);
      var next := RowByLoop(rs, at, cols, Part(rs, at, cols), width, top, Round(y) - top);
      Regroup(tiles, next, Rows(rs, split[row + 1..], hs[row + 1..], at + cols, y, k, width));
      tiles := tiles + next;
      at := at + cols;
      row := row + 1;
    }
    RowsEnd(rs, split[row..], hs[row..], at, y, k, width);
  }

  lemma RowsStep(rs: seq<real>, split: seq<nat>, hs: seq<real>, at: nat, y: real, k: real, width: int)
    requires Positive(rs) && Covers(rs, split, at) && |hs| == |split| && split != []
    ensures at + split[0] <= |rs| && Part(rs, at, split[0]) > 0.0 && Covers(rs, split[1..], at + split[0])
    ensures var next := y + Times(hs[0], k);
      Rows(rs, split, hs, at, y, k, width) ==
        RowTiles(rs, at, split[0], 0.0, Part(rs, at, split[0]), width, Round(y), Round(next) - Round(y)) +
        Rows(rs, split[1..], hs[1..], at + split[0], next, k, width)
  {
    PartPositive(rs, at, split[0]);
    hide Round, RowTiles, Times, Part;
  }

  lemma RowsEnd(rs: seq<real>, split: seq<nat>, hs: seq<real>, at: nat, y: real, k: real, width: int)
    requires Positive(rs) && Covers(rs, split, at) && |hs| == |split| && split == []
    ensures Rows(rs, split, hs, at, y, k, width) == []
  {
  }

  function MaxInt(a: int, b: int): int { if a > b then a else b }

  method Bottom(tiles: seq<Tile>) returns (b: int)
    requires tiles != []
    ensures (forall t | t in tiles :: t.y + t.h <= b) && exists t | t in tiles :: t.y + t.h == b
  {
    b := tiles[0].y + tiles[0].h;
    var i := 1;
    while i < |tiles|
      invariant 1 <= i <= |tiles| && (forall j | 0 <= j < i :: tiles[j].y + tiles[j].h <= b)
      invariant exists t | t in tiles :: t.y + t.h == b
    {
      assert tiles[i] in tiles;
      b := MaxInt(b, tiles[i].y + tiles[i].h);
      i := i + 1;
    }
  }

  function EdgesOf(t: Tile, width: int, height: int): Edges {
    Edges(t.y == 0, t.x + t.w == width, t.y + t.h == height, t.x == 0)
  }

  /** A tile lies at an edge of the grid exactly when it holds a pixel of that edge. */
  lemma EdgesAre(t: Tile, width: int, height: int)
    requires 0 <= t.x && 0 <= t.y && t.w > 0 && t.h > 0 && t.x + t.w <= width && t.y + t.h <= height
    ensures var e := EdgesOf(t, width, height);
      (e.left <==> Inside(t, 0, t.y)) && (e.right <==> Inside(t, width - 1, t.y)) &&
      (e.top <==> Inside(t, t.x, 0)) && (e.bottom <==> Inside(t, t.x, height - 1))
  {
  }

  /** Each pixel of the grid is in exactly one tile, no tile reaches out of it. */
  ghost predicate TiledExactly(g: Grid) {
    forall px, py :: Count(g.tiles, px, py) == if 0 <= px < g.width && 0 <= py < g.height then 1 else 0
  }

  /** The rows are those of a split that no other candidate beats. */
  ghost predicate BestRows(rs: seq<real>, split: seq<nat>, maxW: real, maxH: real, minTile: real) {
    Positive(rs) && maxW > 0.0 && maxH > 0.0 && split in Candidates(|rs|) &&
    forall s | s in Candidates(|rs|) && s != [] && Covers(rs, s, 0) :: split != [] && Covers(rs, split, 0) &&
      Score(rs, split, maxW, maxH, minTile) <= Score(rs, s, maxW, maxH, minTile)
  }

  lemma CandidatesCover(rs: seq<real>)
    requires rs != []
    ensures Candidates(|rs|) != [] && forall s | s in Candidates(|rs|) :: s != [] && Covers(rs, s, 0)
  {
    CandidatesCompose(|rs|);
  }

  /** How much the grid shrinks to stay under the height limit. */
  function Shrink(hs: seq<real>, maxH: real): real
    requires Positive(hs) && hs != []
  {
    TotalPositive(hs);
    LeastOf(1.0, maxH / Total(hs))
  }

  /** A grid shrinks only if it is too high, and then just to the limit. */
  lemma ShrinksOnlyTo(hs: seq<real>, maxH: real)
    requires Positive(hs) && hs != [] && maxH > 0.0
    ensures if Total(hs) <= maxH then Shrink(hs, maxH) == 1.0 else Times(Total(hs), Shrink(hs, maxH)) == maxH
  {
    TotalPositive(hs);
    var total := Total(hs);
    if total <= maxH { NoShrinking(total, maxH); } else { JustFits(total, maxH); }
    hide Total, Times;
  }

  lemma JustFits(total: real, maxH: real)
    requires total > maxH > 0.0
    ensures Times(total, LeastOf(1.0, maxH / total)) == maxH
  {
    var q := maxH / total;
    assert q * total == maxH;
    NotNegative(1.0 - q, total);
    assert (1.0 - q) * total == total - maxH;
  }

  lemma GridFits(hs: seq<real>, maxW: nat, maxH: nat)
    requires Positive(hs) && hs != [] && maxW > 0 && maxH > 0
    ensures var k := Shrink(hs, maxH as real);
      0.0 < k <= 1.0 && 0 <= Round(Times(maxW as real, k)) <= maxW && 0 <= Round(Times(Total(hs), k)) <= maxH
  {
    TotalPositive(hs);
    var k, total := Shrink(hs, maxH as real), Total(hs);
    UnderLimit(total, maxH as real);
    ScaledWidth(maxW as real, k);
    hide Total, Shrink, Times;
    RoundGrows(0.0, Times(maxW as real, k));
    RoundGrows(Times(maxW as real, k), maxW as real);
    RoundWhole(maxW);
    RoundWhole(0);
    RoundGrows(0.0, Times(total, k));
    RoundGrows(Times(total, k), maxH as real);
    RoundWhole(maxH);
  }

  lemma UnderLimit(total: real, limit: real)
    requires total > 0.0 && limit > 0.0
    ensures var k := LeastOf(1.0, limit / total); 0.0 < k <= 1.0 && 0.0 <= Times(total, k) <= limit
  {
    assert total * (limit / total) == limit;
    assert limit / total > 0.0;
    if limit / total > 1.0 { assert limit > total; }
  }

  lemma ScaledWidth(w: real, k: real)
    requires w >= 0.0 && 0.0 <= k <= 1.0
    ensures 0.0 <= Times(w, k) <= w
  {
  }

  /** The grid holds one tile a photo, in order, in the rows of this split, each row as high as fills the width. */
  ghost predicate LaidOut(rs: seq<real>, split: seq<nat>, maxW: nat, maxH: nat, g: Grid) {
    Positive(rs) && Covers(rs, split, 0) && maxW > 0 &&
    var hs := Heights(rs, split, 0, maxW as real);
    hs != [] && var k := Shrink(hs, maxH as real);
    g.width == Round(Times(maxW as real, k)) && g.tiles == Rows(rs, split, hs, 0, 0.0, k, g.width) && |g.edges| == |g.tiles| &&
    forall i | 0 <= i < |g.tiles| :: g.edges[i] == EdgesOf(g.tiles[i], g.width, g.height)
  }

  method LayOut(rs: seq<real>, split: seq<nat>, maxW: nat, maxH: nat) returns (g: Grid)
    requires Positive(rs) && Covers(rs, split, 0) && split != [] && maxW > 0 && maxH > 0
    ensures LaidOut(rs, split, maxW, maxH, g) && |g.tiles| == |rs| && TiledExactly(g)
    ensures 0 <= g.width <= maxW && 0 <= g.height <= maxH
  {
    var hs := Heights(rs, split, 0, maxW as real);
    var k := Shrink(hs, maxH as real);
    GridFits(hs, maxW, maxH);
    hide Shrink, Round, Heights, Times;
    var width := Round(Times(maxW as real, k));
    var tiles := RowsByLoop(rs, split, hs, k, width);
    RowsFill(rs, split, hs, k, width);
    hide Rows, Count, Total, Covers;
    var height := Bottom(tiles);
    g := Grid(width, height, tiles, seq(|tiles|, i requires 0 <= i < |tiles| => EdgesOf(tiles[i], width, height)));
  }

  /** The whole layout: the rows of a best split, filling a grid within the limits exactly. */
  method AlbumGrid(ratios: seq<real>, maxW: nat, maxH: nat, minTile: real) returns (g: Grid, ghost split: seq<nat>)
    requires maxW > 0 && maxH > 0
    ensures ratios == [] ==> g == Grid(0, 0, [], [])
    ensures |g.tiles| == |ratios| && TiledExactly(g) && 0 <= g.width <= maxW && 0 <= g.height <= maxH
    ensures ratios != [] ==>
      BestRows(Clamped(ratios), split, maxW as real, maxH as real, minTile) && LaidOut(Clamped(ratios), split, maxW, maxH, g)
  {
    g, split := Grid(0, 0, [], []), [];
    if ratios != [] {
      var rs := Clamped(ratios);
      CandidatesCover(rs);
      hide Clamped, Score, Candidates, LaidOut, TiledExactly;
      var splits := CandidatesByLoop(|rs|);
      var best := BestSplit(rs, splits, maxW as real, maxH as real, minTile);
      split := best;
      g := LayOut(rs, best, maxW, maxH);
    }
  }

  /** All rows of a layout: the bottom is where the last one ends, and every pixel above it is covered once. */
  lemma RowsFill(rs: seq<real>, split: seq<nat>, hs: seq<real>, k: real, width: int)
    requires Positive(rs) && Covers(rs, split, 0) && |hs| == |split| && Positive(hs) && k >= 0.0 && split != [] && width >= 0
    ensures var tiles, bottom := Rows(rs, split, hs, 0, 0.0, k, width), Round(Times(Total(hs), k));
      tiles != [] && (forall t | t in tiles :: t.y + t.h <= bottom) && (exists t | t in tiles :: t.y + t.h == bottom) &&
      forall px, py :: Count(tiles, px, py) == if 0 <= px < width && 0 <= py < bottom then 1 else 0
  {
    var tiles := Rows(rs, split, hs, 0, 0.0, k, width);
    BottomOfRows(rs, split, hs, 0, 0.0, k, width);
    RoundWhole(0);
    hide Times, Rows, Round, Total;
    assert tiles[|tiles| - 1] in tiles;
    forall px, py ensures Count(tiles, px, py) == if 0 <= px < width && 0 <= py < Round(Times(Total(hs), k)) then 1 else 0 {
      RowsOnce(rs, split, hs, 0, 0.0, k, width, px, py);
    }
  }

  method CandidatesByLoop(n: nat) returns (splits: seq<seq<nat>>)
    ensures splits == Candidates(n)
  {
    splits := [];
    var rows := 1;
    while rows <= ROWS_MAX
      invariant 1 <= rows <= ROWS_MAX + 1 && splits == AllSplits(n, rows - 1)
    {
      var more := SplitsOf(n, rows);
      splits := splits + more;
      rows := rows + 1;
    }
    if splits == [] { splits := [Fours(n)]; }
  }

  lemma {:induction false} SomeTile(tiles: seq<Tile>, px: int, py: int) returns (i: nat)
    requires Count(tiles, px, py) > 0
    ensures i < |tiles| && Inside(tiles[i], px, py)
  {
    if Inside(tiles[0], px, py) {
      i := 0;
    } else {
      i := SomeTile(tiles[1..], px, py);
      i := i + 1;
    }
  }

  lemma {:induction false} TileCounts(tiles: seq<Tile>, i: nat, px: int, py: int)
    requires i < |tiles| && Inside(tiles[i], px, py)
    ensures Count(tiles, px, py) >= 1
  {
    if i > 0 { TileCounts(tiles[1..], i - 1, px, py); }
  }

  lemma {:induction false} TwoTilesCount(tiles: seq<Tile>, i: nat, j: nat, px: int, py: int)
    requires i < j < |tiles| && Inside(tiles[i], px, py) && Inside(tiles[j], px, py)
    ensures Count(tiles, px, py) >= 2
  {
    if i > 0 { TwoTilesCount(tiles[1..], i - 1, j - 1, px, py); }
    else { TileCounts(tiles[1..], j - 1, px, py); }
  }

  /** Exact tiling in plain words: every pixel has its tile, and no two tiles share one. */
  lemma EveryPixelHasOneTile(g: Grid, px: int, py: int) returns (i: nat)
    requires TiledExactly(g) && 0 <= px < g.width && 0 <= py < g.height
    ensures i < |g.tiles| && Inside(g.tiles[i], px, py)
    ensures forall j | 0 <= j < |g.tiles| && j != i :: !Inside(g.tiles[j], px, py)
  {
    assert Count(g.tiles, px, py) == 1;
    hide TiledExactly, Count;
    i := SomeTile(g.tiles, px, py);
    forall j | 0 <= j < |g.tiles| && j != i ensures !Inside(g.tiles[j], px, py) {
      if Inside(g.tiles[j], px, py) { TwoTilesCount(g.tiles, if i < j then i else j, if i < j then j else i, px, py); }
    }
  }
}
