/** The order in which a client consumed the journal: what each step covered, and that nothing is lost or taken twice. */
module Consumption {
  import opened Feed

  /** A full snapshot (list or record), a catch-up reply, or one event. */
  datatype Take = Snapshot(upTo: nat) | Range(since: nat, upTo: nat) | One(n: nat)

  predicate Covers(t: Take, n: nat) {
    match t
    case Snapshot(p) => n <= p
    case Range(a, b) => a < n <= b
    case One(m) => n == m
  }

  /** The position after these steps; `None` if a step left a gap or took a number again. */
  function Reach(log: seq<Take>): Option<nat> {
    if log == [] then Some(0)
    else
      var p := Reach(log[..|log| - 1]);
      if p.None? then None
      else match log[|log| - 1]
        case Snapshot(q) => Some(if q > p.value then q else p.value)
        case Range(a, b) => if a <= p.value then Some(if b > p.value then b else p.value) else None
        case One(n) => if n == p.value + 1 then Some(n) else None
  }

  lemma ReachStep(log: seq<Take>, t: Take)
    ensures Reach(log + [t]) ==
      if Reach(log).None? then None
      else match t
        case Snapshot(q) => Some(if q > Reach(log).value then q else Reach(log).value)
        case Range(a, b) => if a <= Reach(log).value then Some(if b > Reach(log).value then b else Reach(log).value) else None
        case One(n) => if n == Reach(log).value + 1 then Some(n) else None
  {
    assert (log + [t])[..|log|] == log;
  }

  lemma {:induction false} CoveredOnly(log: seq<Take>, i: nat, n: nat)
    requires Reach(log).Some? && i < |log| && Covers(log[i], n)
    ensures n <= Reach(log).value
  {
    var t := log[..|log| - 1];
    if i < |t| {
      assert t[i] == log[i];
      CoveredOnly(t, i, n);
    }
  }

  /** Nothing lost: every number up to the position was consumed by some step. */
  lemma {:induction false} NothingLost(log: seq<Take>, n: nat)
    requires Reach(log).Some? && 1 <= n <= Reach(log).value
    ensures exists i | 0 <= i < |log| :: Covers(log[i], n)
  {
    var t := log[..|log| - 1];
    if n <= Reach(t).value {
      NothingLost(t, n);
      var i :| 0 <= i < |t| && Covers(t[i], n);
      assert Covers(log[i], n);
    } else {
      assert Covers(log[|log| - 1], n);
    }
  }

  /** Nothing twice: an event is applied only if no earlier step consumed its number. */
  lemma {:induction false} NothingTwice(log: seq<Take>, i: nat, j: nat, n: nat)
    requires Reach(log).Some? && i < j < |log| && log[j] == One(n)
    ensures !Covers(log[i], n)
  {
    var t := log[..|log| - 1];
    if j < |t| {
      assert t[i] == log[i] && t[j] == log[j];
      NothingTwice(t, i, j, n);
    } else if Covers(log[i], n) {
      assert t[i] == log[i];
      CoveredOnly(t, i, n);
    }
  }
}
