/** A resumable upload in parts: three workers share a queue, parts are retried, the server puts the file together. */
module Upload {
  import opened Feed

  const PARALLEL: nat := 3
  /** Retries of a part, and waits for a busy server, beyond its first attempt. */
  const RETRIES: nat := 5
  const BUSY_RETRIES: nat := 60
  const TRIES: nat := RETRIES + 1 + BUSY_RETRIES
  const ASSEMBLY_POLLS: nat := 300

  // ----- parts -----

  datatype Range = Range(start: int, end: int)

  function Least(a: int, b: int): int { if a < b then a else b }

  function Most(a: int, b: int): int { if a > b then a else b }

  function PartRange(size: nat, partSize: nat, n: int): Range {
    var start := (n - 1) * partSize;
    Range(start, Least(size, start + partSize))
  }

  function PartSize(size: nat, partSize: nat, n: int): int {
    PartRange(size, partSize, n).end - PartRange(size, partSize, n).start
  }

  /** The server's part count: enough parts for the file, and none of them empty. */
  ghost predicate Fits(size: nat, partSize: nat, parts: nat) {
    partSize > 0 && size <= parts * partSize && (parts > 0 ==> (parts - 1) * partSize < size)
  }

  lemma Product(a: int, b: int, k: int)
    requires a <= b && k >= 0
    ensures a * k <= b * k
    decreases b - a
  {
    if a < b { Product(a, b - 1, k); }
  }

  /** Ranges start at 0, meet end to start, are never empty, and the last one ends the file. */
  lemma RangesMeet(size: nat, partSize: nat, parts: nat, n: nat)
    requires Fits(size, partSize, parts) && 1 <= n <= parts
    ensures PartRange(size, partSize, 1).start == 0
    ensures PartSize(size, partSize, n) > 0
    ensures n < parts ==> PartRange(size, partSize, n).end == PartRange(size, partSize, n + 1).start == n * partSize
    ensures PartRange(size, partSize, parts).end == size
  {
    Product(n - 1, parts - 1, partSize);
    if n < parts { Product(n, parts - 1, partSize); }
    assert parts * partSize == (parts - 1) * partSize + partSize;
    assert n * partSize == (n - 1) * partSize + partSize;
  }

  /** Every byte of the file is in exactly one part. */
  lemma RangesTile(size: nat, partSize: nat, parts: nat, x: nat) returns (n: nat)
    requires Fits(size, partSize, parts) && x < size
    ensures 1 <= n <= parts && PartRange(size, partSize, n).start <= x < PartRange(size, partSize, n).end
    ensures forall k: nat | 1 <= k <= parts && k != n ::
      x < PartRange(size, partSize, k).start || PartRange(size, partSize, k).end <= x
  {
    n := x / partSize + 1;
    assert (n - 1) * partSize <= x < (n - 1) * partSize + partSize;
    if n > parts { Product(parts, n - 1, partSize); }
    forall k: nat | 1 <= k <= parts && k != n
      ensures x < PartRange(size, partSize, k).start || PartRange(size, partSize, k).end <= x
    {
      if k < n {
        Product(k, n - 1, partSize);
        assert k * partSize == (k - 1) * partSize + partSize;
      } else {
        Product(n, k - 1, partSize);
        assert n * partSize == (n - 1) * partSize + partSize;
      }
    }
  }

  /** Bytes of the parts in `have`, counted over parts 1 to `k`. */
  ghost function SizeOf(size: nat, partSize: nat, k: nat, have: set<nat>): int {
    if k == 0 then 0
    else SizeOf(size, partSize, k - 1, have) + if k in have then PartSize(size, partSize, k) else 0
  }

  lemma {:induction false} SizeOfPlus(size: nat, partSize: nat, k: nat, have: set<nat>, n: nat)
    requires n !in have && n >= 1
    ensures SizeOf(size, partSize, k, have + {n}) ==
      SizeOf(size, partSize, k, have) + if n <= k then PartSize(size, partSize, n) else 0
  {
    if k > 0 { SizeOfPlus(size, partSize, k - 1, have, n); }
  }

  lemma {:induction false} SizeOfAll(size: nat, partSize: nat, parts: nat, k: nat, have: set<nat>)
    requires Fits(size, partSize, parts) && k <= parts && forall n: nat | 1 <= n <= k :: n in have
    ensures SizeOf(size, partSize, k, have) == if k == parts then size else k * partSize
  {
    if k > 0 {
      SizeOfAll(size, partSize, parts, k - 1, have);
      RangesMeet(size, partSize, parts, k);
      if k > 1 { RangesMeet(size, partSize, parts, k - 1); }
    }
  }

  lemma {:induction false} SizeOfSome(size: nat, partSize: nat, parts: nat, k: nat, have: set<nat>)
    requires Fits(size, partSize, parts) && k <= parts
    ensures 0 <= SizeOf(size, partSize, k, have) <= if k == parts then size else k * partSize
  {
    if k > 0 {
      SizeOfSome(size, partSize, parts, k - 1, have);
      RangesMeet(size, partSize, parts, k);
      if k > 1 { RangesMeet(size, partSize, parts, k - 1); }
    }
  }

  // ----- what is still to send -----

  ghost function ToSend(k: nat, done: seq<nat>): seq<nat> {
    if k == 0 then [] else ToSend(k - 1, done) + if k in done then [] else [k]
  }

  method PartsToSend(parts: nat, done: seq<nat>) returns (out: seq<nat>)
    ensures out == ToSend(parts, done)
  {
    out := [];
    var n := 1;
    while n <= parts
      invariant 1 <= n <= parts + 1 && out == ToSend(n - 1, done)
    {
      if n !in done { out := out + [n]; }
      n := n + 1;
    }
  }

  ghost predicate Distinct(s: seq<nat>) {
    forall i, j | 0 <= i < j < |s| :: s[i] != s[j]
  }

  /** Exactly the parts the server does not have, each once, in order. */
  lemma {:induction false} ToSendIsMissing(k: nat, done: seq<nat>)
    ensures forall n :: n in ToSend(k, done) <==> 1 <= n <= k && n !in done
    ensures forall i, j | 0 <= i < j < |ToSend(k, done)| :: ToSend(k, done)[i] < ToSend(k, done)[j]
    ensures |ToSend(k, done)| <= k
  {
    if k > 0 {
      ToSendIsMissing(k - 1, done);
      var t := ToSend(k - 1, done);
      forall i | 0 <= i < |t| ensures t[i] < k { assert t[i] in t; }
    }
  }

  /** Bytes of a list of parts. */
  function Bytes(size: nat, partSize: nat, list: seq<nat>): int {
    if list == [] then 0 else Bytes(size, partSize, list[..|list| - 1]) + PartSize(size, partSize, list[|list| - 1])
  }

  method CountBytes(size: nat, partSize: nat, list: seq<nat>) returns (sum: int)
    ensures sum == Bytes(size, partSize, list)
  {
    sum := 0;
    var i := 0;
    while i < |list|
      invariant 0 <= i <= |list| && sum == Bytes(size, partSize, list[..i])
    {
      assert list[..i + 1][..i] == list[..i];
      sum := sum + PartSize(size, partSize, list[i]);
      i := i + 1;
    }
    assert list[..i] == list;
  }

  function SetOf(s: seq<nat>): set<nat> {
    set n | n in s
  }

  ghost predicate Numbers(parts: nat, list: seq<nat>) {
    Distinct(list) && forall n | n in list :: 1 <= n <= parts
  }

  /** Taking distinct parts away takes exactly their bytes away. */
  lemma {:induction false} BytesAway(size: nat, partSize: nat, parts: nat, have: set<nat>, list: seq<nat>)
    requires Numbers(parts, list) && forall n | n in list :: n in have
    ensures SizeOf(size, partSize, parts, have - SetOf(list)) == SizeOf(size, partSize, parts, have) - Bytes(size, partSize, list)
  {
    if list == [] {
      assert have - SetOf(list) == have;
    } else {
      var t, z := list[..|list| - 1], list[|list| - 1];
      assert list == t + [z] && z in list && forall n | n in t :: n in list;
      BytesAway(size, partSize, parts, have, t);
      var rest := have - SetOf(list);
      assert rest + {z} == have - SetOf(t) by {
        assert SetOf(list) == SetOf(t) + {z};
        assert z !in SetOf(t);
      }
      SizeOfPlus(size, partSize, parts, rest, z);
    }
  }

  lemma {:induction false} SizeOfNone(size: nat, partSize: nat, k: nat)
    ensures SizeOf(size, partSize, k, {}) == 0
  {
    if k > 0 { SizeOfNone(size, partSize, k - 1); }
  }

  // ----- errors -----

  /** An error with an HTTP status, or one without: no connection, a stalled part, an abort. */
  datatype Error = Aborted | Offline | Http(code: int, retryAfter: nat)

  predicate Retryable(e: Error) {
    e.Http? ==> e.code == 408 || e.code == 429 || e.code >= 500
  }

  predicate Busy(e: Error) {
    e.Http? && (e.code == 429 || e.code == 503) && e.retryAfter > 0
  }

  // ----- workers over a shared queue -----

  /** A worker between parts, sending a part, pausing before it sends it again, or finished. */
  datatype Work = Free | Putting(n: nat, attempt: nat, busy: nat) | Pausing(n: nat, attempt: nat, busy: nat) | Gone

  predicate Holds(w: Work, n: nat) {
    (w.Putting? || w.Pausing?) && w.n == n
  }

  ghost predicate WithinTries(w: Work) {
    w.Putting? || w.Pausing? ==> w.attempt <= RETRIES && w.busy <= BUSY_RETRIES
  }

  ghost predicate QueueOk(parts: nat, queue: seq<nat>, done: set<nat>) {
    Numbers(parts, queue) && forall n | n in done :: 1 <= n <= parts && n !in queue
  }

  /** A worker is finished only when nothing was left to take. */
  ghost predicate TriesOk(queue: seq<nat>, workers: seq<Work>, failed: bool) {
    forall i | 0 <= i < |workers| :: WithinTries(workers[i]) && (workers[i] == Gone ==> failed || queue == [])
  }

  ghost predicate Untouched(parts: nat, queue: seq<nat>, done: set<nat>, n: nat) {
    1 <= n <= parts && n !in queue && n !in done
  }

  /** A part that a worker holds is in nobody else's hands. */
  ghost predicate HeldOnce(parts: nat, queue: seq<nat>, workers: seq<Work>, done: set<nat>) {
    (forall i: nat, n: nat | i < |workers| && Holds(workers[i], n) :: Untouched(parts, queue, done, n)) &&
    (forall i: nat, j: nat, n: nat | i < j < |workers| && Holds(workers[i], n) :: !Holds(workers[j], n))
  }

  ghost predicate Held(workers: seq<Work>, n: nat) {
    exists i | 0 <= i < |workers| :: Holds(workers[i], n)
  }

  ghost predicate NoneLost(parts: nat, queue: seq<nat>, workers: seq<Work>, done: set<nat>) {
    forall n: nat | 1 <= n <= parts :: n in done || n in queue || Held(workers, n)
  }

  /** Each part that is not done is in the queue or with one worker, unless an error has ended the pass. */
  ghost predicate Shared(parts: nat, queue: seq<nat>, workers: seq<Work>, done: set<nat>, failed: bool) {
    QueueOk(parts, queue, done) && TriesOk(queue, workers, failed) && HeldOnce(parts, queue, workers, done) &&
    (failed || NoneLost(parts, queue, workers, done))
  }

  /** A worker changes; the parts of the others stay held. */
  lemma OthersHold(workers: seq<Work>, w: nat, next: Work, n: nat)
    requires w < |workers| && Held(workers, n) && !Holds(workers[w], n)
    ensures Held(workers[w := next], n)
  {
    var i :| 0 <= i < |workers| && Holds(workers[i], n);
    assert Holds(workers[w := next][i], n);
  }

  lemma TakeKeepsShared(parts: nat, queue: seq<nat>, workers: seq<Work>, done: set<nat>, failed: bool, w: nat)
    requires Shared(parts, queue, workers, done, failed) && w < |workers| && workers[w] == Free && queue != []
    ensures Shared(parts, queue[1..], workers[w := Putting(queue[0], 0, 0)], done, failed)
  {
    var q, ws, n := queue[1..], workers[w := Putting(queue[0], 0, 0)], queue[0];
    assert queue == [n] + q;
    assert n in queue && forall k :: k in queue <==> k == n || k in q;
    assert n !in q by { forall i | 0 <= i < |q| ensures q[i] != n { assert queue[i + 1] == q[i]; } }
    assert QueueOk(parts, q, done);
    assert Untouched(parts, q, done, n);
    forall i: nat, k: nat | i < |ws| && Holds(ws[i], k) ensures Untouched(parts, q, done, k) {
      if i != w { assert Holds(workers[i], k) && Untouched(parts, queue, done, k); }
    }
    forall i: nat | i < |workers| ensures !Holds(workers[i], n) {
      assert Holds(workers[i], n) ==> Untouched(parts, queue, done, n);
    }
    if !failed {
      forall k: nat | 1 <= k <= parts ensures k in done || k in q || Held(ws, k) {
        if k == n { assert Holds(ws[w], k); }
        else if k !in done && k !in q { OthersHold(workers, w, ws[w], k); }
      }
    }
    hide Held;
  }

  /** A worker gives its part back as done. */
  lemma AckKeepsShared(parts: nat, queue: seq<nat>, workers: seq<Work>, done: set<nat>, failed: bool, w: nat, n: nat)
    requires Shared(parts, queue, workers, done, failed) && w < |workers| && Holds(workers[w], n)
    ensures Shared(parts, queue, workers[w := Free], done + {n}, failed) && n !in done && 1 <= n <= parts
  {
    var ws := workers[w := Free];
    assert Untouched(parts, queue, done, n);
    assert QueueOk(parts, queue, done + {n});
    forall i: nat, k: nat | i < |ws| && Holds(ws[i], k) ensures Untouched(parts, queue, done + {n}, k) {
      assert Holds(workers[i], k) && i != w;
      assert Untouched(parts, queue, done, k);
      assert k != n;
    }
    if !failed {
      forall k: nat | 1 <= k <= parts ensures k in done + {n} || k in queue || Held(workers[w := Free], k) {
        if k != n && k !in done && k !in queue { OthersHold(workers, w, Free, k); }
      }
    }
    hide Held;
  }

  /** A worker goes on with its part. */
  lemma MoveKeepsShared(parts: nat, queue: seq<nat>, workers: seq<Work>, done: set<nat>, failed: bool, w: nat, next: Work)
    requires Shared(parts, queue, workers, done, failed) && w < |workers| && WithinTries(next)
    requires (next.Putting? || next.Pausing?) && Holds(workers[w], next.n)
    ensures Shared(parts, queue, workers[w := next], done, failed)
  {
    if !failed {
      forall k: nat | 1 <= k <= parts ensures k in done || k in queue || Held(workers[w := next], k) {
        if k == next.n { assert Holds(workers[w := next][w], k); }
        else if k !in done && k !in queue { OthersHold(workers, w, next, k); }
      }
    }
    hide Held;
  }

  /** An error ends the pass: nobody takes another part. */
  lemma FailKeepsShared(parts: nat, queue: seq<nat>, workers: seq<Work>, done: set<nat>, failed: bool, w: nat, next: Work)
    requires Shared(parts, queue, workers, done, failed) && w < |workers| && (next == Free || next == Gone)
    ensures Shared(parts, queue, workers[w := next], done, true)
  {
  }

  lemma LeaveKeepsShared(parts: nat, queue: seq<nat>, workers: seq<Work>, done: set<nat>, failed: bool, w: nat)
    requires Shared(parts, queue, workers, done, failed) && w < |workers| && workers[w] == Free && (failed || queue == [])
    ensures Shared(parts, queue, workers[w := Gone], done, failed)
  {
    if !failed {
      forall k: nat | 1 <= k <= parts ensures k in done || k in queue || Held(workers[w := Gone], k) {
        if k !in done && k !in queue { OthersHold(workers, w, Gone, k); }
      }
    }
    hide Held;
  }

  /**
   * `fails` counts the ordinary failures of each part since it was taken. A worker knows the count of its part; a pass ends
   * by an abort, a final refusal, or a part that failed once more than it may be retried.
   */
  ghost predicate Tallied(workers: seq<Work>, fails: map<nat, nat>, failure: Option<Error>, aborted: bool) {
    (forall i | 0 <= i < |workers| && (workers[i].Putting? || workers[i].Pausing?) ::
      workers[i].n in fails && fails[workers[i].n] == workers[i].attempt) &&
    (failure == Some(Aborted) ==> aborted) &&
    (failure.Some? && failure != Some(Aborted) && Retryable(failure.value) ==> exists n :: n in fails && fails[n] == RETRIES + 1)
  }

  /** A worker that takes a part starts its count; no other worker holds it. */
  lemma TakeTallied(parts: nat, queue: seq<nat>, workers: seq<Work>, done: set<nat>, fails: map<nat, nat>, aborted: bool, w: nat)
    requires Shared(parts, queue, workers, done, false) && Tallied(workers, fails, None, aborted) && w < |workers| && queue != []
    ensures Tallied(workers[w := Putting(queue[0], 0, 0)], fails[queue[0] := 0], None, aborted)
  {
    var ws := workers[w := Putting(queue[0], 0, 0)];
    forall i: nat | i < |ws| && i != w && (ws[i].Putting? || ws[i].Pausing?) ensures ws[i].n != queue[0] {
      assert Holds(workers[i], ws[i].n) && Untouched(parts, queue, done, ws[i].n);
    }
  }

  /** One attempt more failed: the count of the part goes with the worker that holds it. */
  lemma MoveTallied(parts: nat, queue: seq<nat>, workers: seq<Work>, done: set<nat>, failed: bool, fails: map<nat, nat>,
                    failure: Option<Error>, aborted: bool, w: nat, next: Work)
    requires Shared(parts, queue, workers, done, failed) && Tallied(workers, fails, failure, aborted) && WithinTries(next)
    requires w < |workers| && (next.Putting? || next.Pausing?) && Holds(workers[w], next.n)
    ensures Tallied(workers[w := next], fails[next.n := next.attempt], failure, aborted)
  {
    var ws := workers[w := next];
    forall i: nat | i < |ws| && i != w && (ws[i].Putting? || ws[i].Pausing?) ensures ws[i].n != next.n {
      assert Holds(workers[i], ws[i].n) && Holds(workers[w], next.n);
    }
    if n :| n in fails && fails[n] == RETRIES + 1 {
      assert WithinTries(workers[w]) && fails[next.n] == workers[w].attempt;
      assert n != next.n;
      assert fails[next.n := next.attempt][n] == RETRIES + 1;
    }
  }

  /** A worker lets go of its part, or an abort ends it. */
  lemma EndTallied(workers: seq<Work>, fails: map<nat, nat>, failure: Option<Error>, aborted: bool, w: nat, next: Work)
    requires Tallied(workers, fails, failure, aborted) && w < |workers| && (next == Free || next == Gone)
    ensures Tallied(workers[w := next], fails, failure, aborted)
    ensures aborted ==> Tallied(workers[w := next], fails, if failure.Some? then failure else Some(Aborted), aborted)
  {
  }

  /** A worker gives up: by the last failure that its part may have, or for another reason. */
  lemma GiveUpTallied(parts: nat, queue: seq<nat>, workers: seq<Work>, done: set<nat>, failed: bool, fails: map<nat, nat>,
                      failure: Option<Error>, aborted: bool, w: nat, e: Error, spent: bool)
    requires Shared(parts, queue, workers, done, failed) && Tallied(workers, fails, failure, aborted)
    requires w < |workers| && workers[w].Putting? && (e == Aborted ==> aborted)
    requires if spent then workers[w].attempt == RETRIES else e == Aborted || !Retryable(e)
    ensures var n := workers[w].n;
      Tallied(workers[w := Gone], if spent then fails[n := RETRIES + 1] else fails, if failure.Some? then failure else Some(e), aborted)
  {
    var ws, n := workers[w := Gone], workers[w].n;
    forall i: nat | i < |ws| && i != w && (ws[i].Putting? || ws[i].Pausing?) ensures ws[i].n != n {
      assert Holds(workers[i], ws[i].n) && Holds(workers[w], n);
    }
    if spent { assert fails[n := RETRIES + 1][n] == RETRIES + 1; }
  }

  ghost predicate AllGone(workers: seq<Work>) {
    forall i | 0 <= i < |workers| :: workers[i] == Gone
  }

  /** When the last worker is gone without an error, every part is done. */
  lemma PassCompletes(parts: nat, queue: seq<nat>, workers: seq<Work>, done: set<nat>)
    requires Shared(parts, queue, workers, done, false) && AllGone(workers) && (workers == [] ==> queue == [])
    ensures forall n: nat :: n in done <==> 1 <= n <= parts
  {
    if workers != [] { assert workers[0] == Gone; }
    forall n: nat | 1 <= n <= parts ensures n in done {
      assert n in done || n in queue || Held(workers, n);
    }
  }

  lemma FreshPass(parts: nat, queue: seq<nat>, done: set<nat>, count: nat)
    requires Numbers(parts, queue) && forall n: nat :: 1 <= n <= parts <==> n in queue || n in done
    requires forall n | n in queue :: n !in done
    ensures Shared(parts, queue, seq(count, _ => Free), done, false)
  {
  }

  // ----- how many requests are left -----

  /** Further requests a worker may send for the part it holds. */
  function Left(w: Work): nat {
    match w
    case Putting(_, a, b) => if a <= RETRIES && b <= BUSY_RETRIES then (RETRIES - a) + (BUSY_RETRIES - b) else 0
    case Pausing(_, a, b) => if a <= RETRIES && b <= BUSY_RETRIES then (RETRIES - a) + (BUSY_RETRIES - b) + 1 else 0
    case _ => 0
  }

  function LeftAll(workers: seq<Work>): nat {
    if workers == [] then 0 else LeftAll(workers[..|workers| - 1]) + Left(workers[|workers| - 1])
  }

  lemma {:induction false} LeftUpdate(workers: seq<Work>, i: nat, w: Work)
    requires i < |workers|
    ensures LeftAll(workers[i := w]) == LeftAll(workers) - Left(workers[i]) + Left(w)
  {
    var k := |workers| - 1;
    if i < k {
      LeftUpdate(workers[..k], i, w);
      assert workers[i := w][..k] == workers[..k][i := w];
    } else {
      assert workers[i := w][..k] == workers[..k];
    }
  }

  lemma {:induction false} LeftOfFree(count: nat)
    ensures LeftAll(seq(count, _ => Free)) == 0
  {
    if count > 0 {
      LeftOfFree(count - 1);
      assert seq(count, _ => Free)[..count - 1] == seq(count - 1, _ => Free);
    }
  }

  /** Where the upload is between two awaits. */
  datatype Stage =
    | Sending
    | Posting(poll: nat)
    | Polling(poll: nat)
    | Asking
    | Between
    | Finished
    | Broken(e: Error)

  /** Requests that assembly round `round` and everything after it may send. */
  function RoundsLeft(parts: nat, round: nat): nat {
    if round == 0 then 3 * (ASSEMBLY_POLLS + 1) + 2 * (1 + TRIES * parts)
    else if round == 1 then 2 * (ASSEMBLY_POLLS + 1) + 1 + TRIES * parts
    else if round == 2 then ASSEMBLY_POLLS + 1
    else 0
  }

  function RequestsLeft(parts: nat, queue: seq<nat>, workers: seq<Work>, stage: Stage, round: nat): int {
    match stage
    case Sending => TRIES * |queue| + LeftAll(workers) + RoundsLeft(parts, round)
    case Posting(poll) => RoundsLeft(parts, round) - poll - 1
    case Polling(poll) => RoundsLeft(parts, round) - poll - 1
    case Asking => TRIES * parts + RoundsLeft(parts, round + 1)
    case Between => RoundsLeft(parts, round + 1)
    case _ => 0
  }

  /** All requests of one upload, from the first part to the end. */
  function RequestBound(parts: nat): nat {
    TRIES * parts + RoundsLeft(parts, 0)
  }

  lemma EnoughRequests(count: nat, parts: nat)
    requires count <= parts
    ensures TRIES * count + RoundsLeft(parts, 0) <= RequestBound(parts)
  {
  }

  lemma BoundIs(parts: nat)
    ensures RequestBound(parts) == 198 * parts + 905
  {
  }

  // ----- the progress bar -----

  ghost predicate NeverBack(reports: seq<int>) {
    forall i, j | 0 <= i <= j < |reports| :: reports[i] <= reports[j]
  }

  ghost predicate Shows(reports: seq<int>, shown: int, size: int) {
    NeverBack(reports) && shown <= size && forall i | 0 <= i < |reports| :: reports[i] <= shown
  }

  lemma ReportOne(reports: seq<int>, shown: int, next: int, size: int)
    requires Shows(reports, shown, size) && shown <= next <= size
    ensures Shows(reports + [next], next, size)
  {
  }

  /** Bytes of the parts on their way, over part numbers 1 to `k`. */
  function OnTheWay(inflight: map<nat, nat>, k: nat): nat {
    if k == 0 then 0 else OnTheWay(inflight, k - 1) + if k in inflight then inflight[k] else 0
  }

  lemma NothingOnTheWay(k: nat)
    ensures OnTheWay(map[], k) == 0
  {
  }

  /** Each part on its way counts with its own bytes: nothing while there is none, and a change of one changes the sum by that. */
  lemma {:induction false} OnTheWayCounts(inflight: map<nat, nat>, k: nat, n: nat, bytes: nat)
    requires 1 <= n <= k
    ensures OnTheWay(map[], k) == 0
    ensures OnTheWay(inflight[n := bytes], k) == OnTheWay(inflight - {n}, k) + bytes
    ensures n !in inflight ==> OnTheWay(inflight - {n}, k) == OnTheWay(inflight, k)
  {
    NothingOnTheWay(k);
    if n !in inflight { assert inflight - {n} == inflight; }
    if n < k { OnTheWayCounts(inflight, k - 1, n, bytes); } else { OnTheWayBelow(inflight, k - 1, n, bytes); }
  }

  lemma {:induction false} OnTheWayBelow(inflight: map<nat, nat>, k: nat, n: nat, bytes: nat)
    requires k < n
    ensures OnTheWay(inflight[n := bytes], k) == OnTheWay(inflight - {n}, k) == OnTheWay(inflight, k)
  {
    if k > 0 { OnTheWayBelow(inflight, k - 1, n, bytes); }
  }

  /** Bytes on their way are of parts that a worker is sending right now. */
  ghost predicate Flying(inflight: map<nat, nat>, workers: seq<Work>) {
    forall n | n in inflight :: exists w: nat :: w < |workers| && workers[w].Putting? && workers[w].n == n
  }

  lemma LandKeepsFlying(inflight: map<nat, nat>, workers: seq<Work>, w: nat, next: Work)
    requires Flying(inflight, workers) && w < |workers| && workers[w].Putting?
    ensures Flying(inflight - {workers[w].n}, workers[w := next])
  {
    var ws, left := workers[w := next], inflight - {workers[w].n};
    forall n | n in left ensures exists k: nat :: k < |ws| && ws[k].Putting? && ws[k].n == n {
      var k: nat :| k < |workers| && workers[k].Putting? && workers[k].n == n;
      assert ws[k] == workers[k];
    }
  }

  lemma TurnKeepsFlying(inflight: map<nat, nat>, workers: seq<Work>, w: nat, next: Work)
    requires Flying(inflight, workers) && w < |workers| && !workers[w].Putting?
    ensures Flying(inflight, workers[w := next])
  {
    var ws := workers[w := next];
    forall n | n in inflight ensures exists k: nat :: k < |ws| && ws[k].Putting? && ws[k].n == n {
      var k: nat :| k < |workers| && workers[k].Putting? && workers[k].n == n;
      assert ws[k] == workers[k];
    }
  }

  lemma FlyMore(inflight: map<nat, nat>, workers: seq<Work>, w: nat, loaded: nat)
    requires Flying(inflight, workers) && w < |workers| && workers[w].Putting?
    ensures Flying(inflight[workers[w].n := loaded], workers)
  {
  }

  /** Distinct parts weigh what the set of them weighs. */
  lemma AllBytes(size: nat, partSize: nat, parts: nat, list: seq<nat>)
    requires Numbers(parts, list)
    ensures SizeOf(size, partSize, parts, SetOf(list)) == Bytes(size, partSize, list)
  {
    BytesAway(size, partSize, parts, SetOf(list), list);
    assert SetOf(list) - SetOf(list) == {};
    SizeOfNone(size, partSize, parts);
  }

  /** The counter holds the bytes of the parts believed done: those the server named, or acknowledged since. */
  ghost predicate CountedIn(size: nat, partSize: nat, parts: nat, bytes: int, done: set<nat>, said: set<nat>, acked: set<nat>) {
    bytes == SizeOf(size, partSize, parts, done) &&
    forall n: nat :: n in done <==> 1 <= n <= parts && (n in said || n in acked)
  }

  lemma TakeBackCounts(size: nat, partSize: nat, parts: nat, bytes: int, done: set<nat>, said: set<nat>, acked: set<nat>, have: seq<nat>)
    requires CountedIn(size, partSize, parts, bytes, done, said, acked) && forall n: nat | 1 <= n <= parts :: n in done
    ensures var missing := ToSend(parts, have);
      CountedIn(size, partSize, parts, bytes - Bytes(size, partSize, missing), done - SetOf(missing), SetOf(have), {})
    ensures forall n: nat :: n in done - SetOf(ToSend(parts, have)) <==> 1 <= n <= parts && n in have
  {
    ToSendIsMissing(parts, have);
    var missing := ToSend(parts, have);
    hide ToSend;
    BytesAway(size, partSize, parts, done, missing);
    hide SizeOf, Bytes;
    forall n: nat ensures n in done - SetOf(missing) <==> 1 <= n <= parts && n in have { LeftIs(parts, have, missing, done, n); }
  }

  /** What a failed attempt makes of a worker: a pause and another attempt while its budgets last, else the end. */
  function AfterFailure(o: Work, e: Error, aborted: bool): Work
    requires o.Putting?
  {
    if aborted || !Retryable(e) then Gone
    else if Busy(e) && o.busy < BUSY_RETRIES then Pausing(o.n, o.attempt, o.busy + 1)
    else if o.attempt < RETRIES then Pausing(o.n, o.attempt + 1, o.busy)
    else Gone
  }

  /** What becomes of a worker, by the error, its counts and the abort alone. */
  lemma FailureDecides(o: Work, e: Error, aborted: bool)
    requires o.Putting? && WithinTries(o)
    ensures var next, mayRetry := AfterFailure(o, e, aborted), e.Http? ==> e.code == 408 || e.code == 429 || e.code >= 500;
      var waits := e.Http? && (e.code == 429 || e.code == 503) && e.retryAfter > 0 && o.busy < 60;
      (next == Gone || (next.Pausing? && WithinTries(next) && next.n == o.n && Left(next) <= Left(o))) && (Retryable(e) <==> mayRetry) &&
      (!aborted && waits ==> next == Pausing(o.n, o.attempt, o.busy + 1)) &&
      (!aborted && mayRetry && !waits && o.attempt < 5 ==> next == Pausing(o.n, o.attempt + 1, o.busy)) &&
      (!aborted && mayRetry && !waits && o.attempt >= 5 ==> next == Gone && o.attempt == RETRIES) &&
      (aborted || !mayRetry ==> next == Gone)
  {
  }

  ghost predicate HasAll(parts: nat, have: seq<nat>) {
    forall n: nat | 1 <= n <= parts :: n in have
  }

  lemma LeftIs(parts: nat, have: seq<nat>, missing: seq<nat>, done: set<nat>, n: nat)
    requires (n in done <==> 1 <= n <= parts) && (n in missing <==> 1 <= n <= parts && n !in have)
    ensures n in done - SetOf(missing) <==> 1 <= n <= parts && n in have
  {
  }

  lemma MissingIff(parts: nat, have: seq<nat>)
    ensures ToSend(parts, have) == [] <==> HasAll(parts, have)
  {
    ToSendIsMissing(parts, have);
    var t := ToSend(parts, have);
    if t != [] { assert t[0] in t; }
    hide ToSend;
  }

  /** A pass over `list` has started: its workers hold the first parts, or an abort has ended it at once. */
  ghost predicate Started(list: seq<nat>, queue: seq<nat>, workers: seq<Work>, failure: Option<Error>, aborted: bool) {
    && |workers| == (if |list| < 3 then |list| else 3)
    && if list != [] && aborted
       then queue == list[1..] && failure == Some(Aborted) && AllGone(workers)
       else queue == list[|workers|..] && failure == None && forall v | 0 <= v < |workers| :: workers[v] == Putting(list[v], 0, 0)
  }

  /** What follows a failed assembly round: asking which parts are missing, another round after a pause, or the end. */
  function AfterRound(e: Error, round: nat, aborted: bool): Stage {
    if e.Http? && e.code == 409 && round < 2 then Asking
    else if Retryable(e) && round < 2 then Between
    else Broken(if aborted then Aborted else e)
  }

  datatype PostReply = Assembled | Assembling | PostError(e: Error)

  class Uploader {
    const size: nat
    const partSize: nat
    const parts: nat

    var queue: seq<nat>
    var workers: seq<Work>
    var failure: Option<Error>
    var doneBytes: int
    var inflight: map<nat, nat>
    var shown: int
    var aborted: bool
    var stage: Stage
    var round: nat
    /** The upload can be resumed by the next attempt to send the same file. */
    var session: bool
    /** The server was told to drop the upload. */
    var dropped: bool

    /** Parts believed to be on the server, and why: it said so last, or acknowledged them since. */
    ghost var done: set<nat>
    ghost var said: set<nat>
    ghost var acked: set<nat>
    ghost var reports: seq<int>
    ghost var requests: nat
    ghost var fails: map<nat, nat>

    ghost predicate Counted()
      reads this`doneBytes, this`done, this`said, this`acked
    {
      CountedIn(size, partSize, parts, doneBytes, done, said, acked)
    }

    ghost predicate Bar()
      reads this`reports, this`shown
    {
      Shows(reports, shown, size)
    }

    ghost predicate AllDone()
      reads this`done
    {
      forall n: nat | 1 <= n <= parts :: n in done
    }

    /** While parts are sent they are shared out; from the assembly on every part is done. */
    ghost predicate Work_()
      reads this`queue, this`workers, this`failure, this`done, this`stage, this`inflight, this`fails, this`aborted
    {
      |workers| <= PARALLEL && (workers == [] ==> queue == []) && Flying(inflight, workers) &&
      Shared(parts, queue, workers, done, failure.Some?) && Tallied(workers, fails, failure, aborted) &&
      (!stage.Sending? && !stage.Broken? ==> failure.None? && AllGone(workers) && AllDone())
    }

    ghost predicate Budget()
      reads this`queue, this`workers, this`stage, this`round, this`requests
    {
      round <= 2 && (stage.Asking? || stage.Between? ==> round < 2) &&
      (stage.Posting? ==> stage.poll <= ASSEMBLY_POLLS) && (stage.Polling? ==> stage.poll < ASSEMBLY_POLLS) &&
      requests + RequestsLeft(parts, queue, workers, stage, round) <= RequestBound(parts) && requests <= RequestBound(parts)
    }

    /** A retryable failure can be resumed; success, an abort and a final refusal cannot, and the last two drop the upload. */
    ghost predicate Ended()
      reads this`stage, this`session, this`dropped
    {
      match stage
      case Finished => !session && !dropped
      case Broken(e) => session == (e != Aborted && Retryable(e)) && dropped == !session
      case _ => session && !dropped
    }

    ghost predicate Valid()
      reads this
    {
      Fits(size, partSize, parts) && Counted() && Bar() && Work_() && Budget() && Ended()
    }

    /** The whole file is uploaded, in at most this many requests, and the bar never went back. */
    lemma WhatItMeans()
      requires Valid()
      ensures requests <= 198 * parts + 905
      ensures 0 <= doneBytes <= size
      ensures NeverBack(reports) && forall i | 0 <= i < |reports| :: reports[i] <= size
      ensures stage.Posting? ==> (forall n: nat | 1 <= n <= parts :: n in said || n in acked) && doneBytes == size
      ensures forall w: nat, v: nat, n: nat | w < v < |workers| && Holds(workers[w], n) :: !Holds(workers[v], n)
    {
      BoundIs(parts);
      SizeOfSome(size, partSize, parts, parts, done);
      if stage.Posting? { SizeOfAll(size, partSize, parts, parts, done); }
    }

    method Report()
      requires Bar()
      modifies this`shown, this`reports
      ensures Bar() && shown >= old(shown) && reports == old(reports) + [shown]
      ensures shown == Most(old(shown), Least(doneBytes + OnTheWay(inflight, parts), size))
    {
      var next := Most(shown, Least(doneBytes + OnTheWay(inflight, parts), size));
      ReportOne(reports, shown, next, size);
      shown := next;
      reports := reports + [next];
    }

    /** A worker between parts takes the next one, unless none is left or the pass has failed. */
    method Next(w: nat)
      requires Work_() && Budget() && stage.Sending? && w < |workers| && workers[w] == Free
      modifies this`queue, this`workers, this`failure, this`requests, this`fails
      ensures Work_() && Budget() && |workers| == |old(workers)|
      ensures forall v | 0 <= v < |workers| && v != w :: workers[v] == old(workers[v])
      ensures old(queue) != [] && old(failure).None? && !aborted ==>
        queue == old(queue)[1..] && workers[w] == Putting(old(queue)[0], 0, 0) && failure == None && requests == old(requests) + 1
      ensures old(queue) == [] || old(failure).Some? || aborted ==> workers[w] == Gone && requests == old(requests)
      ensures old(queue) != [] && old(failure).None? && aborted ==> queue == old(queue)[1..] && failure == Some(Aborted)
      ensures old(queue) == [] || old(failure).Some? ==> queue == old(queue) && failure == old(failure)
    {
      hide Shared, Flying, RoundsLeft, LeftAll;
      if queue != [] && failure.None? {
        if aborted { TakeAborted(w); } else { TakePart(w); }
      } else {
        Leave(w);
      }
    }

    method TakePart(w: nat)
      requires Work_() && Budget() && stage.Sending? && w < |workers| && workers[w] == Free && queue != [] && failure.None?
      modifies this`queue, this`workers, this`requests, this`fails
      ensures Work_() && Budget() && queue == old(queue)[1..] && requests == old(requests) + 1
      ensures workers == old(workers)[w := Putting(old(queue)[0], 0, 0)] && fails == old(fails)[old(queue)[0] := 0]
    {
      TakeKeepsShared(parts, queue, workers, done, failure.Some?, w);
      TurnKeepsFlying(inflight, workers, w, Putting(queue[0], 0, 0));
      LeftUpdate(workers, w, Putting(queue[0], 0, 0));
      TakeTallied(parts, queue, workers, done, fails, aborted, w);
      hide Shared, Flying, RoundsLeft, LeftAll, Tallied;
      fails := fails[queue[0] := 0];
      workers := workers[w := Putting(queue[0], 0, 0)];
      queue := queue[1..];
      requests := requests + 1;
    }

    /** The part is taken off the queue, and its first attempt finds the upload aborted. */
    method TakeAborted(w: nat)
      requires Work_() && Budget() && stage.Sending? && w < |workers| && workers[w] == Free && queue != [] && failure.None? && aborted
      modifies this`queue, this`workers, this`failure
      ensures Work_() && Budget() && failure == Some(Aborted) && workers == old(workers)[w := Gone] && queue == old(queue)[1..]
    {
      var held := workers[w := Putting(queue[0], 0, 0)];
      TakeKeepsShared(parts, queue, workers, done, failure.Some?, w);
      FailKeepsShared(parts, queue[1..], held, done, failure.Some?, w, Gone);
      TurnKeepsFlying(inflight, workers, w, Gone);
      LeftUpdate(workers, w, Gone);
      EndTallied(workers, fails, failure, aborted, w, Gone);
      assert held[w := Gone] == workers[w := Gone];
      hide Shared, Flying, RoundsLeft, LeftAll, Tallied;
      workers := workers[w := Gone];
      queue := queue[1..];
      failure := Some(Aborted);
    }

    method Leave(w: nat)
      requires Work_() && Budget() && stage.Sending? && w < |workers| && workers[w] == Free && (queue == [] || failure.Some?)
      modifies this`workers
      ensures Work_() && Budget() && workers == old(workers)[w := Gone]
    {
      LeaveKeepsShared(parts, queue, workers, done, failure.Some?, w);
      TurnKeepsFlying(inflight, workers, w, Gone);
      LeftUpdate(workers, w, Gone);
      EndTallied(workers, fails, failure, aborted, w, Gone);
      hide Shared, Flying, RoundsLeft, LeftAll, Tallied;
      workers := workers[w := Gone];
    }

    /** All workers of a new pass start at once and take a part each. */
    method StartWorkers()
      requires Work_() && Budget() && stage.Sending? && failure == None && forall w | 0 <= w < |workers| :: workers[w] == Free
      requires |workers| == if |queue| < PARALLEL then |queue| else PARALLEL
      modifies this`queue, this`workers, this`failure, this`requests, this`fails
      ensures Work_() && Budget() && Started(old(queue), queue, workers, failure, aborted)
      ensures requests == old(requests) + if aborted then 0 else |workers|
    {
      hide Work_, Budget;
      var w := 0;
      while w < |workers|
        invariant 0 <= w <= |workers| == |old(workers)| && Work_() && Budget()
        invariant forall v | w <= v < |workers| :: workers[v] == Free
        invariant requests == old(requests) + if aborted then 0 else w
        invariant if aborted && w > 0
          then queue == old(queue)[1..] && failure == Some(Aborted) && forall v | 0 <= v < w :: workers[v] == Gone
          else queue == old(queue)[w..] && failure == None && forall v | 0 <= v < w :: workers[v] == Putting(old(queue)[v], 0, 0)
      {
        Next(w);
        w := w + 1;
      }
    }

    /** The queue for a pass over these parts. */
    method Enqueue(list: seq<nat>)
      requires Numbers(parts, list) && forall n: nat :: 1 <= n <= parts <==> n in list || n in done
      requires forall n | n in list :: n !in done
      requires round <= 2 && |list| <= parts && requests <= RequestBound(parts)
      requires requests + TRIES * |list| + RoundsLeft(parts, round) <= RequestBound(parts)
      modifies this`queue, this`workers, this`failure, this`requests, this`stage, this`inflight, this`fails
      ensures Work_() && Budget() && stage == Sending && inflight == map[] && Started(list, queue, workers, failure, aborted)
      ensures requests == old(requests) + if aborted then 0 else |workers|
    {
      var count := if |list| < PARALLEL then |list| else PARALLEL;
      stage, queue, failure, inflight, fails := Sending, list, None, map[], map[];
      workers := seq(count, _ => Free);
      FreshPass(parts, list, done, count);
      LeftOfFree(count);
      hide Shared, LeftAll, RoundsLeft;
      StartWorkers();
    }

    /** The server has told which parts it has; the upload starts, or goes on. */
    constructor (size: nat, partSize: nat, parts: nat, have: seq<nat>, aborted: bool)
      requires Fits(size, partSize, parts) && Numbers(parts, have)
      ensures Valid() && this.size == size && this.parts == parts && this.partSize == partSize && this.aborted == aborted
      ensures stage == Sending && round == 0 && done == SetOf(have) && inflight == map[] && reports == [doneBytes]
      ensures Started(ToSend(parts, have), queue, workers, failure, aborted) && requests == if aborted then 0 else |workers|
    {
      this.size, this.partSize, this.parts, this.aborted := size, partSize, parts, aborted;
      queue, workers, failure, inflight, shown, stage, round := [], [], None, map[], 0, Sending, 0;
      session, dropped := true, false;
      done, said, acked, reports, requests, fails := SetOf(have), SetOf(have), {}, [], 0, map[];
      doneBytes := 0;
      new;
      hide Work_, Budget, Counted, Bar, Ended;
      Begin(have);
      assert Ended() by { assert stage == Sending && session && !dropped; }
    }

    method Begin(have: seq<nat>)
      requires Fits(size, partSize, parts) && Numbers(parts, have) && done == said == SetOf(have) && acked == {}
      requires round == 0 && requests == 0 && reports == [] && shown == 0 && inflight == map[]
      modifies this`queue, this`workers, this`failure, this`requests, this`stage, this`inflight, this`doneBytes, this`shown, this`reports
      modifies this`fails
      ensures Counted() && Bar() && Work_() && Budget() && stage == Sending && inflight == map[] && reports == [doneBytes]
      ensures Started(ToSend(parts, have), queue, workers, failure, aborted) && requests == if aborted then 0 else |workers|
    {
      SizeOfSome(size, partSize, parts, parts, done);
      NothingOnTheWay(parts);
      AllBytes(size, partSize, parts, have);
      doneBytes := CountBytes(size, partSize, have);
      assert Counted();
      hide SizeOf, Counted, Bytes, RoundsLeft, Work_, Budget;
      assert Bar();
      Report();
      hide Bar;
      FirstPass(have);
    }

    method FirstPass(have: seq<nat>)
      requires Numbers(parts, have) && done == SetOf(have) && round == 0 && requests == 0
      modifies this`queue, this`workers, this`failure, this`requests, this`stage, this`inflight, this`fails
      ensures Work_() && Budget() && stage == Sending && inflight == map[]
      ensures Started(ToSend(parts, have), queue, workers, failure, aborted) && requests == if aborted then 0 else |workers|
    {
      var list := PartsToSend(parts, have);
      ToSendIsMissing(parts, have);
      EnoughRequests(|list|, parts);
      hide Work_, Budget, RoundsLeft, ToSend;
      Enqueue(list);
    }

    /** Bytes arrive at the server. */
    method Progress(w: nat, loaded: nat)
      requires Valid() && stage.Sending? && w < |workers| && workers[w].Putting?
      modifies this`inflight, this`shown, this`reports
      ensures Valid() && shown >= old(shown) && reports == old(reports) + [shown]
      ensures inflight == old(inflight)[workers[w].n := loaded]
      ensures shown == Most(old(shown), Least(doneBytes + OnTheWay(inflight, parts), size))
    {
      hide Shared, Counted, Shows, LeftAll, RoundsLeft;
      FlyMore(inflight, workers, w, loaded);
      inflight := inflight[workers[w].n := loaded];
      hide Flying;
      Report();
    }

    /** The server acknowledges a part; its worker goes on. */
    method PutOk(w: nat)
      requires Valid() && stage.Sending? && w < |workers| && workers[w].Putting?
      modifies this`inflight, this`shown, this`reports, this`doneBytes, this`done, this`acked
      modifies this`queue, this`workers, this`failure, this`requests, this`fails
      ensures Valid() && shown >= old(shown) && done == old(done) + {old(workers[w]).n} && old(workers[w]).n !in old(done)
      ensures doneBytes == old(doneBytes) + PartSize(size, partSize, old(workers[w]).n)
      ensures acked == old(acked) + {old(workers[w]).n} && inflight == old(inflight) - {old(workers[w]).n}
      ensures reports == old(reports) + [shown] && shown == Most(old(shown), Least(doneBytes + OnTheWay(inflight, parts), size))
      ensures |workers| == |old(workers)| && forall v | 0 <= v < |workers| && v != w :: workers[v] == old(workers[v])
      ensures workers[w] == if old(queue) == [] || old(failure).Some? || aborted then Gone else Putting(old(queue)[0], 0, 0)
    {
      hide Work_, Budget, Counted, Shows, PartSize, OnTheWay;
      Acknowledge(w);
      Report();
      Next(w);
    }

    method Acknowledge(w: nat)
      requires Counted() && Work_() && Budget() && stage.Sending? && w < |workers| && workers[w].Putting?
      modifies this`inflight, this`doneBytes, this`done, this`acked, this`workers
      ensures Counted() && Work_() && Budget() && workers == old(workers)[w := Free] && done == old(done) + {old(workers[w]).n}
      ensures doneBytes == old(doneBytes) + PartSize(size, partSize, old(workers[w]).n) && old(workers[w]).n !in old(done)
      ensures acked == old(acked) + {old(workers[w]).n} && inflight == old(inflight) - {old(workers[w]).n}
    {
      hide SizeOf, RoundsLeft;
      var n := workers[w].n;
      AckKeepsShared(parts, queue, workers, done, failure.Some?, w, n);
      LandKeepsFlying(inflight, workers, w, Free);
      LeftUpdate(workers, w, Free);
      EndTallied(workers, fails, failure, aborted, w, Free);
      SizeOfPlus(size, partSize, parts, done, n);
      hide Shared, LeftAll, RoundsLeft, Flying, SizeOf, Tallied;
      inflight := inflight - {n};
      doneBytes := doneBytes + PartSize(size, partSize, n);
      done, acked := done + {n}, acked + {n};
      workers := workers[w := Free];
    }

    /**
     * An attempt fails. An error without a status, or with 408, 429 or 500 and more, may be tried again: after a pause that
     * a busy server asked for (429 or 503), sixty times without counting; else five times. Any other error, one failure
     * more, or an abort ends the worker and the pass.
     */
    method PutFails(w: nat, e: Error)
      requires Valid() && stage.Sending? && w < |workers| && workers[w].Putting?
      modifies this`inflight, this`shown, this`reports, this`workers, this`failure, this`fails
      ensures Valid() && shown >= old(shown) && reports == old(reports) + [shown] && inflight == old(inflight) - {old(workers[w]).n}
      ensures |workers| == |old(workers)| && forall v | 0 <= v < |workers| && v != w :: workers[v] == old(workers[v])
      ensures var o := old(workers[w]);
        !aborted && e.Http? && (e.code == 429 || e.code == 503) && e.retryAfter > 0 && o.busy < 60 ==>
          workers[w] == Pausing(o.n, o.attempt, o.busy + 1) && failure == old(failure) && fails == old(fails)
      ensures var o := old(workers[w]);
        !aborted && (e.Http? ==> e.code == 408 || e.code == 429 || e.code >= 500) && o.attempt < 5 &&
        !(e.Http? && (e.code == 429 || e.code == 503) && e.retryAfter > 0 && o.busy < 60) ==>
          workers[w] == Pausing(o.n, o.attempt + 1, o.busy) && failure == old(failure) && fails == old(fails)[o.n := o.attempt + 1]
      ensures var o := old(workers[w]);
        !aborted && (e.Http? ==> e.code == 408 || e.code == 429 || e.code >= 500) && o.attempt >= 5 &&
        !(e.Http? && (e.code == 429 || e.code == 503) && e.retryAfter > 0 && o.busy < 60) ==>
          workers[w] == Gone && failure == (if old(failure).Some? then old(failure) else Some(Offline)) && fails == old(fails)[o.n := 6]
      ensures aborted || (e.Http? && e.code != 408 && e.code != 429 && e.code < 500) ==>
        workers[w] == Gone && fails == old(fails) &&
        failure == if old(failure).Some? then old(failure) else Some(if aborted then Aborted else e)
    {
      hide Shows, Counted, AfterFailure, Retryable, Busy, Work_, Budget;
      TriesLeft(w);
      var next := AfterFailure(workers[w], e, aborted);
      FailureDecides(workers[w], e, aborted);
      if next == Gone {
        GiveUp(w, if aborted then Aborted else if Retryable(e) then Offline else e, !aborted && Retryable(e));
      } else {
        Pause(w, next);
      }
      Report();
    }

    lemma TriesLeft(w: nat)
      requires Work_() && w < |workers|
      ensures WithinTries(workers[w])
    {
      hide Flying, Tallied, HeldOnce, NoneLost, QueueOk;
    }

    method Pause(w: nat, next: Work)
      requires Work_() && Budget() && stage.Sending? && w < |workers| && workers[w].Putting?
      requires next.Pausing? && WithinTries(next) && next.n == workers[w].n && Left(next) <= Left(workers[w])
      modifies this`inflight, this`workers, this`fails
      ensures Work_() && Budget() && workers == old(workers)[w := next] && inflight == old(inflight) - {old(workers[w]).n}
      ensures fails == if next.attempt == old(workers[w]).attempt then old(fails) else old(fails)[next.n := next.attempt]
    {
      MoveKeepsShared(parts, queue, workers, done, failure.Some?, w, next);
      LandKeepsFlying(inflight, workers, w, next);
      LeftUpdate(workers, w, next);
      MoveTallied(parts, queue, workers, done, failure.Some?, fails, failure, aborted, w, next);
      assert next.n in fails && fails[next.n] == workers[w].attempt;
      assert next.attempt == workers[w].attempt ==> fails[next.n := next.attempt] == fails;
      hide Shared, LeftAll, RoundsLeft, Flying, Tallied;
      inflight := inflight - {workers[w].n};
      fails := fails[next.n := next.attempt];
      workers := workers[w := next];
    }

    method GiveUp(w: nat, e: Error, ghost spent: bool)
      requires Work_() && Budget() && stage.Sending? && w < |workers| && workers[w].Putting? && (e == Aborted ==> aborted)
      requires if spent then workers[w].attempt == RETRIES else e == Aborted || !Retryable(e)
      modifies this`inflight, this`workers, this`failure, this`fails
      ensures inflight == old(inflight) - {old(workers[w]).n}
      ensures Work_() && Budget() && workers == old(workers)[w := Gone] && failure == (if old(failure).Some? then old(failure) else Some(e))
      ensures fails == if spent then old(fails)[old(workers[w]).n := RETRIES + 1] else old(fails)
    {
      FailKeepsShared(parts, queue, workers, done, failure.Some?, w, Gone);
      LandKeepsFlying(inflight, workers, w, Gone);
      LeftUpdate(workers, w, Gone);
      GiveUpTallied(parts, queue, workers, done, failure.Some?, fails, failure, aborted, w, e, spent);
      hide Shared, LeftAll, RoundsLeft, Flying, Tallied;
      inflight := inflight - {workers[w].n};
      if spent { fails := fails[workers[w].n := RETRIES + 1]; }
      if failure.None? { failure := Some(e); }
      workers := workers[w := Gone];
    }

    /**
     * Why a pass ends early: the person aborted, the server refused a part for good, or one part failed six times in an
     * ordinary way. Nothing less ends it.
     */
    lemma FailsOnlyFor()
      requires Valid() && failure.Some?
      ensures (failure.value == Aborted && aborted) || (failure.value.Http? && !Retryable(failure.value)) ||
        exists n :: n in fails && fails[n] == 6
    {
    }

    /** A pause is over: the part is sent again, unless the upload was aborted. */
    method PauseEnds(w: nat)
      requires Valid() && stage.Sending? && w < |workers| && workers[w].Pausing?
      modifies this`workers, this`failure, this`requests
      ensures Valid()
      ensures workers == old(workers)[w := if aborted then Gone else Putting(old(workers[w]).n, old(workers[w]).attempt, old(workers[w]).busy)]
      ensures requests == old(requests) + if aborted then 0 else 1
      ensures failure == if aborted && old(failure).None? then Some(Aborted) else old(failure)
    {
      hide Work_, Budget, Counted, Bar;
      if aborted {
        Quit(w);
      } else {
        SendAgain(w);
      }
    }

    method Quit(w: nat)
      requires Work_() && Budget() && stage.Sending? && w < |workers| && workers[w].Pausing? && aborted
      modifies this`workers, this`failure
      ensures Work_() && Budget() && workers == old(workers)[w := Gone]
      ensures failure == if old(failure).None? then Some(Aborted) else old(failure)
    {
      FailKeepsShared(parts, queue, workers, done, failure.Some?, w, Gone);
      TurnKeepsFlying(inflight, workers, w, Gone);
      LeftUpdate(workers, w, Gone);
      EndTallied(workers, fails, failure, aborted, w, Gone);
      hide Shared, LeftAll, RoundsLeft, Flying, Tallied;
      if failure.None? { failure := Some(Aborted); }
      workers := workers[w := Gone];
    }

    method SendAgain(w: nat)
      requires Work_() && Budget() && stage.Sending? && w < |workers| && workers[w].Pausing?
      modifies this`workers, this`requests
      ensures Work_() && Budget() && requests == old(requests) + 1
      ensures workers == old(workers)[w := Putting(old(workers[w]).n, old(workers[w]).attempt, old(workers[w]).busy)]
    {
      var next := Putting(workers[w].n, workers[w].attempt, workers[w].busy);
      assert WithinTries(workers[w]);
      MoveKeepsShared(parts, queue, workers, done, failure.Some?, w, next);
      TurnKeepsFlying(inflight, workers, w, next);
      LeftUpdate(workers, w, next);
      MoveTallied(parts, queue, workers, done, failure.Some?, fails, failure, aborted, w, next);
      assert fails[next.n := next.attempt] == fails;
      hide Shared, LeftAll, RoundsLeft, Flying, Tallied;
      workers := workers[w := next];
      requests := requests + 1;
    }

    /** The person cancels: from now on no attempt starts, and whatever the upload waits for next ends it. */
    method Abort()
      requires Valid()
      modifies this`aborted
      ensures Valid() && aborted
    {
      aborted := true;
    }

    // ----- putting the file together -----

    /** The upload ends with this error: an abort and a final refusal drop it on the server, anything else can be resumed. */
    method Break(e: Error)
      requires Work_() && Budget() && Ended() && !stage.Finished? && !stage.Broken?
      modifies this`stage, this`session, this`dropped
      ensures Work_() && Budget() && Ended() && stage == Broken(if aborted then Aborted else e)
    {
      hide Shared, Flying, LeftAll;
      var err := if aborted then Aborted else e;
      stage := Broken(err);
      if err == Aborted || !Retryable(err) { session, dropped := false, true; }
    }

    /** Asks the server to put the file together. */
    method PostComplete(poll: nat)
      requires Work_() && Ended() && !stage.Finished? && !stage.Broken? && failure.None? && AllGone(workers) && AllDone()
      requires round <= 2 && poll <= ASSEMBLY_POLLS && requests + RoundsLeft(parts, round) - poll <= RequestBound(parts)
      modifies this`stage, this`requests
      ensures Work_() && Budget() && Ended() && stage == Posting(poll) && requests == old(requests) + 1
    {
      assert RoundsLeft(parts, round) > ASSEMBLY_POLLS;
      hide Shared, Flying, LeftAll, RoundsLeft;
      stage := Posting(poll);
      requests := requests + 1;
    }

    /** All workers are gone: the file is put together, or the error that ended the pass goes up. */
    method PassEnds()
      requires Valid() && stage.Sending? && AllGone(workers)
      modifies this`stage, this`requests, this`session, this`dropped
      ensures Valid()
      ensures failure.Some? ==> stage == Broken(if aborted then Aborted else failure.value)
      ensures failure.None? && aborted ==> stage == Broken(Aborted)
      ensures failure.None? && !aborted ==> stage == Posting(0) && doneBytes == size
      ensures requests == old(requests) + if stage.Posting? then 1 else 0
    {
      hide Counted, Bar;
      if failure.Some? {
        Break(failure.value);
      } else {
        PassCompletes(parts, queue, workers, done);
        if aborted { Break(Aborted); } else { PostComplete(0); }
        DoneIsSize();
      }
    }

    lemma DoneIsSize()
      requires Fits(size, partSize, parts) && Counted() && AllDone()
      ensures doneBytes == size
    {
      SizeOfAll(size, partSize, parts, parts, done);
    }

    /** The server answers: done, still at it, or an error. */
    method PostReplies(reply: PostReply)
      requires Valid() && stage.Posting?
      modifies this`stage, this`requests, this`session, this`dropped, this`shown, this`reports
      ensures Valid()
      ensures reply.Assembled? ==> stage == Finished && !session && reports == old(reports) + [size] && requests == old(requests)
      ensures reply.Assembling? && old(stage).poll < ASSEMBLY_POLLS ==> stage == Polling(old(stage).poll) && requests == old(requests)
      ensures reply.Assembling? && old(stage).poll >= ASSEMBLY_POLLS ==> stage == AfterRound(Offline, round, aborted)
      ensures reply.PostError? ==> stage == AfterRound(reply.e, round, aborted)
      ensures !reply.Assembled? ==> requests == old(requests) + (if stage == Asking then 1 else 0) && shown == old(shown) && reports == old(reports)
    {
      hide Counted, Shared, Flying, LeftAll;
      match reply
      case Assembled =>
        ReportOne(reports, shown, size, size);
        shown, reports := size, reports + [size];
        stage, session := Finished, false;
      case Assembling =>
        if stage.poll >= ASSEMBLY_POLLS { RoundFails(Offline); } else { stage := Polling(stage.poll); }
      case PostError(e) =>
        RoundFails(e);
    }

    /** Time to ask again whether the file is together. */
    method PollEnds()
      requires Valid() && stage.Polling?
      modifies this`stage, this`requests, this`session, this`dropped
      ensures Valid()
      ensures stage == if aborted then AfterRound(Aborted, round, true) else Posting(old(stage).poll + 1)
      ensures requests == old(requests) + if aborted then 0 else 1
    {
      hide Counted, Bar, Shared, Flying, LeftAll, RoundsLeft;
      if aborted { RoundFails(Aborted); } else { PostComplete(stage.poll + 1); }
    }

    /** An assembly round fails: ask which parts are missing, or pause and try once more, at most twice. */
    method RoundFails(e: Error)
      requires Work_() && Budget() && Ended() && (stage.Posting? || stage.Polling?)
      modifies this`stage, this`requests, this`session, this`dropped
      ensures Work_() && Budget() && Ended() && stage == AfterRound(e, round, aborted)
      ensures requests == old(requests) + if stage == Asking then 1 else 0
      ensures e.Http? && e.code == 409 && round < 2 ==> stage == Asking
      ensures (e.Http? ==> e.code == 408 || e.code == 429 || e.code >= 500) && round < 2 ==> stage == Between
      ensures round == 2 || (e.Http? && e.code != 408 && e.code != 409 && e.code != 429 && e.code < 500) ==>
        stage == Broken(if aborted then Aborted else e)
    {
      hide Shared, Flying, LeftAll;
      if e.Http? && e.code == 409 && round < 2 {
        stage := Asking;
        requests := requests + 1;
      } else if Retryable(e) && round < 2 {
        stage := Between;
      } else {
        Break(e);
      }
    }

    /** The pause between rounds is over. */
    method BetweenEnds()
      requires Valid() && stage.Between?
      modifies this`stage, this`requests, this`session, this`dropped, this`round
      ensures Valid() && round == old(round) + 1
      ensures if aborted then stage == Broken(Aborted) else stage == Posting(0) && requests == old(requests) + 1
    {
      hide Counted, Bar, Shared, Flying, LeftAll, RoundsLeft;
      if aborted {
        Break(Aborted);
        round := round + 1;
      } else {
        round := round + 1;
        PostComplete(0);
      }
    }

    /** The server says which parts it has: the missing ones leave the count and are sent again. */
    method Told(have: seq<nat>)
      requires Valid() && stage.Asking?
      modifies this`stage, this`requests, this`session, this`dropped, this`round, this`doneBytes, this`done, this`said, this`acked
      modifies this`queue, this`workers, this`failure, this`inflight, this`fails
      ensures Valid()
      ensures !HasAll(parts, have) ==>
        stage == Sending && round == old(round) + 1 && forall n: nat :: n in done <==> 1 <= n <= parts && n in have
      ensures !HasAll(parts, have) ==> inflight == map[] && Started(ToSend(parts, have), queue, workers, failure, aborted)
      ensures HasAll(parts, have) ==> stage == Broken(if aborted then Aborted else Http(409, 0)) && done == old(done)
    {
      var missing := PartsToSend(parts, have);
      MissingIff(parts, have);
      hide Bar, Work_, Counted, Budget, ToSend, HasAll;
      if missing == [] {
        Break(Http(409, 0));
      } else {
        TakeBack(missing, have);
        SendMissing(missing, have);
      }
    }

    method SendMissing(missing: seq<nat>, have: seq<nat>)
      requires Budget() && stage.Asking? && missing == ToSend(parts, have)
      requires forall n: nat :: n in done <==> 1 <= n <= parts && n in have
      modifies this`stage, this`requests, this`round, this`queue, this`workers, this`failure, this`inflight, this`fails
      ensures Work_() && Budget() && stage == Sending && round == old(round) + 1 && inflight == map[]
      ensures Started(missing, queue, workers, failure, aborted)
    {
      ToSendIsMissing(parts, have);
      round := round + 1;
      hide Work_, RoundsLeft, Shared, LeftAll, Flying;
      Enqueue(missing);
    }

    method TakeBack(missing: seq<nat>, have: seq<nat>)
      requires Counted() && Work_() && stage.Asking? && missing == ToSend(parts, have)
      modifies this`doneBytes, this`done, this`said, this`acked
      ensures Counted() && forall n: nat :: n in done <==> 1 <= n <= parts && n in have
    {
      assert AllDone();
      hide Work_, ToSend, CountedIn, Bytes;
      TakeBackCounts(size, partSize, parts, doneBytes, done, said, acked, have);
      var away := CountBytes(size, partSize, missing);
      doneBytes := doneBytes - away;
      done, said, acked := done - SetOf(missing), SetOf(have), {};
    }

    method AskFails(e: Error)
      requires Valid() && stage.Asking?
      modifies this`stage, this`session, this`dropped
      ensures Valid() && stage == Broken(if aborted then Aborted else e)
    {
      hide Counted, Bar, Shared, Flying, LeftAll, RoundsLeft;
      Break(e);
    }
  }
}
