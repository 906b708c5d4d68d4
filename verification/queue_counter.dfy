/**
 * The process-wide counter `vectorQueueLen` that bounds how many vector
 * iterations run at once: `generateVector` admits an iteration only below
 * the configured maximum and counts it, and `reduceQueue` releases it.
 */
module QueueCounter {
  import opened Results

  /** `reduceQueue`: one less, floored at zero. */
  function ReduceQueue(n: int): (r: nat)
    ensures n > 0 ==> r == n - 1
    ensures n <= 0 ==> r == 0
  {
    if n > 0 then n - 1 else 0
  }

  /** The admission guard: refuse at or above the maximum, otherwise count the new iteration. */
  function TryAdmit(n: int, max: int): (r: Option<int>)
    ensures r.Some? <==> n < max
    ensures r.Some? ==> r.value == n + 1 && r.value <= max
  {
    if n >= max then None else Some(n + 1)
  }

  /** An admission followed by its release returns the counter to where it was. */
  lemma ReleaseUndoesAdmit(n: nat, max: int)
    requires n < max
    ensures ReduceQueue(TryAdmit(n, max).value) == n
  {
  }

  /** One counter operation as issued by some iteration. */
  datatype CounterOp = Admit | Release

  /** The counter after one operation; a refused admission leaves it unchanged. */
  function Apply(n: int, max: int, op: CounterOp): int {
    match op
    case Admit => TryAdmit(n, max).GetOr(n)
    case Release => ReduceQueue(n)
  }

  /** The counter stays within `[0, max]` at every point of the operation sequence. */
  ghost predicate StaysInRange(n: int, max: int, ops: seq<CounterOp>)
    decreases |ops|
  {
    && 0 <= n <= max
    && (ops != [] ==> StaysInRange(Apply(n, max, ops[0]), max, ops[1..]))
  }

  /**
   * Whatever the interleaving of admissions and releases, even a release
   * without a matching admission, the counter never leaves `[0, max]`.
   */
  lemma {:induction false} CounterStaysInRange(n: int, max: int, ops: seq<CounterOp>)
    requires 0 <= n <= max
    ensures StaysInRange(n, max, ops)
    decreases |ops|
  {
    if ops != [] {
      CounterStaysInRange(Apply(n, max, ops[0]), max, ops[1..]);
    }
  }
}
