/**
 * What the two worker roles share (Ntswf::Worker): the reason sentinel that
 * asks for a task to be scheduled again, and the bounded retry of a block.
 */
module Worker {
  import opened RubyValues

  /** The *reason* value that forces a task to be rescheduled. */
  const Retry := "Retry"

  /** What one run of a block does: return, or raise. */
  datatype Attempt = Succeeded | Failed(exception: Exception)

  /** Worker#with_retry: runs the block (its n-th run, counting from 0,
      behaves as `block(n)`) until it returns. A StandardError is rescued
      and the block run again while `allowedFailures` rescues remain; any
      other exception, or a StandardError once they are used up, is raised.
      Returns how often the block ran and what was raised, if anything. */
  method WithRetry(allowedFailures: nat, block: nat -> Attempt) returns (calls: nat, raised: Option<Exception>)
    ensures 1 <= calls <= allowedFailures + 1
    ensures forall n :: 0 <= n < calls - 1 ==> block(n).Failed? && block(n).exception.standard
    ensures raised.None? <==> block(calls - 1).Succeeded?
    ensures raised.Some? ==>
      block(calls - 1) == Failed(raised.value) && (calls == allowedFailures + 1 || !raised.value.standard)
  {
    var remaining := allowedFailures;
    calls := 0;
    while true
      invariant calls + remaining == allowedFailures
      invariant forall n :: 0 <= n < calls ==> block(n).Failed? && block(n).exception.standard
      decreases remaining
    {
      var outcome := block(calls);
      calls := calls + 1;
      match outcome {
        case Succeeded =>
          return calls, None;
        case Failed(e) =>
          if !e.standard || remaining == 0 {
            return calls, Some(e);
          }
          remaining := remaining - 1;
      }
    }
  }

  const Forced := RuntimeError("forced exception")

  /** A block that raises a RuntimeError on its first two runs and returns
      on the third. */
  function FailTwice(n: nat): Attempt {
    if n < 2 then Failed(Forced) else Succeeded
  }

  /** With no retries the failure of the first run is raised; with one, the
      second failure is raised after two runs; with two or more, the third
      run returns. */
  method RetryFailTwice(allowedFailures: nat) returns (calls: nat, raised: Option<Exception>)
    ensures allowedFailures < 2 ==> calls == allowedFailures + 1 && raised == Some(Forced)
    ensures allowedFailures >= 2 ==> calls == 3 && raised.None?
  {
    calls, raised := WithRetry(allowedFailures, FailTwice);
    assert FailTwice(0) == FailTwice(1) == Failed(Forced) && FailTwice(2) == Succeeded;
  }

  /** Only StandardErrors are retried: any other exception is raised from
      the first run. */
  method RetryNonStandard(allowedFailures: nat, e: Exception) returns (calls: nat, raised: Option<Exception>)
    requires !e.standard
    ensures calls == 1 && raised == Some(e)
  {
    var block := (n: nat) => Failed(e);
    calls, raised := WithRetry(allowedFailures, block);
    assert block(0) == Failed(e) && !block(0).exception.standard;
    assert block(calls - 1) == Failed(e);
  }
}
