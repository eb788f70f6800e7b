/**
 * The order in which MIAPIClient takes and releases its `NSLock` while a
 * request is retried after a re-login. The lock is not recursive: taking
 * it while it is held blocks until someone releases it, and when the only
 * release due is later in the same chain of calls, it blocks for ever.
 * Only the synchronous part of each completion is traced: a request's
 * response arrives after the code that sent it has run to its end.
 */
module ClientLock {
  import opened Wrappers

  datatype LockOp = Acquire | Release

  /**
   * Runs `ops` from one chain of calls against a lock that starts `held`
   * or free; `None` when an `Acquire` finds the lock held, since nothing
   * else would release it.
   */
  function Run(held: bool, ops: seq<LockOp>): Option<bool>
    decreases |ops|
  {
    if ops == [] then Some(held)
    else if ops[0] == Acquire then (if held then None else Run(true, ops[1..]))
    else Run(false, ops[1..])
  }

  /** `fetch`: the token is read under the lock, and both branches release it before going on. */
  const FetchOps := [Acquire, Release]

  /** `withTryAuth` as written: the lock is taken first and released only after the handler has run. */
  function TryAuthAsWritten(handler: seq<LockOp>): seq<LockOp> {
    [Acquire] + handler + [Release]
  }

  /** `withTryAuth` corrected: the lock is released once the new token is stored, before the handler runs. */
  function TryAuthCorrected(handler: seq<LockOp>): seq<LockOp> {
    [Acquire, Release] + handler
  }

  function TryAuth(corrected: bool, handler: seq<LockOp>): seq<LockOp> {
    if corrected then TryAuthCorrected(handler) else TryAuthAsWritten(handler)
  }

  /**
   * The lock operations of a request whose server turns it away `n` times
   * (a 401, or no token on hand) while every re-login succeeds: the first
   * `fetch`, then per round the re-login whose success handler calls
   * `fetch` again.
   */
  function Trace(corrected: bool, n: nat): seq<LockOp> {
    if n == 0 then FetchOps else Trace(corrected, n - 1) + TryAuth(corrected, FetchOps)
  }

  /** Running two stretches one after the other is running the first, then the second from where it left the lock. */
  lemma {:induction false} RunAppend(held: bool, a: seq<LockOp>, b: seq<LockOp>)
    ensures Run(held, a + b) == if Run(held, a).None? then None else Run(Run(held, a).value, b)
    decreases |a|
  {
    if a != [] {
      assert (a + b)[0] == a[0] && (a + b)[1..] == a[1..] + b;
      if a[0] == Acquire {
        if !held { RunAppend(true, a[1..], b); }
      } else {
        RunAppend(false, a[1..], b);
      }
    } else {
      assert a + b == b;
    }
  }

  /** One `fetch` alone gives the lock back as it found it free, and blocks if it finds it held. */
  lemma FetchOpsRun()
    ensures Run(false, FetchOps) == Some(false) && Run(true, FetchOps) == None
    ensures Run(false, [Acquire]) == Some(true)
  {
  }

  /** A request served without re-login, or with the corrected order through any number of re-logins, leaves the lock free. */
  lemma {:induction false} CorrectedLeavesLockFree(n: nat)
    ensures Run(false, Trace(true, n)) == Some(false)
  {
    FetchOpsRun();
    if n > 0 {
      CorrectedLeavesLockFree(n - 1);
      RunAppend(false, Trace(true, n - 1), TryAuth(true, FetchOps));
      assert TryAuth(true, FetchOps) == FetchOps + FetchOps;
      RunAppend(false, FetchOps, FetchOps);
    }
  }

  /** As written, the first successful re-login blocks the client: its handler's `fetch` waits for the lock `withTryAuth` still holds. */
  lemma {:induction false} AsWrittenRetryBlocks(n: nat)
    requires n >= 1
    ensures Run(false, Trace(false, n)) == None
    ensures Run(false, Trace(false, 0)) == Some(false)
  {
    FetchOpsRun();
    if n == 1 {
      RunAppend(false, FetchOps, TryAuth(false, FetchOps));
      RunAppend(false, [Acquire] + FetchOps, [Release]);
      RunAppend(false, [Acquire], FetchOps);
    } else {
      AsWrittenRetryBlocks(n - 1);
      RunAppend(false, Trace(false, n - 1), TryAuth(false, FetchOps));
    }
  }

  /** As written, a failed re-login does not block: its handler only completes with the error and takes no lock. */
  lemma AsWrittenFailedLoginReleases()
    ensures Run(false, FetchOps + TryAuthAsWritten([])) == Some(false)
  {
    FetchOpsRun();
    assert TryAuthAsWritten([]) == FetchOps;
    RunAppend(false, FetchOps, FetchOps);
  }
}
