/** The per-test transactional isolation wrapper: what one invocation of the
    function returned by `Inject` does (dbtesting.go:73-96). */
module Isolation {
  import opened Base
  import opened State

  /** What `state.DB.BeginTx` returns. */
  datatype TxBegin = Began(tx: Tx) | BeginFailed(error: Error)

  /** How the test body leaves: by returning, by `runtime.Goexit` (what
      `t.Fatal`, `t.FailNow` and `t.SkipNow` do inside the body), or by a panic
      with a non-nil value. */
  datatype BodyExit = Returned | Exited | Panicked(payload: string)

  /** How the wrapped test ends, as seen by the `testing` package: skipped,
      failed fatally because no transaction could be opened, finished normally,
      still exiting its goroutine, or still panicking with the given value. */
  datatype TestEnd = Skipped | FailedBegin | Passed | GoroutineExit | Propagating(panic: Panic)

  /** The effects of one invocation, in order. There is no commit effect: the
      wrapper has no path that commits. */
  datatype TestEffect =
    | SkipMarked
    | BeginCalled
    | FatalLogged
    | BodyRan(tx: Tx)
    | RolledBack(tx: Tx)
    | RollbackLogged(duringPanic: bool)

  /** How the test ends once the body has left and the deferred rollback has run:
      decided by the body alone, whatever the rollback returned. */
  function EndAfterBody(body: BodyExit): (r: TestEnd)
    ensures body.Panicked? <==> r.Propagating?
    ensures body.Panicked? ==> r.panic == Raised(body.payload)
    ensures r != Skipped && r != FailedBegin
  {
    match body
    case Returned => Passed
    case Exited => GoroutineExit
    case Panicked(p) => Propagating(Raised(p))
  }

  /** True when the body was handed a transaction somewhere in `trace`. */
  predicate BodyRanIn(trace: seq<TestEffect>) {
    exists i | 0 <= i < |trace| :: trace[i].BodyRan?
  }

  /** One invocation of the wrapped test. `begin`, `body` and `rollback` are what
      `BeginTx`, the test body and `tx.Rollback` do; the shared state is only read. */
  method Inject(st: SharedState, begin: TxBegin, body: BodyExit, rollback: Outcome)
    returns (end: TestEnd, trace: seq<TestEffect>)
    // the body runs exactly when the test is not skipped and a transaction was opened
    ensures BodyRanIn(trace) <==> !st.skip && st.db.Some? && begin.Began?
    // a skipped test does nothing but mark itself skipped
    ensures st.skip ==> end == Skipped && trace == [SkipMarked]
    // with nothing published, BeginTx dereferences the nil handle
    ensures !st.skip && st.db.None? ==> end == Propagating(NilDereference) && trace == [BeginCalled]
    // a failed BeginTx fails the test fatally
    ensures !st.skip && st.db.Some? && begin.BeginFailed? ==>
      end == FailedBegin && trace == [BeginCalled, FatalLogged]
    // otherwise the body runs once on the new transaction, then exactly one rollback
    // of that transaction; a rollback error is only logged
    ensures !st.skip && st.db.Some? && begin.Began? ==>
      |trace| >= 3 && trace[..3] == [BeginCalled, BodyRan(begin.tx), RolledBack(begin.tx)]
      && trace[3..] == (if rollback.Failed? then [RollbackLogged(body.Panicked?)] else [])
    // ... and the test ends as the body left it: a panic is re-raised with its own value
    ensures !st.skip && st.db.Some? && begin.Began? ==> end == EndAfterBody(body)
  {
    if st.skip {
      // t.Skip ends the goroutine before anything else happens
      return Skipped, [SkipMarked];
    }
    trace := [BeginCalled];
    if st.db.None? {
      return Propagating(NilDereference), trace;
    }
    if begin.BeginFailed? {
      // t.Fatalf ends the goroutine before the rollback is deferred
      return FailedBegin, trace + [FatalLogged];
    }
    var tx := begin.tx;
    trace := trace + [BodyRan(tx)];
    // the deferred function: recover() is non-nil only for a panic, not for Goexit
    var recovered: Option<string> := if body.Panicked? then Some(body.payload) else None;
    trace := trace + [RolledBack(tx)];
    if rollback.Failed? {
      trace := trace + [RollbackLogged(recovered.Some?)];
    }
    if recovered.Some? {
      end := Propagating(Raised(recovered.value));
    } else if body.Exited? {
      end := GoroutineExit;
    } else {
      end := Passed;
    }
    assert trace[1].BodyRan?;
  }
}
