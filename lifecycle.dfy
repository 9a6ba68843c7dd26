/** The process lifecycle orchestrator: `RunTests` and `runTests`
    (dbtesting.go:45-71, 105-145). Every call out of the package is an input
    taken from a `World`, and every run yields its exit status, the trace of its
    effects in the order they happen, and the shared state it leaves behind. */
module Lifecycle {
  import opened Base
  import opened Configuration
  import opened Dsn
  import opened State

  /** What the world outside the package answers: `testing.Short()`, the
      `DBTESTING_DSN` lookup, `sql.Open`, `PingContext`, `m.Run()` and `db.Close()`. */
  datatype World = World(
    short: bool,
    dsnEnv: Option<string>,
    open: Result<Handle>,
    ping: Outcome,
    runResult: int,
    close: Outcome)

  /** The operation a diagnostic line is about. */
  datatype Op = ConnectOp | PingOp | SetUpOp | CleanUpOp | CloseOp

  /** The effects of a run. `RunnerStarted` records the shared state the test
      runner sees when it is invoked. */
  datatype Effect =
    | SkipQueried
    | ConnectCalled
    | DriverOpened(driver: string, info: string)
    | Pinged(timeout: Duration)
    | SetUpCalled(timeout: Duration)
    | Published(db: Handle)
    | RunnerStarted(sawSkip: bool, sawDb: Option<Handle>)
    | CleanUpCalled(timeout: Duration)
    | CleanUpContextCancelled
    | SetUpContextCancelled
    | Closed(db: Handle)
    | Logged(op: Op)

  /** How the process leaves `RunTests`: with an exit status, or panicking. */
  datatype Exit = ExitCode(code: int) | Panicking(panic: Panic)

  /** A finished run: its exit, its effects and the final `state.Skip`/`state.DB`. */
  datatype Run = Run(exit: Exit, trace: seq<Effect>, skip: bool, db: Option<Handle>)

  function SkipDecision(f: SkipFn, w: World): bool {
    match f
    case ShortMode => w.short
    case CustomSkip(decision) => decision
  }

  /** Calling the connect function: its result and the effects of the call. */
  function ConnectStep(f: ConnectFn, w: World): (Result<Handle>, seq<Effect>) {
    match f
    case CustomConnect(result) => (result, [ConnectCalled])
    case DefaultConnect =>
      match DriverAndInfo(w.dsnEnv)
      case Err(e) => (Err(e), [ConnectCalled])
      case Ok((driver, info)) => (w.open, [ConnectCalled, DriverOpened(driver, info)])
  }

  function SetUpResult(f: SetUpFn): Outcome {
    match f
    case DefaultSetUp => Done
    case CustomSetUp(result) => result
  }

  function CleanUpResult(f: CleanUpFn): Outcome {
    match f
    case DefaultCleanUp => Done
    case CustomCleanUp(result) => result
  }

  /** `db.Close()`, its error only logged. */
  function CloseEffects(db: Handle, result: Outcome): seq<Effect> {
    [Closed(db)] + if result.Failed? then [Logged(CloseOp)] else []
  }

  /** The deferred cleanup closure: it calls the cleanup function under a fresh
      context (its deadline taken from the setup timeout it is given), logs its
      error, and cancels that context. A nil function panics at the call, and the
      closure's own deferred cancel still runs. */
  function CleanUpEffects(fn: Option<CleanUpFn>, timeout: Duration): seq<Effect> {
    match fn
    case None => [CleanUpContextCancelled]
    case Some(f) =>
      [CleanUpCalled(timeout)]
      + (if CleanUpResult(f).Failed? then [Logged(CleanUpOp)] else [])
      + [CleanUpContextCancelled]
  }

  /** A call `runTests` defers: the `db.Close` closure, the setup context's
      cancel, the cleanup closure. */
  datatype Deferred =
    | CloseDb(db: Handle, result: Outcome)
    | CancelSetUp
    | RunCleanUp(fn: Option<CleanUpFn>, timeout: Duration)

  function DeferredEffects(d: Deferred): seq<Effect> {
    match d
    case CloseDb(db, result) => CloseEffects(db, result)
    case CancelSetUp => [SetUpContextCancelled]
    case RunCleanUp(fn, timeout) => CleanUpEffects(fn, timeout)
  }

  function DeferredPanic(d: Deferred): Option<Panic> {
    if d.RunCleanUp? && d.fn.None? then Some(NilFuncCall) else None
  }

  /** The effects of running a defer stack at function exit: the calls above the
      bottom one first, the bottom one (deferred first) last. */
  function UnwindTrace(stack: seq<Deferred>): seq<Effect> {
    if stack == [] then [] else UnwindTrace(stack[1..]) + DeferredEffects(stack[0])
  }

  /** The panic the function exits with after its defer stack has run: a panic
      raised by a call that runs later replaces one raised earlier. */
  function UnwindPanic(stack: seq<Deferred>): Option<Panic> {
    if stack == [] then None
    else if DeferredPanic(stack[0]).Some? then DeferredPanic(stack[0])
    else UnwindPanic(stack[1..])
  }

  /** Deferring `b` after `a` runs `b`'s calls first, in reverse, then `a`'s. */
  lemma {:induction false} UnwindLifo(a: seq<Deferred>, b: seq<Deferred>)
    ensures UnwindTrace(a + b) == UnwindTrace(b) + UnwindTrace(a)
  {
    if a == [] {
      assert a + b == b;
    } else {
      var rest := a[1..];
      assert (a + b)[0] == a[0];
      assert (a + b)[1..] == rest + b;
      UnwindLifo(rest, b);
      assert UnwindTrace(a + b) == UnwindTrace(rest + b) + DeferredEffects(a[0]);
      assert UnwindTrace(a) == UnwindTrace(rest) + DeferredEffects(a[0]);
    }
  }

  /** A panic raised while `a`'s calls run (they run after `b`'s) replaces one
      raised by `b`'s. */
  lemma {:induction false} UnwindPanicLifo(a: seq<Deferred>, b: seq<Deferred>)
    ensures UnwindPanic(a + b) == if UnwindPanic(a).Some? then UnwindPanic(a) else UnwindPanic(b)
  {
    if a == [] {
      assert a + b == b;
    } else {
      assert (a + b)[0] == a[0];
      assert (a + b)[1..] == a[1..] + b;
      UnwindPanicLifo(a[1..], b);
    }
  }

  /** A call deferred last runs first. */
  lemma UnwindPush(stack: seq<Deferred>, d: Deferred)
    ensures UnwindTrace(stack + [d]) == DeferredEffects(d) + UnwindTrace(stack)
    ensures UnwindPanic(stack + [d]) == if UnwindPanic(stack).Some? then UnwindPanic(stack) else DeferredPanic(d)
  {
    UnwindLifo(stack, [d]);
    UnwindPanicLifo(stack, [d]);
    assert UnwindTrace([d]) == DeferredEffects(d) by {
      assert [d][1..] == [];
      assert [] + DeferredEffects(d) == DeferredEffects(d);
    }
  }

  /** Go's exit from a function with deferred calls: pop and run them one by one. */
  method RunDeferred(stack: seq<Deferred>) returns (trace: seq<Effect>, panic: Option<Panic>)
    ensures trace == UnwindTrace(stack)
    ensures panic == UnwindPanic(stack)
  {
    trace, panic := [], None;
    var i := |stack|;
    while i > 0
      invariant 0 <= i <= |stack|
      invariant trace == UnwindTrace(stack[i..])
      invariant panic == UnwindPanic(stack[i..])
    {
      var d := stack[i - 1];
      assert stack[i - 1..][1..] == stack[i..];
      trace := trace + DeferredEffects(d);
      if DeferredPanic(d).Some? {
        panic := DeferredPanic(d);
      }
      i := i - 1;
    }
    assert stack[0..] == stack;
  }

  /** After the handle is open and the setup context exists, the teardown on an
      early return: cancel the setup context, then close the handle. */
  function AbortTeardown(db: Handle, w: World): seq<Effect> {
    [SetUpContextCancelled] + CloseEffects(db, w.close)
  }

  /** What `runTests` does with a normalised configuration, when `state.DB` held
      `prior` beforehand. */
  function Execute(cfg: Config, w: World, prior: Option<Handle>): Run
    requires IsNormal(cfg)
  {
    if SkipDecision(cfg.skip.value, w) then
      Run(ExitCode(w.runResult), [SkipQueried, RunnerStarted(true, prior)], true, prior)
    else
      var (conn, connecting) := ConnectStep(cfg.connect.value, w);
      var reached := [SkipQueried] + connecting;
      match conn
      case Err(_) => Run(ExitCode(1), reached + [Logged(ConnectOp)], false, prior)
      case Ok(db) =>
        var t := cfg.setUpTimeout;
        if w.ping.Failed? then
          Run(ExitCode(1), reached + [Pinged(t), Logged(PingOp)] + AbortTeardown(db, w), false, prior)
        else if SetUpResult(cfg.setUp.value).Failed? then
          Run(ExitCode(1), reached + [Pinged(t), SetUpCalled(t), Logged(SetUpOp)] + AbortTeardown(db, w), false, prior)
        else
          Run(if cfg.cleanUp.None? then Panicking(NilFuncCall) else ExitCode(w.runResult),
              reached + [Pinged(t), SetUpCalled(t), Published(db), RunnerStarted(false, Some(db))]
              + CleanUpEffects(cfg.cleanUp, t) + AbortTeardown(db, w),
              false, Some(db))
  }

  /** `runTests`: updates the shared state step by step and keeps a defer stack
      that is unwound at every return after the handle is opened. */
  method Orchestrate(st: SharedState, cfg: Config, w: World) returns (exit: Exit, trace: seq<Effect>)
    requires IsNormal(cfg)
    modifies st
    ensures var r := Execute(cfg, w, old(st.db));
      exit == r.exit && trace == r.trace && st.skip == r.skip && st.db == r.db
  {
    trace := [SkipQueried];
    st.skip := SkipDecision(cfg.skip.value, w);
    if st.skip {
      trace := trace + [RunnerStarted(st.skip, st.db)];
      return ExitCode(w.runResult), trace;
    }

    var (conn, connecting) := ConnectStep(cfg.connect.value, w);
    trace := trace + connecting;
    if conn.Err? {
      trace := trace + [Logged(ConnectOp)];
      return ExitCode(1), trace;
    }
    var db := conn.value;
    var deferred: seq<Deferred> := [CloseDb(db, w.close)];

    var timeout := cfg.setUpTimeout;
    deferred := deferred + [CancelSetUp];
    UnwindPush([], CloseDb(db, w.close));
    UnwindPush([CloseDb(db, w.close)], CancelSetUp);
    assert UnwindTrace(deferred) == AbortTeardown(db, w);
    assert UnwindPanic(deferred) == None;
    ghost var reached := trace;

    trace := trace + [Pinged(timeout)];
    if w.ping.Failed? {
      trace := trace + [Logged(PingOp)];
      var teardown, _ := RunDeferred(deferred);
      assert trace + teardown == reached + [Pinged(timeout), Logged(PingOp)] + AbortTeardown(db, w);
      return ExitCode(1), trace + teardown;
    }

    trace := trace + [SetUpCalled(timeout)];
    if SetUpResult(cfg.setUp.value).Failed? {
      trace := trace + [Logged(SetUpOp)];
      var teardown, _ := RunDeferred(deferred);
      assert trace + teardown
        == reached + [Pinged(timeout), SetUpCalled(timeout), Logged(SetUpOp)] + AbortTeardown(db, w);
      return ExitCode(1), trace + teardown;
    }

    st.db := Some(db);
    trace := trace + [Published(db)];

    UnwindPush(deferred, RunCleanUp(cfg.cleanUp, timeout));
    deferred := deferred + [RunCleanUp(cfg.cleanUp, timeout)];

    trace := trace + [RunnerStarted(st.skip, st.db)];
    var code := w.runResult;
    var teardown, panic := RunDeferred(deferred);
    assert teardown == CleanUpEffects(cfg.cleanUp, timeout) + AbortTeardown(db, w);
    assert panic == if cfg.cleanUp.None? then Some(NilFuncCall) else None;
    trace := trace + teardown;
    assert trace == reached + [Pinged(timeout), SetUpCalled(timeout), Published(db), RunnerStarted(false, Some(db))]
      + CleanUpEffects(cfg.cleanUp, timeout) + AbortTeardown(db, w);
    exit := if panic.Some? then Panicking(panic.value) else ExitCode(code);
  }

  /** `RunTests` as written: default the configuration, then run the lifecycle.
      A nil `CleanUpFunc` stays nil. */
  method RunTests(st: SharedState, cfg: Config, w: World) returns (exit: Exit, trace: seq<Effect>)
    modifies st
    ensures var r := Execute(Defaulted(cfg), w, old(st.db));
      exit == r.exit && trace == r.trace && st.skip == r.skip && st.db == r.db
  {
    var normal := ApplyDefaults(cfg);
    exit, trace := Orchestrate(st, normal, w);
  }

  /** `RunTests` with the intended defaulting: a nil `CleanUpFunc` also gets the
      package's no-op `defaultCleanUp`, so a run never panics calling it. */
  method RunTestsWithCleanUpDefault(st: SharedState, cfg: Config, w: World) returns (exit: Exit, trace: seq<Effect>)
    modifies st
    ensures var r := Execute(DefaultedWithCleanUp(cfg), w, old(st.db));
      exit == r.exit && trace == r.trace && st.skip == r.skip && st.db == r.db
  {
    var normal := ApplyDefaults(cfg);
    if normal.cleanUp.None? {
      normal := normal.(cleanUp := Some(DefaultCleanUp));
    }
    exit, trace := Orchestrate(st, normal, w);
  }
}
