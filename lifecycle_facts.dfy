/** What a run of the lifecycle guarantees, stated over its trace: which steps
    happen, how often and in which order, what the exit status is and what the
    shared state holds afterwards (dbtesting.go:105-145). */
module LifecycleFacts {
  import opened Base
  import opened Configuration
  import opened Lifecycle

  /** The steps of the lifecycle. Driver opening, diagnostics and the cleanup
      closure's own context are details of a step, not steps of their own. */
  datatype Step = SkipDecided | Connect | Ping | SetUp | Publish | Runner | CleanUp | CancelSetUpContext | Close

  function StepOf(e: Effect): seq<Step> {
    match e
    case SkipQueried => [SkipDecided]
    case ConnectCalled => [Connect]
    case Pinged(_) => [Ping]
    case SetUpCalled(_) => [SetUp]
    case Published(_) => [Publish]
    case RunnerStarted(_, _) => [Runner]
    case CleanUpCalled(_) => [CleanUp]
    case SetUpContextCancelled => [CancelSetUpContext]
    case Closed(_) => [Close]
    case DriverOpened(_, _) => []
    case CleanUpContextCancelled => []
    case Logged(_) => []
  }

  /** The steps a trace takes, in order; each occurs in it as often as it happened. */
  function Steps(trace: seq<Effect>): seq<Step> {
    if trace == [] then [] else StepOf(trace[0]) + Steps(trace[1..])
  }

  lemma {:induction false} StepsAppend(a: seq<Effect>, b: seq<Effect>)
    ensures Steps(a + b) == Steps(a) + Steps(b)
  {
    if a == [] {
      assert a + b == b;
    } else {
      assert (a + b)[1..] == a[1..] + b;
      StepsAppend(a[1..], b);
    }
  }

  lemma StepsOfPair(x: Effect, y: Effect)
    ensures Steps([x, y]) == StepOf(x) + StepOf(y)
  {
    calc {
      Steps([x, y]);
      { assert [x, y][1..] == [y]; }
      StepOf(x) + Steps([y]);
      { assert [y][1..] == []; }
      StepOf(x) + (StepOf(y) + Steps([]));
    }
  }

  /** A failed setup: the ping, the setup call and its diagnostic. */
  lemma SetUpFailedSteps(t: Duration)
    ensures Steps([Pinged(t), SetUpCalled(t), Logged(SetUpOp)]) == [Ping, SetUp]
  {
    assert [Pinged(t), SetUpCalled(t), Logged(SetUpOp)][1..] == [SetUpCalled(t), Logged(SetUpOp)];
    StepsOfPair(SetUpCalled(t), Logged(SetUpOp));
  }

  /** A successful setup up to the runner: ping, setup, publish, runner. */
  lemma RunningSteps(t: Duration, db: Handle)
    ensures Steps([Pinged(t), SetUpCalled(t), Published(db), RunnerStarted(false, Some(db))])
      == [Ping, SetUp, Publish, Runner]
  {
    var running := [Pinged(t), SetUpCalled(t), Published(db), RunnerStarted(false, Some(db))];
    assert running == [Pinged(t), SetUpCalled(t)] + [Published(db), RunnerStarted(false, Some(db))];
    StepsAppend([Pinged(t), SetUpCalled(t)], [Published(db), RunnerStarted(false, Some(db))]);
    StepsOfPair(Pinged(t), SetUpCalled(t));
    StepsOfPair(Published(db), RunnerStarted(false, Some(db)));
  }

  lemma ConnectSteps(cfg: Config, w: World)
    requires IsNormal(cfg)
    ensures Steps(ConnectStep(cfg.connect.value, w).1) == [Connect]
  {
    var connecting := ConnectStep(cfg.connect.value, w).1;
    if |connecting| == 2 {
      StepsOfPair(connecting[0], connecting[1]);
      assert connecting == [connecting[0], connecting[1]];
    }
  }

  lemma CloseSteps(db: Handle, result: Outcome)
    ensures Steps(CloseEffects(db, result)) == [Close]
  {
    if result.Failed? {
      StepsOfPair(Closed(db), Logged(CloseOp));
    }
  }

  lemma AbortTeardownSteps(db: Handle, w: World)
    ensures Steps(AbortTeardown(db, w)) == [CancelSetUpContext, Close]
  {
    StepsAppend([SetUpContextCancelled], CloseEffects(db, w.close));
    CloseSteps(db, w.close);
  }

  lemma CleanUpSteps(fn: Option<CleanUpFn>, timeout: Duration)
    ensures Steps(CleanUpEffects(fn, timeout)) == if fn.Some? then [CleanUp] else []
  {
    if fn.Some? {
      var logged := if CleanUpResult(fn.value).Failed? then [Logged(CleanUpOp)] else [];
      StepsAppend([CleanUpCalled(timeout)], logged);
      StepsAppend([CleanUpCalled(timeout)] + logged, [CleanUpContextCancelled]);
    }
  }

  /** The shape of a run that gets past connecting: the steps before it and what
      connecting adds. */
  lemma ReachedSteps(cfg: Config, w: World)
    requires IsNormal(cfg)
    ensures Steps([SkipQueried] + ConnectStep(cfg.connect.value, w).1) == [SkipDecided, Connect]
  {
    StepsAppend([SkipQueried], ConnectStep(cfg.connect.value, w).1);
    ConnectSteps(cfg, w);
  }

  /** Skip path: the runner is invoked at once and its result is the exit status;
      nothing is connected, pinged, set up, cleaned up or closed, and `state.DB`
      is left as it was. */
  lemma SkipPath(cfg: Config, w: World, prior: Option<Handle>)
    requires IsNormal(cfg) && SkipDecision(cfg.skip.value, w)
    ensures Execute(cfg, w, prior).exit == ExitCode(w.runResult)
    ensures Execute(cfg, w, prior).skip && Execute(cfg, w, prior).db == prior
    ensures Steps(Execute(cfg, w, prior).trace) == [SkipDecided, Runner]
  {
    StepsOfPair(SkipQueried, RunnerStarted(true, prior));
  }

  /** A failed connect: exit status 1, the runner is never invoked and there is
      nothing to ping, set up, clean up or close. */
  lemma ConnectFailure(cfg: Config, w: World, prior: Option<Handle>)
    requires IsNormal(cfg) && !SkipDecision(cfg.skip.value, w)
    requires ConnectStep(cfg.connect.value, w).0.Err?
    ensures Execute(cfg, w, prior).exit == ExitCode(1)
    ensures !Execute(cfg, w, prior).skip && Execute(cfg, w, prior).db == prior
    ensures Steps(Execute(cfg, w, prior).trace) == [SkipDecided, Connect]
  {
    var reached := [SkipQueried] + ConnectStep(cfg.connect.value, w).1;
    ReachedSteps(cfg, w);
    StepsAppend(reached, [Logged(ConnectOp)]);
  }

  /** A failed ping: exit status 1, the runner is never invoked, setup and cleanup
      never run, `state.DB` is not assigned, and the handle is closed exactly
      once, as the last step. */
  lemma PingFailure(cfg: Config, w: World, prior: Option<Handle>, db: Handle)
    requires IsNormal(cfg) && !SkipDecision(cfg.skip.value, w)
    requires ConnectStep(cfg.connect.value, w).0 == Ok(db) && w.ping.Failed?
    ensures Execute(cfg, w, prior).exit == ExitCode(1)
    ensures !Execute(cfg, w, prior).skip && Execute(cfg, w, prior).db == prior
    ensures Steps(Execute(cfg, w, prior).trace) == [SkipDecided, Connect, Ping, CancelSetUpContext, Close]
  {
    var t := cfg.setUpTimeout;
    var reached := [SkipQueried] + ConnectStep(cfg.connect.value, w).1;
    ReachedSteps(cfg, w);
    StepsOfPair(Pinged(t), Logged(PingOp));
    StepsAppend(reached, [Pinged(t), Logged(PingOp)]);
    StepsAppend(reached + [Pinged(t), Logged(PingOp)], AbortTeardown(db, w));
    AbortTeardownSteps(db, w);
  }

  /** A failed setup: as a failed ping, with the setup attempted under the setup
      timeout before the handle is closed. */
  lemma SetUpFailure(cfg: Config, w: World, prior: Option<Handle>, db: Handle)
    requires IsNormal(cfg) && !SkipDecision(cfg.skip.value, w)
    requires ConnectStep(cfg.connect.value, w).0 == Ok(db) && w.ping == Done
    requires SetUpResult(cfg.setUp.value).Failed?
    ensures Execute(cfg, w, prior).exit == ExitCode(1)
    ensures !Execute(cfg, w, prior).skip && Execute(cfg, w, prior).db == prior
    ensures Steps(Execute(cfg, w, prior).trace) == [SkipDecided, Connect, Ping, SetUp, CancelSetUpContext, Close]
    ensures SetUpCalled(cfg.setUpTimeout) in Execute(cfg, w, prior).trace
  {
    var t := cfg.setUpTimeout;
    var reached := [SkipQueried] + ConnectStep(cfg.connect.value, w).1;
    ReachedSteps(cfg, w);
    SetUpFailedSteps(t);
    StepsAppend(reached, [Pinged(t), SetUpCalled(t), Logged(SetUpOp)]);
    StepsAppend(reached + [Pinged(t), SetUpCalled(t), Logged(SetUpOp)], AbortTeardown(db, w));
    AbortTeardownSteps(db, w);
  }

  /** A successful setup: the handle is published before the runner starts and
      the runner sees it; afterwards the cleanup runs once, under the SETUP
      timeout, then the setup context is cancelled, then the handle is closed
      once; and the exit status is the runner's, whatever cleanup and close return. */
  lemma SuccessfulRun(cfg: Config, w: World, prior: Option<Handle>, db: Handle)
    requires IsNormal(cfg) && !SkipDecision(cfg.skip.value, w)
    requires ConnectStep(cfg.connect.value, w).0 == Ok(db) && w.ping == Done
    requires SetUpResult(cfg.setUp.value) == Done && cfg.cleanUp.Some?
    ensures Execute(cfg, w, prior).exit == ExitCode(w.runResult)
    ensures !Execute(cfg, w, prior).skip && Execute(cfg, w, prior).db == Some(db)
    ensures Steps(Execute(cfg, w, prior).trace)
      == [SkipDecided, Connect, Ping, SetUp, Publish, Runner, CleanUp, CancelSetUpContext, Close]
    ensures RunnerStarted(false, Some(db)) in Execute(cfg, w, prior).trace
    ensures CleanUpCalled(cfg.setUpTimeout) in Execute(cfg, w, prior).trace
  {
    SuccessfulSetUpSteps(cfg, w, prior, db);
  }

  /** The steps of every run whose setup succeeds, with or without a cleanup function. */
  lemma SuccessfulSetUpSteps(cfg: Config, w: World, prior: Option<Handle>, db: Handle)
    requires IsNormal(cfg) && !SkipDecision(cfg.skip.value, w)
    requires ConnectStep(cfg.connect.value, w).0 == Ok(db) && w.ping == Done
    requires SetUpResult(cfg.setUp.value) == Done
    ensures Steps(Execute(cfg, w, prior).trace)
      == [SkipDecided, Connect, Ping, SetUp, Publish, Runner]
         + (if cfg.cleanUp.Some? then [CleanUp] else []) + [CancelSetUpContext, Close]
  {
    SuccessTrace(cfg, w, prior, db);
    ReachedSteps(cfg, w);
    SuccessSegments([SkipQueried] + ConnectStep(cfg.connect.value, w).1, cfg.setUpTimeout, db, cfg.cleanUp, w);
  }

  /** The steps of the success-path trace, segment by segment. */
  lemma SuccessSegments(reached: seq<Effect>, t: Duration, db: Handle, fn: Option<CleanUpFn>, w: World)
    requires Steps(reached) == [SkipDecided, Connect]
    ensures Steps(reached + [Pinged(t), SetUpCalled(t), Published(db), RunnerStarted(false, Some(db))]
                  + CleanUpEffects(fn, t) + AbortTeardown(db, w))
      == [SkipDecided, Connect, Ping, SetUp, Publish, Runner]
         + (if fn.Some? then [CleanUp] else []) + [CancelSetUpContext, Close]
  {
    var running := [Pinged(t), SetUpCalled(t), Published(db), RunnerStarted(false, Some(db))];
    var tail: seq<Step> := if fn.Some? then [CleanUp] else [];
    RunningSteps(t, db);
    CleanUpSteps(fn, t);
    AbortTeardownSteps(db, w);
    StepsOfSegments(reached, running, CleanUpEffects(fn, t), AbortTeardown(db, w),
                [SkipDecided, Connect], [Ping, SetUp, Publish, Runner], tail, [CancelSetUpContext, Close]);
    assert [SkipDecided, Connect] + [Ping, SetUp, Publish, Runner] == [SkipDecided, Connect, Ping, SetUp, Publish, Runner];
  }

  /** `StepsAppend` for four segments whose steps are already known. */
  lemma StepsOfSegments(a: seq<Effect>, b: seq<Effect>, c: seq<Effect>, d: seq<Effect>,
                    sa: seq<Step>, sb: seq<Step>, sc: seq<Step>, sd: seq<Step>)
    requires Steps(a) == sa && Steps(b) == sb && Steps(c) == sc && Steps(d) == sd
    ensures Steps(a + b + c + d) == sa + sb + sc + sd
  {
    StepsAppend(a + b + c, d);
    StepsAppend(a + b, c);
    StepsAppend(a, b);
  }

  /** The effects of a run whose setup succeeds, segment by segment. */
  lemma SuccessTrace(cfg: Config, w: World, prior: Option<Handle>, db: Handle)
    requires IsNormal(cfg) && !SkipDecision(cfg.skip.value, w)
    requires ConnectStep(cfg.connect.value, w).0 == Ok(db) && w.ping == Done
    requires SetUpResult(cfg.setUp.value) == Done
    ensures Execute(cfg, w, prior).trace
      == ([SkipQueried] + ConnectStep(cfg.connect.value, w).1)
         + [Pinged(cfg.setUpTimeout), SetUpCalled(cfg.setUpTimeout), Published(db), RunnerStarted(false, Some(db))]
         + CleanUpEffects(cfg.cleanUp, cfg.setUpTimeout) + AbortTeardown(db, w)
  {
  }

  /** Whenever the runner is invoked, the shared state is ready for the wrapped
      tests: either the skip flag is set or the handle has been published, and it
      is the state the run leaves behind. */
  lemma RunnerSeesReadyState(cfg: Config, w: World, prior: Option<Handle>)
    requires IsNormal(cfg)
    ensures var r := Execute(cfg, w, prior);
      forall e | e in r.trace && e.RunnerStarted? ::
        (e.sawSkip || e.sawDb.Some?) && e.sawSkip == r.skip && e.sawDb == r.db
  {
    var r := Execute(cfg, w, prior);
    var (conn, connecting) := ConnectStep(cfg.connect.value, w);
    assert forall e | e in connecting :: !e.RunnerStarted?;
    if !SkipDecision(cfg.skip.value, w) && conn.Ok? {
      var db := conn.value;
      assert forall e | e in AbortTeardown(db, w) :: !e.RunnerStarted?;
      assert forall e | e in CleanUpEffects(cfg.cleanUp, cfg.setUpTimeout) :: !e.RunnerStarted?;
    }
  }

  /** Every run either reaches the runner, or stops with exit status 1 before any
      test could run: then nothing is published and no cleanup is attempted. */
  lemma AbortedRunsNeverReachTests(cfg: Config, w: World, prior: Option<Handle>)
    requires IsNormal(cfg)
    ensures Runner !in Steps(Execute(cfg, w, prior).trace) ==>
      Execute(cfg, w, prior).exit == ExitCode(1) && Execute(cfg, w, prior).db == prior
      && Publish !in Steps(Execute(cfg, w, prior).trace) && CleanUp !in Steps(Execute(cfg, w, prior).trace)
    ensures CleanUp in Steps(Execute(cfg, w, prior).trace) ==> Runner in Steps(Execute(cfg, w, prior).trace)
  {
    var (conn, _) := ConnectStep(cfg.connect.value, w);
    if SkipDecision(cfg.skip.value, w) {
      SkipPath(cfg, w, prior);
    } else if conn.Err? {
      ConnectFailure(cfg, w, prior);
    } else if w.ping.Failed? {
      PingFailure(cfg, w, prior, conn.value);
    } else if SetUpResult(cfg.setUp.value).Failed? {
      SetUpFailure(cfg, w, prior, conn.value);
    } else {
      SuccessfulSetUpSteps(cfg, w, prior, conn.value);
    }
  }

  /** As the code is written: a run whose setup succeeds but whose configuration
      has no `CleanUpFunc` (which `RunTests` leaves nil) invokes the runner, then
      panics calling the nil cleanup function; the setup context is still
      cancelled and the handle still closed, but the runner's result is lost. */
  lemma NilCleanUpPanicsAfterRun(cfg: Config, w: World, prior: Option<Handle>, db: Handle)
    requires IsNormal(cfg) && !SkipDecision(cfg.skip.value, w)
    requires ConnectStep(cfg.connect.value, w).0 == Ok(db) && w.ping == Done
    requires SetUpResult(cfg.setUp.value) == Done && cfg.cleanUp.None?
    ensures Execute(cfg, w, prior).exit == Panicking(NilFuncCall)
    ensures Steps(Execute(cfg, w, prior).trace)
      == [SkipDecided, Connect, Ping, SetUp, Publish, Runner, CancelSetUpContext, Close]
  {
    SuccessfulSetUpSteps(cfg, w, prior, db);
  }

  /** The zero `Config` with `DBTESTING_DSN` set to any well-formed value, a database
      that opens and answers the ping, and a runner whose tests all pass: the run
      panics after the tests ran instead of returning 0. */
  lemma ZeroConfigPanics(driver: string, info: string)
    requires ':' !in driver
    ensures var zero := Config(None, None, None, None, 0, 0, None);
      var w := World(false, Some(driver + ":" + info), Ok(Handle(0)), Done, 0, Done);
      Execute(Defaulted(zero), w, None).exit == Panicking(NilFuncCall)
  {
    var zero := Config(None, None, None, None, 0, 0, None);
    var w := World(false, Some(driver + ":" + info), Ok(Handle(0)), Done, 0, Done);
    Dsn.SplitJoin(driver, info);
    var c := Defaulted(zero);
    assert c.connect == Some(DefaultConnect) && c.skip == Some(ShortMode) && c.setUp == Some(DefaultSetUp);
    assert ConnectStep(c.connect.value, w).0 == Ok(Handle(0));
    NilCleanUpPanicsAfterRun(c, w, None, Handle(0));
  }

  /** A concrete instance: `DBTESTING_DSN` names a PostgreSQL database through the
      driver name "postgres" that `lib/pq` registers. */
  lemma ZeroConfigPanicsAfterPassingTests()
    ensures var zero := Config(None, None, None, None, 0, 0, None);
      var w := World(false, Some("postgres" + ":" + "dbname=films sslmode=disable"), Ok(Handle(0)), Done, 0, Done);
      Execute(Defaulted(zero), w, None).exit == Panicking(NilFuncCall)
  {
    ZeroConfigPanics("postgres", "dbname=films sslmode=disable");
  }

  /** With the intended defaulting, a run never panics: its exit status is the
      runner's result whenever the runner was invoked, and 1 otherwise. */
  lemma CorrectedDefaultsKeepRunnerResult(cfg: Config, w: World, prior: Option<Handle>)
    ensures Execute(DefaultedWithCleanUp(cfg), w, prior).exit.ExitCode?
    ensures Runner in Steps(Execute(DefaultedWithCleanUp(cfg), w, prior).trace) ==>
      Execute(DefaultedWithCleanUp(cfg), w, prior).exit == ExitCode(w.runResult)
    ensures Runner !in Steps(Execute(DefaultedWithCleanUp(cfg), w, prior).trace) ==>
      Execute(DefaultedWithCleanUp(cfg), w, prior).exit == ExitCode(1)
  {
    var c := DefaultedWithCleanUp(cfg);
    var (conn, _) := ConnectStep(c.connect.value, w);
    AbortedRunsNeverReachTests(c, w, prior);
    if SkipDecision(c.skip.value, w) {
      SkipPath(c, w, prior);
    } else if conn.Err? {
      ConnectFailure(c, w, prior);
    } else if w.ping.Failed? {
      PingFailure(c, w, prior, conn.value);
    } else if SetUpResult(c.setUp.value).Failed? {
      SetUpFailure(c, w, prior, conn.value);
    } else {
      SuccessfulRun(c, w, prior, conn.value);
    }
  }
}
