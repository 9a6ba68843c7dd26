# dbtesting, modelled in Dafny

`dbtesting` is a small Go helper for integration tests that need a real SQL
database. A test binary calls `RunTests` from its `TestMain` with a `Config`.
`RunTests` fills in defaults, then runs a lifecycle:

1. Decide whether to skip the database tests.
2. Connect, by default from the `DBTESTING_DSN` environment variable in the
   form `DRIVER:INFORMATION`.
3. Ping the database, then run the caller's setup.
4. Publish the handle in a package-level `state` record.
5. Run the tests.
6. On the way out, run the caller's cleanup and close the handle through
   deferred calls.

Each test is wrapped by `Inject`, which runs the test body inside a
transaction that is always rolled back.

The model has one module per concern:

| file | module | what it holds |
|---|---|---|
| `base.dfy` | `Base` | shared value types: options, results, errors, opaque handles, Go durations (64-bit nanoseconds), panic values |
| `config.dfy` | `Configuration` | `Config` and the defaulting `RunTests` applies: a function `Defaulted` and an imperative `ApplyDefaults` that overwrites fields one by one, as the Go code does |
| `dsn.dfy` | `Dsn` | the `DBTESTING_DSN` lookup and the split at the first colon |
| `state.dfy` | `State` | the package-level `state` record as a class with the fields `skip` and `db` |
| `isolation.dfy` | `Isolation` | one invocation of the wrapped test that `Inject` returns: skip, `BeginTx`, the body, the deferred rollback with `recover` and re-panic |
| `lifecycle.dfy` | `Lifecycle` | `runTests` and `RunTests` |
| `lifecycle_facts.dfy` | `LifecycleFacts` | the guarantees of a run, stated over its trace |

Everything outside the package is an input. This covers the environment
variable, `testing.Short`, `sql.Open`, `PingContext`, `BeginTx`, `Rollback`,
`Close`, the test runner's result and the caller's functions. The
lifecycle inputs are gathered in a `World` record.

A run produces three things:

- an exit (a status code, or a panic that escapes `RunTests`);
- a trace of effects in the order they happen;
- the final contents of the shared state.

`runTests` keeps an explicit stack of deferred calls. The stack is unwound
last-in first-out by `RunDeferred`, which is proved against the function
`UnwindTrace`. `Orchestrate` updates the `SharedState` object step by step
and is proved to agree with the specification function `Execute`. The
lemmas in `LifecycleFacts` then state what each path guarantees.

Two places where a plain reading of the package and its code differ; the model follows the code:

- The cleanup call's deadline is `SetUpTimeout`. `CleanUpTimeout` is
  defaulted to 3s but never used.
- `CleanUpFunc` is not defaulted. `defaultCleanUp` exists but nothing uses
  it. This is the subject of the finding below. `Lifecycle.RunTests` is the
  behaviour as written, `Execute(Defaulted(cfg), ...)`.
  `Lifecycle.RunTestsWithCleanUpDefault` applies the corrected defaulting
  `DefaultedWithCleanUp`.

## Model

| member | source | states |
|---|---|---|
| Configuration.Defaulted | dbtesting.go:51-68 | the defaulted configuration is usable by `runTests`: every function, the logger and both timeouts are set. `CleanUpFunc` is passed through exactly as given |
| Configuration.ApplyDefaults | dbtesting.go:51-68 | the step-by-step overwriting of the by-value `cfg` yields exactly `Defaulted(cfg)` |
| Configuration.DefaultsFillOnlyUnset | dbtesting.go:51-68 | a zero `SetUpTimeout` becomes 10s and a zero `CleanUpTimeout` 3s. Nil `ConnectFunc`, `SkipFunc`, `SetUpFunc` and `Logger` get `defaultConnect`, `testing.Short`, `defaultSetUp` and a standard-error logger prefixed "dbtesting". Every field the caller set is kept unchanged |
| Configuration.DefaultedIdempotent | dbtesting.go:51-68 | defaulting leaves a configuration unchanged exactly when it is already normal, so applying the defaults twice equals applying them once |
| Configuration.DefaultedWithCleanUp | dbtesting.go:165-167 | the intended defaulting: as `Defaulted`, and a nil `CleanUpFunc` also becomes the no-op `defaultCleanUp` |
| Dsn.SplitDsn | dbtesting.go:153-156 | the split fails exactly when the value has no colon. Otherwise the driver part has no colon, and driver, a colon and the rest rebuild the value |
| Dsn.SplitJoin | dbtesting.go:153-158 | splitting `d + ":" + i` with a colon-free `d` gives back `(d, i)`, whatever colons `i` holds |
| Dsn.SplitAtFirstColon | dbtesting.go:153-158 | the driver is the text before the first colon, and the information is everything after it |
| Dsn.DriverAndInfo | dbtesting.go:147-158 | a missing `DBTESTING_DSN` and a value with no colon each give their own error. The pair handed to `sql.Open` exists exactly when the variable is set and holds a colon, and it rejoins to the variable's value |
| State.SharedState.constructor | dbtesting.go:40-43 | the package state starts with `Skip` false and `DB` nil |
| Isolation.EndAfterBody | dbtesting.go:83-93 | after the rollback, the test ends as the body left it. A panic is re-raised with its own value, and nothing else propagates a panic |
| Isolation.Inject | dbtesting.go:73-96 | the body runs exactly when the test is not skipped, a handle is published and `BeginTx` succeeds. A skipped test does nothing else. A failed `BeginTx` fails the test fatally with no rollback. An unpublished handle panics in `BeginTx`. Otherwise the body runs once on the new transaction, then that transaction is rolled back exactly once. A rollback error is only logged, with a panic/complete flag, and never changes how the test ends. There is no commit |
| Lifecycle.UnwindLifo | dbtesting.go:115-142 | calls deferred later run first: unwinding `a + b` runs `b`'s calls, then `a`'s |
| Lifecycle.UnwindPanicLifo | dbtesting.go:136-142 | a panic raised by a deferred call that runs later replaces one raised earlier |
| Lifecycle.UnwindPush | dbtesting.go:115-142 | the call deferred last runs first, and its panic is replaced by any panic from the calls below it |
| Lifecycle.RunDeferred | dbtesting.go:115-142 | popping and running the defer stack one call at a time yields the last-in first-out trace and the surviving panic |
| Lifecycle.Orchestrate | dbtesting.go:105-145 | `runTests`, with `state` updated in place and an explicit defer stack, has exactly the exit, trace and final state of `Execute` |
| Lifecycle.RunTests | dbtesting.go:45-71 | `RunTests` as written runs the lifecycle on the defaulted configuration, with `CleanUpFunc` left as given |
| Lifecycle.RunTestsWithCleanUpDefault | dbtesting.go:45-71 | `RunTests` with the corrected `CleanUpFunc` default from the finding below runs the lifecycle on `DefaultedWithCleanUp(cfg)` |
| LifecycleFacts.SkipPath | dbtesting.go:106-108 | when the skip function says so, `state.Skip` is set and the result is the runner's. There is no connect, ping, setup, cleanup or close, and `state.DB` is untouched |
| LifecycleFacts.ConnectFailure | dbtesting.go:110-114 | a failed connect returns 1. The runner is never invoked, and nothing is pinged, set up, cleaned up or closed |
| LifecycleFacts.PingFailure | dbtesting.go:115-127 | a failed ping returns 1. The runner is never invoked, setup and cleanup never run, `state.DB` is not assigned, and the handle is closed exactly once, as the last step |
| LifecycleFacts.SetUpFailure | dbtesting.go:129-132 | a failed setup, called under `SetUpTimeout`, returns 1. There is no runner and no cleanup, `state.DB` is not assigned, and the handle is closed exactly once, as the last step |
| LifecycleFacts.SuccessfulRun | dbtesting.go:134-144 | on success, `state.DB` is published before the runner starts, and the runner sees it. Then cleanup runs once under `SetUpTimeout`, the setup context is cancelled and the handle is closed once, in that order. The result is the runner's, whatever cleanup and close return |
| LifecycleFacts.SuccessfulSetUpSteps | dbtesting.go:134-144 | the steps of every run whose setup succeeds, with or without a cleanup function |
| LifecycleFacts.RunnerSeesReadyState | dbtesting.go:105-145 | whenever the runner is invoked, either `state.Skip` is set or `state.DB` holds the handle, and that is the state the run leaves behind |
| LifecycleFacts.AbortedRunsNeverReachTests | dbtesting.go:105-145 | a run that never reaches the runner returns 1 with nothing published and no cleanup. A cleanup happens only in a run that reached the runner |
| LifecycleFacts.NilCleanUpPanicsAfterRun | dbtesting.go:136-142 | as written: with no `CleanUpFunc`, a successful setup leads to the runner, then a panic from the nil call. The setup context is still cancelled and the handle still closed |
| LifecycleFacts.ZeroConfigPanics | dbtesting.go:45-71 | the zero `Config` with any well-formed `DBTESTING_DSN`, a database that opens and answers the ping, and passing tests exits by panicking instead of returning 0 |
| LifecycleFacts.ZeroConfigPanicsAfterPassingTests | dbtesting.go:45-71 | the zero `Config` with a reachable `DBTESTING_DSN="postgres:dbname=films sslmode=disable"` and passing tests exits by panicking instead of returning 0 |
| LifecycleFacts.CorrectedDefaultsKeepRunnerResult | dbtesting.go:105-145 | with the intended defaulting, no run panics. The result is the runner's whenever the runner ran, and 1 otherwise |

## Left out

- The `database/sql` calls (`sql.Open`, `PingContext`, `BeginTx`, `Rollback`, `Close`) are foreign library code. Each is an input outcome. `sql.Open`'s outcome does not depend on the driver name and information it is given; the model only records the pair.
- `context.WithTimeout` deadlines and cancellation involve wall-clock time. The model only records which timeout each step receives and when each context is cancelled.
- `flag.Parse`, `testing.Short`, `os.LookupEnv` and the unused `defaultSkip` read process state. Their results are inputs.
- The test runner `m.Run()` is an input result. A panic inside the runner is not modelled.
- A caller-supplied function is represented by the single outcome it produces. Each is called at most once per run.
- The `SQL` helper is a one-line wrapper over `ExecContext`.
- Log message text is not modelled. A log line is an effect naming the operation it reports. `runTests` logs through the global `log` and not `cfg.Logger`; only the defaulting of `Logger` is modelled.
- `dbtesting_test.go` needs a live PostgreSQL server and checks database behaviour.
- Tests running in parallel is concurrency owned by the Go test runner.
- Isolation.Inject: a body that panics with a nil value is not modelled. Before Go 1.21, `recover` returns nil for it, and the wrapper would treat it as a normal return.
- Isolation.Inject: the test body's own work inside the transaction is not modelled. Only how the body leaves is an input: return, `runtime.Goexit` (`t.Fatal`, `t.SkipNow`) or panic.

## Findings

| source | as written | input that shows it | evidently intended | confidence | as-written member | corrected member |
|---|---|---|---|---|---|---|
| dbtesting.go:57-68, 136-142 | `RunTests` defaults every function field except `CleanUpFunc`. On the success path the deferred cleanup closure calls the nil function, which panics after the tests have run; `RunTests` never returns the runner's result | the zero `Config`, `DBTESTING_DSN="postgres:dbname=films sslmode=disable"` (the driver name `lib/pq` registers), a reachable database, passing tests | a nil `CleanUpFunc` becomes the package's unused no-op `defaultCleanUp` (dbtesting.go:165-167), so the result is the runner's | not executed | LifecycleFacts.NilCleanUpPanicsAfterRun | LifecycleFacts.CorrectedDefaultsKeepRunnerResult |
