/** The caller's `Config` and the defaulting `RunTests` applies to it before
    anything else happens (dbtesting.go:28-38, 45-71). */
module Configuration {
  import opened Base

  const DefaultSetUpTimeout: Duration := 10 * Second
  const DefaultCleanUpTimeout: Duration := 3 * Second
  const DefaultLogPrefix: string := "dbtesting"

  /** A `ConnectFunc`: the package's `defaultConnect`, or a caller-supplied
      function, represented by the handle or error it returns. */
  datatype ConnectFn = DefaultConnect | CustomConnect(result: Result<Handle>)

  /** A `SkipFunc`: `testing.Short`, or a caller-supplied decision. */
  datatype SkipFn = ShortMode | CustomSkip(decision: bool)

  /** A `SetUpFunc`: the no-op `defaultSetUp`, or a caller-supplied function
      (for instance one built by the `SQL` adapter), represented by its error return. */
  datatype SetUpFn = DefaultSetUp | CustomSetUp(result: Outcome)

  /** A `CleanUpFunc`: the no-op `defaultCleanUp`, or a caller-supplied function. */
  datatype CleanUpFn = DefaultCleanUp | CustomCleanUp(result: Outcome)

  /** A `Logger`: the standard-error logger with a prefix, or the caller's own. */
  datatype Logger = StderrLogger(prefix: string) | CustomLogger(name: string)

  /** `Config`: every function-valued field is `None` when the caller left it nil;
      the timeouts are zero when left unset. */
  datatype Config = Config(
    connect: Option<ConnectFn>,
    skip: Option<SkipFn>,
    setUp: Option<SetUpFn>,
    cleanUp: Option<CleanUpFn>,
    setUpTimeout: Duration,
    cleanUpTimeout: Duration,
    logger: Option<Logger>)

  /** A configuration `runTests` can use: every field `RunTests` defaults is set.
      `cleanUp` is deliberately not part of it, since `RunTests` never fills it. */
  predicate IsNormal(c: Config) {
    c.connect.Some? && c.skip.Some? && c.setUp.Some? && c.logger.Some?
    && c.setUpTimeout != 0 && c.cleanUpTimeout != 0
  }

  /** The configuration `RunTests` hands to `runTests`: each unset field replaced
      by its default, each set field kept, `cleanUp` passed through untouched. */
  function Defaulted(cfg: Config): (r: Config)
    ensures IsNormal(r)
    ensures r.cleanUp == cfg.cleanUp
  {
    Config(
      connect := if cfg.connect.None? then Some(DefaultConnect) else cfg.connect,
      skip := if cfg.skip.None? then Some(ShortMode) else cfg.skip,
      setUp := if cfg.setUp.None? then Some(DefaultSetUp) else cfg.setUp,
      cleanUp := cfg.cleanUp,
      setUpTimeout := if cfg.setUpTimeout == 0 then DefaultSetUpTimeout else cfg.setUpTimeout,
      cleanUpTimeout := if cfg.cleanUpTimeout == 0 then DefaultCleanUpTimeout else cfg.cleanUpTimeout,
      logger := if cfg.logger.None? then Some(StderrLogger(DefaultLogPrefix)) else cfg.logger)
  }

  /** The field-by-field overwriting of `RunTests` on its by-value copy of `cfg`. */
  method ApplyDefaults(cfg: Config) returns (c: Config)
    ensures c == Defaulted(cfg)
  {
    c := cfg;
    if c.setUpTimeout == 0 {
      c := c.(setUpTimeout := DefaultSetUpTimeout);
    }
    if c.cleanUpTimeout == 0 {
      c := c.(cleanUpTimeout := DefaultCleanUpTimeout);
    }
    if c.connect.None? {
      c := c.(connect := Some(DefaultConnect));
    }
    if c.setUp.None? {
      c := c.(setUp := Some(DefaultSetUp));
    }
    if c.skip.None? {
      c := c.(skip := Some(ShortMode));
    }
    if c.logger.None? {
      c := c.(logger := Some(StderrLogger(DefaultLogPrefix)));
    }
  }

  /** Zero timeouts become 10s and 3s, nil functions and logger get the package
      defaults, and whatever the caller did set is kept as given. */
  lemma DefaultsFillOnlyUnset(cfg: Config)
    ensures cfg.setUpTimeout == 0 ==> Defaulted(cfg).setUpTimeout == 10 * Second
    ensures cfg.cleanUpTimeout == 0 ==> Defaulted(cfg).cleanUpTimeout == 3 * Second
    ensures cfg.connect.None? ==> Defaulted(cfg).connect == Some(DefaultConnect)
    ensures cfg.skip.None? ==> Defaulted(cfg).skip == Some(ShortMode)
    ensures cfg.setUp.None? ==> Defaulted(cfg).setUp == Some(DefaultSetUp)
    ensures cfg.logger.None? ==> Defaulted(cfg).logger == Some(StderrLogger("dbtesting"))
    ensures cfg.setUpTimeout != 0 ==> Defaulted(cfg).setUpTimeout == cfg.setUpTimeout
    ensures cfg.cleanUpTimeout != 0 ==> Defaulted(cfg).cleanUpTimeout == cfg.cleanUpTimeout
    ensures cfg.connect.Some? ==> Defaulted(cfg).connect == cfg.connect
    ensures cfg.skip.Some? ==> Defaulted(cfg).skip == cfg.skip
    ensures cfg.setUp.Some? ==> Defaulted(cfg).setUp == cfg.setUp
    ensures cfg.logger.Some? ==> Defaulted(cfg).logger == cfg.logger
  {
  }

  /** Defaulting a configuration that is already normal changes nothing, so
      applying the defaults twice is the same as applying them once. */
  lemma DefaultedIdempotent(cfg: Config)
    ensures Defaulted(cfg) == cfg <==> IsNormal(cfg)
    ensures Defaulted(Defaulted(cfg)) == Defaulted(cfg)
  {
  }

  /** The defaulting the package evidently intends: as `Defaulted`, and a nil
      `CleanUpFunc` also becomes the package's no-op `defaultCleanUp`
      (dbtesting.go:165-167, which nothing in the package uses). */
  function DefaultedWithCleanUp(cfg: Config): (r: Config)
    ensures IsNormal(r) && r.cleanUp.Some?
    ensures cfg.cleanUp.Some? ==> r.cleanUp == cfg.cleanUp
    ensures cfg.cleanUp.None? ==> r.cleanUp == Some(DefaultCleanUp)
    ensures r.(cleanUp := cfg.cleanUp) == Defaulted(cfg)
  {
    Defaulted(cfg).(cleanUp := if cfg.cleanUp.None? then Some(DefaultCleanUp) else cfg.cleanUp)
  }
}
