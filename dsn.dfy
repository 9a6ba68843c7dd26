/** The part of `defaultConnect` that is the package's own logic: looking up the
    `DBTESTING_DSN` environment variable and splitting its value at the first
    colon into a driver name and the driver's connection information
    (dbtesting.go:147-158). Opening the driver is left to the lifecycle. */
module Dsn {
  import opened Base

  const DsnEnvVar: string := "DBTESTING_DSN"

  /** `strings.SplitN(dsn, ":", 2)` with its two-part check: `None` when there is
      no colon; otherwise the text before the first colon and everything after
      it, later colons included. */
  function SplitDsn(dsn: string): (r: Option<(string, string)>)
    ensures r.None? <==> ':' !in dsn
    ensures r.Some? ==> ':' !in r.value.0 && dsn == r.value.0 + ":" + r.value.1
  {
    if dsn == [] then None
    else if dsn[0] == ':' then Some(("", dsn[1..]))
    else match SplitDsn(dsn[1..])
      case None => None
      case Some((driver, info)) => Some(([dsn[0]] + driver, info))
  }

  /** Joining a colon-free driver name and any connection information with a
      colon, then splitting, gives both back unchanged. */
  lemma {:induction false} SplitJoin(driver: string, info: string)
    requires ':' !in driver
    ensures SplitDsn(driver + ":" + info) == Some((driver, info))
  {
    if driver == [] {
      assert driver + ":" + info == [':'] + info;
    } else {
      SplitJoin(driver[1..], info);
      assert (driver + ":" + info)[1..] == driver[1..] + ":" + info;
      assert [driver[0]] + driver[1..] == driver;
    }
  }

  /** The split is at the first colon: the driver is exactly the colon-free prefix
      and the information is the rest after that colon. */
  lemma SplitAtFirstColon(dsn: string, k: nat)
    requires k < |dsn| && dsn[k] == ':' && ':' !in dsn[..k]
    ensures SplitDsn(dsn) == Some((dsn[..k], dsn[k + 1..]))
  {
    assert dsn == dsn[..k] + ":" + dsn[k + 1..];
    SplitJoin(dsn[..k], dsn[k + 1..]);
  }

  /** The `(driver, info)` pair `defaultConnect` passes to `sql.Open`, or the
      error it returns before opening anything. */
  function DriverAndInfo(env: Option<string>): (r: Result<(string, string)>)
    ensures env.None? ==> r == Err(MissingEnvVar(DsnEnvVar))
    ensures env.Some? && ':' !in env.value ==> r == Err(MalformedDsn)
    ensures r.Ok? <==> env.Some? && ':' in env.value
    ensures r.Ok? ==> env.Some? && ':' !in r.value.0 && env.value == r.value.0 + ":" + r.value.1
  {
    match env
    case None => Err(MissingEnvVar(DsnEnvVar))
    case Some(dsn) =>
      match SplitDsn(dsn)
      case None => Err(MalformedDsn)
      case Some(parts) => Ok(parts)
  }
}
