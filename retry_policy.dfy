/** What `PlaywrightDriver.retry` does, stated without its loop.

    An action is modelled by the outcomes its successive invocations would
    have: `outcomes[i]` is how invocation number `i + 1` settles. The loop
    that runs it is `Driver.PlaywrightDriver.Retry`, proved equal to
    `RetryReportFor` below; the lemmas here state what that report means. */
module RetryPolicy {
  import opened Engine

  /** The bound `retry` uses when a caller gives none. */
  const DefaultRetries := 3

  /** The argument of the `wait` that `retry` starts after the last failure. */
  const ExhaustionWaitMs := 500

  /** What one run of `retry` produced: how it settled, how many times it
      invoked the action, and the lines it logged, in order. */
  datatype RetryReport = RetryReport(result: Outcome, invocations: nat, trace: seq<LogEntry>)

  /** The warnings for failed attempts 1 to n, one line each. */
  function FailureWarnings(n: nat): seq<LogEntry>
  {
    seq(n, i => LogEntry(Warn, AttemptFailed(i + 1)))
  }

  /** The lines logged once the last permitted attempt has failed: the error,
      then the info line of the `wait(500)` that is started but not awaited. */
  function ExhaustionLines(): seq<LogEntry>
  {
    [LogEntry(Error, MaxRetriesReached), LogEntry(Info, Waiting(ExhaustionWaitMs))]
  }

  /** The index of the first invocation among the first `n` that returns,
      or `n` when all of them throw. */
  function FirstDone(outcomes: seq<Outcome>, n: nat): (k: nat)
    requires n <= |outcomes|
    ensures k <= n
    ensures forall j :: 0 <= j < k ==> outcomes[j].Failed?
    ensures k < n ==> outcomes[k].Done?
  {
    if n == 0 then 0
    else
      var k := FirstDone(outcomes, n - 1);
      if k < n - 1 then k
      else if outcomes[n - 1].Done? then n - 1
      else n
  }

  /** The run of `retry(action, retries)`: no invocation at all when
      `retries <= 0`; otherwise invocations stop at the first one that
      returns, and if none of the `retries` invocations returns, the last
      one's failure is rethrown as it is. */
  function RetryReportFor(outcomes: seq<Outcome>, retries: int): RetryReport
    requires retries <= |outcomes|
  {
    if retries <= 0 then RetryReport(Done, 0, [])
    else
      var k := FirstDone(outcomes, retries);
      if k < retries then RetryReport(Done, k + 1, FailureWarnings(k))
      else RetryReport(outcomes[retries - 1], retries, FailureWarnings(retries) + ExhaustionLines())
  }

  /** Number of invocations in `s` that threw. */
  function CountFailed(s: seq<Outcome>): (n: nat)
    ensures n <= |s|
  {
    if s == [] then 0
    else CountFailed(s[..|s| - 1]) + (if s[|s| - 1].Failed? then 1 else 0)
  }

  lemma {:induction false} CountFailedAllFailed(s: seq<Outcome>)
    requires forall i :: 0 <= i < |s| ==> s[i].Failed?
    ensures CountFailed(s) == |s|
  {
    if s != [] {
      CountFailedAllFailed(s[..|s| - 1]);
    }
  }

  lemma {:induction false} FailureWarningsCount(n: nat)
    ensures CountLevel(FailureWarnings(n), Warn) == n
    ensures CountLevel(FailureWarnings(n), Error) == 0
    ensures CountLevel(FailureWarnings(n), Info) == 0
  {
    if n > 0 {
      assert FailureWarnings(n)[..n - 1] == FailureWarnings(n - 1);
      FailureWarningsCount(n - 1);
    }
  }

  lemma FailureWarningsSnoc(n: nat)
    ensures FailureWarnings(n + 1) == FailureWarnings(n) + [LogEntry(Warn, AttemptFailed(n + 1))]
  {
  }

  /** With a bound of zero or less the loop body never runs: the action is
      not invoked, nothing is logged and `retry` returns normally. */
  lemma RetryNonPositive(outcomes: seq<Outcome>, retries: int)
    requires retries <= 0
    ensures RetryReportFor(outcomes, retries) == RetryReport(Done, 0, [])
  {
  }

  /** If invocation `k` is the first that returns and `k <= retries`, the
      action is invoked exactly `k` times, `retry` returns normally and one
      warning is logged for each of the `k - 1` failures before it. */
  lemma RetrySucceedsOnAttempt(outcomes: seq<Outcome>, retries: int, k: int)
    requires 1 <= k <= retries <= |outcomes|
    requires forall j :: 0 <= j < k - 1 ==> outcomes[j].Failed?
    requires outcomes[k - 1].Done?
    ensures RetryReportFor(outcomes, retries) == RetryReport(Done, k, FailureWarnings(k - 1))
  {
  }

  /** If all `retries >= 1` invocations throw, the action is invoked exactly
      `retries` times, the failure of the last one is rethrown unchanged, and
      the log holds one warning per attempt followed by the exhaustion lines. */
  lemma RetryExhausts(outcomes: seq<Outcome>, retries: int)
    requires 1 <= retries <= |outcomes|
    requires forall j :: 0 <= j < retries ==> outcomes[j].Failed?
    ensures RetryReportFor(outcomes, retries)
         == RetryReport(outcomes[retries - 1], retries, FailureWarnings(retries) + ExhaustionLines())
  {
  }

  /** Whatever the outcomes: `retry` invokes the action at most `retries`
      times, every invocation but the last threw, it settles as the last
      invocation did, at least one invocation happens when `retries >= 1`,
      and it throws exactly when all `retries` invocations threw. */
  lemma RetryStopsAtFirstSuccess(outcomes: seq<Outcome>, retries: int)
    requires retries <= |outcomes|
    ensures var r := RetryReportFor(outcomes, retries);
      && r.invocations <= (if retries < 0 then 0 else retries)
      && (forall j :: 0 <= j < r.invocations - 1 ==> outcomes[j].Failed?)
      && (r.invocations > 0 ==> r.result == outcomes[r.invocations - 1])
      && (retries >= 1 ==> r.invocations >= 1)
      && (r.result.Failed? <==> retries >= 1 && r.invocations == retries && outcomes[retries - 1].Failed?)
      && (r.result.Failed? <==> retries >= 1 && forall j :: 0 <= j < retries ==> outcomes[j].Failed?)
  {
  }

  /** Each failed invocation logs exactly one warning, and the error line is
      logged once, only when the failing invocation was the last permitted. */
  lemma {:induction false} RetryLogsPerFailure(outcomes: seq<Outcome>, retries: int)
    requires retries <= |outcomes|
    ensures var r := RetryReportFor(outcomes, retries);
      && r.invocations <= |outcomes|
      && CountLevel(r.trace, Warn) == CountFailed(outcomes[..r.invocations])
      && CountLevel(r.trace, Error) == (if r.result.Failed? then 1 else 0)
  {
    var r := RetryReportFor(outcomes, retries);
    if retries <= 0 {
      assert outcomes[..0] == [];
    } else {
      var k := FirstDone(outcomes, retries);
      if k < retries {
        FailureWarningsCount(k);
        var prefix := outcomes[..k + 1];
        assert prefix[..k] == outcomes[..k];
        CountFailedAllFailed(outcomes[..k]);
      } else {
        FailureWarningsCount(retries);
        CountLevelSnoc(FailureWarnings(retries), ExhaustionLines()[0], Warn);
        CountLevelSnoc(FailureWarnings(retries) + [ExhaustionLines()[0]], ExhaustionLines()[1], Warn);
        CountLevelSnoc(FailureWarnings(retries), ExhaustionLines()[0], Error);
        CountLevelSnoc(FailureWarnings(retries) + [ExhaustionLines()[0]], ExhaustionLines()[1], Error);
        assert FailureWarnings(retries) + ExhaustionLines()
            == FailureWarnings(retries) + [ExhaustionLines()[0]] + [ExhaustionLines()[1]];
        CountFailedAllFailed(outcomes[..retries]);
      }
    }
  }
}
