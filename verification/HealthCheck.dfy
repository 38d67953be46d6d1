/** Aggregating health checks into one status, and retrying until healthy, timed out or out of attempts. */
module HealthCheck {
  import opened Wrappers

  datatype CheckResult = Pass | Fail(message: string) | Unknown(message: string)

  datatype Check = Check(name: string, critical: bool, result: CheckResult)

  datatype HealthStatus = Healthy | Degraded | Unhealthy

  function Severity(s: HealthStatus): nat {
    match s
    case Healthy => 0
    case Degraded => 1
    case Unhealthy => 2
  }

  predicate CriticalFailure(c: Check) { c.result.Fail? && c.critical }

  predicate MinorFailure(c: Check) { c.result.Fail? && !c.critical }

  /** What the status means: Unhealthy iff a critical check failed, Degraded iff only others did. */
  function Status(checks: multiset<Check>): HealthStatus {
    if exists c | c in checks :: CriticalFailure(c) then Unhealthy
    else if exists c | c in checks :: MinorFailure(c) then Degraded
    else Healthy
  }

  /** Unhealthy exactly when a critical check failed; Degraded when none did but another one; Healthy otherwise. */
  lemma StatusOfChecks(checks: seq<Check>)
    ensures Status(multiset(checks)) == Unhealthy <==>
              exists i | 0 <= i < |checks| :: checks[i].result.Fail? && checks[i].critical
    ensures Status(multiset(checks)) == Degraded <==>
              && (exists i | 0 <= i < |checks| :: checks[i].result.Fail?)
              && (forall i | 0 <= i < |checks| && checks[i].result.Fail? :: !checks[i].critical)
    ensures Status(multiset(checks)) == Healthy <==> forall i | 0 <= i < |checks| :: !checks[i].result.Fail?
  {
    assert forall k | 0 <= k < |checks| :: checks[k] in multiset(checks);
    assert forall c | c in multiset(checks) :: c in checks;
  }

  /** The loop over the registered checks, in whatever order the hash map iterates them. */
  method RunAllChecks(checks: seq<Check>) returns (status: HealthStatus, executions: seq<(string, CheckResult)>)
    ensures status == Status(multiset(checks))
    ensures status == Unhealthy <==> exists i | 0 <= i < |checks| :: checks[i].result.Fail? && checks[i].critical
    ensures status == Degraded <==>
              && (exists i | 0 <= i < |checks| :: checks[i].result.Fail?)
              && (forall i | 0 <= i < |checks| && checks[i].result.Fail? :: !checks[i].critical)
    ensures status == Healthy <==> forall i | 0 <= i < |checks| :: !checks[i].result.Fail?
    ensures |executions| == |checks|
    ensures forall i | 0 <= i < |checks| :: executions[i] == (checks[i].name, checks[i].result)
  {
    var criticalFailures, nonCriticalFailures := 0, 0;
    executions := [];
    for i := 0 to |checks|
      invariant |executions| == i
      invariant forall k | 0 <= k < i :: executions[k] == (checks[k].name, checks[k].result)
      invariant criticalFailures > 0 <==> exists k | 0 <= k < i :: CriticalFailure(checks[k])
      invariant nonCriticalFailures > 0 <==> exists k | 0 <= k < i :: MinorFailure(checks[k])
      invariant criticalFailures >= 0 && nonCriticalFailures >= 0
    {
      executions := executions + [(checks[i].name, checks[i].result)];
      if checks[i].result.Fail? {
        if checks[i].critical {
          criticalFailures := criticalFailures + 1;
        } else {
          nonCriticalFailures := nonCriticalFailures + 1;
        }
      }
    }
    StatusOfChecks(checks);
    if criticalFailures > 0 {
      status := Unhealthy;
    } else if nonCriticalFailures > 0 {
      status := Degraded;
    } else {
      status := Healthy;
    }
  }

  /** Replacing one failed check by anything that is not a failure never worsens the status. */
  lemma RepairNeverWorsens(others: multiset<Check>, failed: Check, repaired: Check)
    requires failed.result.Fail? && !repaired.result.Fail?
    ensures Severity(Status(others + multiset{repaired})) <= Severity(Status(others + multiset{failed}))
    ensures Status(others + multiset{failed}) != Healthy
    ensures Status(others + multiset{repaired}) == Status(others)
  {
    var after := others + multiset{repaired};
    assert forall c :: c in after <==> c in others || c == repaired;
    assert forall c | c in others :: c in others + multiset{failed};
    assert (exists c | c in after :: CriticalFailure(c)) <==> (exists c | c in others :: CriticalFailure(c));
    assert failed in others + multiset{failed} && (CriticalFailure(failed) || MinorFailure(failed));
    assert (exists c | c in after :: MinorFailure(c)) <==> (exists c | c in others :: MinorFailure(c));
  }

  datatype RetryConfig = RetryConfig(timeoutSecs: nat, maxRetries: nat)

  /** Attempt number `k` (from 1) is the last. */
  predicate Ends(status: nat -> HealthStatus, elapsed: nat -> nat, cfg: RetryConfig, k: nat) {
    status(k).Healthy? || elapsed(k) >= cfg.timeoutSecs || k >= cfg.maxRetries
  }

  /**
   The retry loop: `status(k)` is the outcome of attempt `k` and `elapsed(k)` the time spent by its end. It
   stops at the first attempt that ends it, after at most max(1, maxRetries) of them, and reports Healthy
   exactly when its last attempt was healthy, in which case no earlier one was.
   */
  method RunWithRetry(status: nat -> HealthStatus, elapsed: nat -> nat, cfg: RetryConfig)
    returns (result: HealthStatus, attempts: nat)
    ensures 1 <= attempts <= if cfg.maxRetries >= 1 then cfg.maxRetries else 1
    ensures result == status(attempts) && Ends(status, elapsed, cfg, attempts)
    ensures result == Healthy || elapsed(attempts) >= cfg.timeoutSecs || attempts >= cfg.maxRetries
    ensures forall k | 1 <= k < attempts :: !Ends(status, elapsed, cfg, k)
    ensures forall k | 1 <= k < attempts :: status(k) != Healthy && elapsed(k) < cfg.timeoutSecs
    ensures result.Healthy? <==> exists k | 1 <= k <= attempts :: status(k).Healthy?
  {
    attempts := 0;
    while true
      invariant attempts < cfg.maxRetries || attempts == 0
      invariant forall k | 1 <= k <= attempts :: !Ends(status, elapsed, cfg, k)
      invariant forall k | 1 <= k <= attempts :: status(k) != Healthy && elapsed(k) < cfg.timeoutSecs
      decreases cfg.maxRetries - attempts
    {
      attempts := attempts + 1;
      result := status(attempts);
      if result.Healthy? {
        return;
      }
      if elapsed(attempts) >= cfg.timeoutSecs {
        return;
      }
      if attempts >= cfg.maxRetries {
        return;
      }
    }
  }
}
