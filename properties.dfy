/** What a whole retry session does, proved about `Simulate` (and so, through
    `RunSession`, about the class `RetrySession` driven by a caller's loop). */
module SessionProperties {
  import opened Arguments
  import opened Session

  /** Attempts `j` to `k - 1` all fail with a class the policy retries, and
      `k` is not the last attempt: each of them is suppressed after one sleep,
      and the session goes on at attempt `k`. */
  lemma {:induction false} RetriedStretch<K>(p: Policy<K>, isSubclass: (K, K) -> bool, work: nat -> Outcome<K>, j: nat, k: nat)
    requires j <= k < p.maxAttempts
    requires forall i :: j <= i < k ==> Retryable(p, isSubclass, work(i))
    ensures RunFrom(p, isSubclass, work, j) == After(k - j, k - j, RunFrom(p, isSubclass, work, k))
    decreases k - j
  {
    if j < k {
      RetriedStretch(p, isSubclass, work, j + 1, k);
      assert ExitDecision(p, isSubclass, j, Some(work(j).kind)) == Suppress;
      assert RunFrom(p, isSubclass, work, j) == After(1, 1, RunFrom(p, isSubclass, work, j + 1));
    }
  }

  /** The first `k` attempts fail with a retried class and attempt `k` (still
      within budget) exits cleanly: `k + 1` attempts, `k` sleeps, success.
      With `k == 0`, work that never fails runs once and never sleeps. */
  lemma EventualSuccess<K>(p: Policy<K>, isSubclass: (K, K) -> bool, work: nat -> Outcome<K>, k: nat)
    requires k < p.maxAttempts
    requires forall i :: 0 <= i < k ==> Retryable(p, isSubclass, work(i))
    requires work(k).Clean?
    ensures Simulate(p, isSubclass, work) == Trace(k + 1, k, Succeeded)
  {
    RetriedStretch(p, isSubclass, work, 0, k);
    assert RunFrom(p, isSubclass, work, k) == Trace(1, 0, Succeeded);
  }

  /** Every attempt fails with a retried class: all `maxAttempts` attempts
      run, with a sleep between each two of them, and the exception of the
      last attempt propagates unchanged (not suppressed). With a budget of 1
      this is one attempt and no sleep. */
  lemma PersistentFailure<K>(p: Policy<K>, isSubclass: (K, K) -> bool, work: nat -> Outcome<K>)
    requires 1 <= p.maxAttempts
    requires forall i :: 0 <= i < p.maxAttempts ==> Retryable(p, isSubclass, work(i))
    ensures var last := work(p.maxAttempts - 1);
      last.Raised? && Simulate(p, isSubclass, work) == Trace(p.maxAttempts, p.maxAttempts - 1, Failed(last.kind))
  {
    var last := p.maxAttempts - 1;
    RetriedStretch(p, isSubclass, work, 0, last);
    assert ExitDecision(p, isSubclass, last, Some(work(last).kind)) == Propagate;
    assert RunFrom(p, isSubclass, work, last) == Trace(1, 0, Failed(work(last).kind));
  }

  /** A failure whose class the classifier does not match propagates on its
      first occurrence, whatever budget remains: after `k` retried failures
      it ends the session at attempt `k` with `k` sleeps (none when `k == 0`). */
  lemma UnlistedFailure<K>(p: Policy<K>, isSubclass: (K, K) -> bool, work: nat -> Outcome<K>, k: nat)
    requires k < p.maxAttempts
    requires forall i :: 0 <= i < k ==> Retryable(p, isSubclass, work(i))
    requires work(k).Raised? && !Matches(isSubclass, work(k).kind, p.classifier)
    ensures Simulate(p, isSubclass, work) == Trace(k + 1, k, Failed(work(k).kind))
  {
    RetriedStretch(p, isSubclass, work, 0, k);
    assert ExitDecision(p, isSubclass, k, Some(work(k).kind)) == Propagate;
    assert RunFrom(p, isSubclass, work, k) == Trace(1, 0, Failed(work(k).kind));
  }

  /** In a session from attempt `j`, every attempt before the last was
      either never entered or failed with a class the policy retries. */
  lemma {:induction false} RetriedBeforeLastFrom<K>(p: Policy<K>, isSubclass: (K, K) -> bool, work: nat -> Outcome<K>, j: nat)
    requires j < p.maxAttempts
    ensures var last := j + RunFrom(p, isSubclass, work, j).attempts - 1;
      forall i :: j <= i < last ==> work(i).Skipped? || Retryable(p, isSubclass, work(i))
    decreases p.maxAttempts - j
  {
    var raised := if work(j).Raised? then Some(work(j).kind) else None;
    if j + 1 < p.maxAttempts && (work(j).Skipped? || ExitDecision(p, isSubclass, j, raised) == Suppress) {
      RetriedBeforeLastFrom(p, isSubclass, work, j + 1);
    }
  }

  /** How a session from attempt `j` ended is explained by its last attempt:
      success by a clean exit; a propagated exception by the last attempt
      raising that very class, which did not match or came on the final
      attempt; silent exhaustion by the final attempt's scope never being
      entered. */
  lemma {:induction false} LastAttemptFrom<K>(p: Policy<K>, isSubclass: (K, K) -> bool, work: nat -> Outcome<K>, j: nat)
    requires j < p.maxAttempts
    ensures var t := RunFrom(p, isSubclass, work, j);
      var last := j + t.attempts - 1;
      && (t.ending.Succeeded? ==> work(last).Clean?)
      && (t.ending.Failed? ==>
            && work(last) == Raised(t.ending.kind)
            && (!Matches(isSubclass, t.ending.kind, p.classifier) || last == p.maxAttempts - 1))
      && (t.ending.Exhausted? ==> last == p.maxAttempts - 1 && work(last).Skipped?)
    decreases p.maxAttempts - j
  {
    var raised := if work(j).Raised? then Some(work(j).kind) else None;
    if j + 1 < p.maxAttempts && (work(j).Skipped? || ExitDecision(p, isSubclass, j, raised) == Suppress) {
      LastAttemptFrom(p, isSubclass, work, j + 1);
    }
  }

  /** The whole session: the exception a caller sees is the one raised by
      the last attempt, never a wrapped or different one; success means the
      last attempt exited cleanly; and a session only runs out of attempts
      silently when the caller did not enter the last attempt's scope. */
  lemma EndingExplained<K>(p: Policy<K>, isSubclass: (K, K) -> bool, work: nat -> Outcome<K>)
    requires 1 <= p.maxAttempts
    ensures var t := Simulate(p, isSubclass, work);
      && 1 <= t.attempts <= p.maxAttempts
      && (forall i :: 0 <= i < t.attempts - 1 ==> work(i).Skipped? || Retryable(p, isSubclass, work(i)))
      && (t.ending.Succeeded? ==> work(t.attempts - 1).Clean?)
      && (t.ending.Failed? ==>
            && work(t.attempts - 1) == Raised(t.ending.kind)
            && (!Matches(isSubclass, t.ending.kind, p.classifier) || t.attempts == p.maxAttempts))
      && (t.ending.Exhausted? ==> t.attempts == p.maxAttempts && work(p.maxAttempts - 1).Skipped?)
  {
    RetriedBeforeLastFrom(p, isSubclass, work, 0);
    LastAttemptFrom(p, isSubclass, work, 0);
  }

  /** When the caller enters every attempt's scope, sleeps fall strictly
      between attempts: one fewer sleep than attempts, and the session ends
      by success or by a propagated exception, never silently. */
  lemma {:induction false} SleepsBetweenAttemptsFrom<K>(p: Policy<K>, isSubclass: (K, K) -> bool, work: nat -> Outcome<K>, j: nat)
    requires j < p.maxAttempts
    requires forall i :: j <= i < p.maxAttempts ==> !work(i).Skipped?
    ensures var t := RunFrom(p, isSubclass, work, j);
      t.sleeps == t.attempts - 1 && !t.ending.Exhausted?
    decreases p.maxAttempts - j
  {
    var raised := if work(j).Raised? then Some(work(j).kind) else None;
    if ExitDecision(p, isSubclass, j, raised) == Suppress {
      SleepsBetweenAttemptsFrom(p, isSubclass, work, j + 1);
    }
  }

  lemma SleepsBetweenAttempts<K>(p: Policy<K>, isSubclass: (K, K) -> bool, work: nat -> Outcome<K>)
    requires 1 <= p.maxAttempts
    requires forall i :: 0 <= i < p.maxAttempts ==> !work(i).Skipped?
    ensures var t := Simulate(p, isSubclass, work);
      t.sleeps == t.attempts - 1 && !t.ending.Exhausted?
  {
    SleepsBetweenAttemptsFrom(p, isSubclass, work, 0);
  }
}
