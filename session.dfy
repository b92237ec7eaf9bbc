/** One retry session: the bounded attempt loop of `_RetryController.__iter__`
    and the scope-exit decision of `_RetryAttempt.__exit__`.

    The class `RetrySession` keeps the loop's state and changes it step by
    step, as the generator and its `nonlocal completed` flag do. The function
    `Simulate` says, for a caller whose work on attempt `i` has the outcome
    `work(i)`, what a whole session does; `RunSession` drives the class
    through the same loop and is proved to agree with it. */
module Session {
  import opened Arguments

  datatype Option<T> = None | Some(value: T)

  /** What the caller's work does on one attempt: it returns normally, it
      raises an exception of class `kind`, or the caller never enters the
      attempt's scope (so `__exit__` is never called for it). */
  datatype Outcome<K> = Clean | Raised(kind: K) | Skipped

  /** Where a session stands. `Failed(kind)` is the exception of class `kind`
      leaving the loop; `Exhausted` is the loop running out of attempts
      without a clean exit and without an exception. */
  datatype Status<K> = Running | Succeeded | Failed(kind: K) | Exhausted

  /** What `__exit__` does with the outcome of a scope. */
  datatype Decision = Complete | Suppress | Propagate

  /** A whole session seen from outside: how many attempts were produced, how
      many times the controller slept, and how the session ended. */
  datatype Trace<K> = Trace(attempts: nat, sleeps: nat, ending: Status<K>)

  /** `attempts` attempts and `sleeps` sleeps, followed by the session `rest`. */
  function After<K>(attempts: nat, sleeps: nat, rest: Trace<K>): Trace<K> {
    Trace(attempts + rest.attempts, sleeps + rest.sleeps, rest.ending)
  }

  /** `issubclass(exc_type, expected_exception)`: the class `kind` derives
      from one of the classifier's classes. `isSubclass` is Python's subclass
      relation between exception classes. */
  predicate Matches<K>(isSubclass: (K, K) -> bool, kind: K, classifier: seq<K>) {
    exists i :: 0 <= i < |classifier| && isSubclass(kind, classifier[i])
  }

  /** A failure the policy retries when budget remains. */
  predicate Retryable<K>(p: Policy<K>, isSubclass: (K, K) -> bool, o: Outcome<K>) {
    o.Raised? && Matches(isSubclass, o.kind, p.classifier)
  }

  /** The decision of `__exit__` for attempt `index`, where `raised` is the
      class of the exception leaving the scope, if any. */
  function ExitDecision<K>(p: Policy<K>, isSubclass: (K, K) -> bool, index: int, raised: Option<K>): Decision {
    if raised.None? then Complete
    else if Matches(isSubclass, raised.value, p.classifier) && index < p.maxAttempts - 1 then Suppress
    else Propagate
  }

  /** The rest of a session from attempt `i` on, when no clean exit happened
      before it. */
  function RunFrom<K>(p: Policy<K>, isSubclass: (K, K) -> bool, work: nat -> Outcome<K>, i: nat): (r: Trace<K>)
    ensures !r.ending.Running?
    ensures i < p.maxAttempts ==> 1 <= r.attempts <= p.maxAttempts - i && r.sleeps < r.attempts
    ensures p.maxAttempts <= i ==> r == Trace(0, 0, Exhausted)
    decreases p.maxAttempts - i
  {
    if p.maxAttempts <= i then Trace(0, 0, Exhausted)
    else if work(i).Skipped? then After(1, 0, RunFrom(p, isSubclass, work, i + 1))
    else
      var raised := if work(i).Raised? then Some(work(i).kind) else None;
      match ExitDecision(p, isSubclass, i, raised)
      case Complete => Trace(1, 0, Succeeded)
      case Suppress => After(1, 1, RunFrom(p, isSubclass, work, i + 1))
      case Propagate => Trace(1, 0, Failed(raised.value))
  }

  /** A whole session, from attempt 0: under a budget of at least 1 it makes
      between 1 and `maxAttempts` attempts, sleeps fewer times than it
      attempts, and ends. */
  function Simulate<K>(p: Policy<K>, isSubclass: (K, K) -> bool, work: nat -> Outcome<K>): (r: Trace<K>)
    ensures !r.ending.Running?
    ensures 1 <= p.maxAttempts ==> 1 <= r.attempts <= p.maxAttempts && r.sleeps < r.attempts
  {
    RunFrom(p, isSubclass, work, 0)
  }

  /** The state of one iteration of the controller: the generator's loop
      counter, the `completed` flag its attempts share, and the number of
      times `time.sleep` was called. */
  class RetrySession<K> {
    const maxAttempts: int
    const classifier: seq<K>
    const isSubclass: (K, K) -> bool
    var nextIndex: nat
    var completed: bool
    var status: Status<K>
    ghost var sleeps: nat

    ghost predicate Valid()
      reads this
    {
      && 1 <= maxAttempts && |classifier| > 0
      && nextIndex <= maxAttempts
      && (completed <==> status.Succeeded?)
      && (status.Exhausted? ==> nextIndex == maxAttempts)
      && (!status.Running? ==> 1 <= nextIndex)
    }

    function PolicyOf(): Policy<K> {
      Policy(maxAttempts, classifier)
    }

    /** Starting to iterate the controller: `completed` is false and no
        attempt has been produced. */
    constructor (p: Policy<K>, isSubclass: (K, K) -> bool)
      requires ValidPolicy(p)
      ensures Valid() && PolicyOf() == p && this.isSubclass == isSubclass
      ensures nextIndex == 0 && !completed && status == Running && sleeps == 0
    {
      maxAttempts, classifier, this.isSubclass := p.maxAttempts, p.classifier, isSubclass;
      nextIndex, completed, status := 0, false, Running;
      sleeps := 0;
    }

    /** One step of `for attempt in range(max_attempts): if completed: break;
        yield attempt`: the next attempt index in order, or None once the
        range is used up or an attempt exited cleanly. A session whose
        exception has propagated produces nothing more. */
    method Next() returns (a: Option<nat>)
      requires Valid()
      modifies this
      ensures Valid() && completed == old(completed) && sleeps == old(sleeps)
      ensures old(status).Running? && old(nextIndex) < maxAttempts ==>
        a == Some(old(nextIndex)) && nextIndex == old(nextIndex) + 1 && status == Running
      ensures !(old(status).Running? && old(nextIndex) < maxAttempts) ==>
        && a == None && nextIndex == old(nextIndex)
        && status == (if old(status).Running? then Exhausted else old(status))
    {
      if nextIndex == maxAttempts || completed || !status.Running? {
        a := None;
        if status.Running? {
          status := Exhausted;
        }
      } else {
        a := Some(nextIndex);
        nextIndex := nextIndex + 1;
      }
    }

    /** `__exit__` of attempt `index`, where `raised` is the class of the
        exception leaving its scope, if any. A clean exit sets `completed`
        and suppresses nothing; a failure is suppressed, after one sleep,
        exactly when its class matches the classifier and budget remains;
        any other failure propagates unchanged and ends the session. */
    method Exit(index: nat, raised: Option<K>) returns (suppress: bool)
      requires Valid() && status.Running? && index < nextIndex
      modifies this
      ensures Valid() && nextIndex == old(nextIndex)
      ensures suppress <==> raised.Some? && Matches(isSubclass, raised.value, classifier) && index < maxAttempts - 1
      ensures completed <==> raised.None?
      ensures status == (if raised.None? then Succeeded else if suppress then Running else Failed(raised.value))
      ensures sleeps == old(sleeps) + (if suppress then 1 else 0)
    {
      match ExitDecision(PolicyOf(), isSubclass, index, raised)
      case Complete =>
        completed := true;
        status := Succeeded;
        suppress := false;
      case Suppress =>
        sleeps := sleeps + 1;
        suppress := true;
      case Propagate =>
        status := Failed(raised.value);
        suppress := false;
    }
  }

  /** One turn of the caller's loop for attempt `index`: run the work and,
      when the scope was entered, exit it; then, unless the exception
      propagated out of the loop, ask the generator for the next attempt.
      The turn is one step of `RunFrom`: either the session goes on at
      attempt `index + 1`, or what is left of it is this one attempt. */
  method Turn<K>(s: RetrySession<K>, work: nat -> Outcome<K>, index: nat) returns (next: Option<nat>, ghost slept: nat)
    requires s.Valid() && s.status.Running? && index + 1 == s.nextIndex
    modifies s
    ensures s.Valid() && s.sleeps == old(s.sleeps) + slept
    ensures next.Some? ==>
      && s.status.Running? && next.value == index + 1 && s.nextIndex == index + 2
      && RunFrom(s.PolicyOf(), s.isSubclass, work, index) == After(1, slept, RunFrom(s.PolicyOf(), s.isSubclass, work, index + 1))
    ensures next.None? ==>
      && s.nextIndex == index + 1
      && RunFrom(s.PolicyOf(), s.isSubclass, work, index) == Trace(1, slept, s.status)
  {
    slept := 0;
    match work(index) {
      case Skipped =>
      case Clean =>
        var _ := s.Exit(index, None);
      case Raised(kind) =>
        var suppressed := s.Exit(index, Some(kind));
        if !suppressed {
          return None, 0;
        }
        slept := 1;
    }
    next := s.Next();
  }

  /** The attempt indices `0, 1, ..., n - 1`, in order. */
  function Indices(n: nat): (r: seq<nat>)
    ensures |r| == n && forall k :: 0 <= k < n ==> r[k] == k
  {
    if n == 0 then [] else Indices(n - 1) + [n - 1]
  }

  /** A caller's `for retry in retries(...): with retry(): work` loop, where
      the work on attempt `i` has the outcome `work(i)`. It returns the
      number of attempts produced, how the session ended, the number of
      sleeps and the attempt indices in the order they were produced: the
      first three are exactly what `Simulate` describes, and the indices are
      0, 1, 2, ... in order. */
  method RunSession<K>(p: Policy<K>, isSubclass: (K, K) -> bool, work: nat -> Outcome<K>)
    returns (attempts: nat, ending: Status<K>, ghost sleeps: nat, ghost indices: seq<nat>)
    requires ValidPolicy(p)
    ensures attempts == Simulate(p, isSubclass, work).attempts
    ensures ending == Simulate(p, isSubclass, work).ending
    ensures sleeps == Simulate(p, isSubclass, work).sleeps
    ensures |indices| == attempts && forall n :: 0 <= n < |indices| ==> indices[n] == n
  {
    ghost var whole := RunFrom(p, isSubclass, work, 0);
    var s := new RetrySession(p, isSubclass);
    var handle := s.Next();
    indices := if handle.Some? then [handle.value] else [];
    while handle.Some?
      invariant s.Valid() && s.PolicyOf() == p && s.isSubclass == isSubclass
      invariant indices == Indices(s.nextIndex)
      invariant handle.Some? ==>
        && s.status.Running? && handle.value + 1 == s.nextIndex
        && whole == After(handle.value, s.sleeps, RunFrom(p, isSubclass, work, handle.value))
      invariant handle.None? ==> whole == Trace(s.nextIndex, s.sleeps, s.status)
      decreases p.maxAttempts - s.nextIndex + (if handle.Some? then 1 else 0)
    {
      ghost var slept;
      handle, slept := Turn(s, work, handle.value);
      if handle.Some? {
        indices := indices + [handle.value];
      }
    }
    attempts, ending, sleeps := s.nextIndex, s.status, s.sleeps;
  }
}
