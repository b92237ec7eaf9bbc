/** The situations the repository's tests exercise, stated over a concrete
    hierarchy of Python exception classes. Each policy is built by `Retries`,
    as the tests build theirs with `retries(...)`. */
module Scenarios {
  import A = Arguments
  import S = Session
  import P = SessionProperties

  /** The exception classes the tests use. `MyBase` derives from
      BaseException directly; `CustomError` and `E1` derive from Exception. */
  datatype PyClass = BaseException | Exception | ValueError | TypeError | SystemExit | MyBase | CustomError | E1

  /** The direct base class (BaseException is its own). */
  function Base(c: PyClass): PyClass {
    match c
    case BaseException => BaseException
    case Exception => BaseException
    case SystemExit => BaseException
    case MyBase => BaseException
    case _ => Exception
  }

  function Depth(c: PyClass): nat {
    if c == BaseException then 0
    else if Base(c) == BaseException then 1
    else 2
  }

  /** Python's `issubclass` between these classes. */
  predicate IsSubclass(a: PyClass, b: PyClass)
    decreases Depth(a)
  {
    a == b || (a != BaseException && IsSubclass(Base(a), b))
  }

  /** The default `expected_exception`. */
  const DefaultExpected: A.PyObject<PyClass> := A.ExceptionType(Exception)

  function Always(kind: PyClass): nat -> S.Outcome<PyClass> {
    _ => S.Raised(kind)
  }

  function FailTwiceThenSucceed(kind: PyClass): nat -> S.Outcome<PyClass> {
    i => if i < 2 then S.Raised(kind) else S.Clean
  }

  /** A budget of 0 or -1 is refused with ValueError. */
  lemma InvalidMaxAttempts()
    ensures A.Retries(0, DefaultExpected) == A.Err(A.ValueError(A.MaxAttemptsMessage))
    ensures A.Retries(-1, DefaultExpected) == A.Err(A.ValueError(A.MaxAttemptsMessage))
  {
  }

  /** A number, an exception instance, and a tuple holding a number are
      each refused with TypeError. */
  lemma InvalidExpectedException()
    ensures A.Retries<PyClass>(3, A.Instance) == A.Err(A.TypeError(A.ExpectedExceptionMessage))
    ensures A.Retries(3, A.Tuple([A.ExceptionType(E1), A.Instance])) == A.Err(A.TypeError(A.ExpectedExceptionMessage))
  {
  }

  /** Work that never fails runs once, with no sleep. */
  lemma NoException()
    ensures var r := A.Retries(3, DefaultExpected);
      r.Ok? && S.Simulate(r.value, IsSubclass, _ => S.Clean) == S.Trace(1, 0, S.Succeeded)
  {
  }

  /** Two retried failures, then success: three attempts and two sleeps,
      whether the retried class is the default Exception, a custom class
      named alone, or SystemExit named explicitly. */
  lemma EventualSuccessAfterTwoFailures()
    ensures var r := A.Retries(5, DefaultExpected);
      r.Ok? && S.Simulate(r.value, IsSubclass, FailTwiceThenSucceed(ValueError)) == S.Trace(3, 2, S.Succeeded)
    ensures var r := A.Retries(5, A.ExceptionType(CustomError));
      r.Ok? && S.Simulate(r.value, IsSubclass, FailTwiceThenSucceed(CustomError)) == S.Trace(3, 2, S.Succeeded)
    ensures var r := A.Retries(5, A.ExceptionType(SystemExit));
      r.Ok? && S.Simulate(r.value, IsSubclass, FailTwiceThenSucceed(SystemExit)) == S.Trace(3, 2, S.Succeeded)
  {
    var r := A.Retries(5, DefaultExpected);
    assert S.Matches(IsSubclass, ValueError, r.value.classifier) by { assert IsSubclass(ValueError, r.value.classifier[0]); }
    P.EventualSuccess(r.value, IsSubclass, FailTwiceThenSucceed(ValueError), 2);
    r := A.Retries(5, A.ExceptionType(CustomError));
    assert S.Matches(IsSubclass, CustomError, r.value.classifier) by { assert IsSubclass(CustomError, r.value.classifier[0]); }
    P.EventualSuccess(r.value, IsSubclass, FailTwiceThenSucceed(CustomError), 2);
    r := A.Retries(5, A.ExceptionType(SystemExit));
    assert S.Matches(IsSubclass, SystemExit, r.value.classifier) by { assert IsSubclass(SystemExit, r.value.classifier[0]); }
    P.EventualSuccess(r.value, IsSubclass, FailTwiceThenSucceed(SystemExit), 2);
  }

  /** Always failing with a retried class under a budget of 3: three
      attempts, two sleeps, and the ValueError itself propagates. */
  lemma Exhaustion()
    ensures var r := A.Retries(3, DefaultExpected);
      r.Ok? && S.Simulate(r.value, IsSubclass, Always(ValueError)) == S.Trace(3, 2, S.Failed(ValueError))
  {
    var r := A.Retries(3, DefaultExpected);
    assert S.Matches(IsSubclass, ValueError, r.value.classifier) by { assert IsSubclass(ValueError, r.value.classifier[0]); }
    P.PersistentFailure(r.value, IsSubclass, Always(ValueError));
  }

  /** A BaseException subclass is not caught by the default classifier. */
  lemma BaseExceptionNotSwallowed()
    ensures var r := A.Retries(3, DefaultExpected);
      r.Ok? && S.Simulate(r.value, IsSubclass, Always(MyBase)) == S.Trace(1, 0, S.Failed(MyBase))
  {
  }

  /** With a budget of 1 a failure propagates after one attempt. */
  lemma SingleAttempt()
    ensures var r := A.Retries(1, DefaultExpected);
      r.Ok? && S.Simulate(r.value, IsSubclass, Always(ValueError)) == S.Trace(1, 0, S.Failed(ValueError))
  {
  }

  /** A TypeError is not retried when only ValueError is named. */
  lemma NonListedNotCaught()
    ensures var r := A.Retries(3, A.ExceptionType(ValueError));
      r.Ok? && S.Simulate(r.value, IsSubclass, Always(TypeError)) == S.Trace(1, 0, S.Failed(TypeError))
  {
  }
}
