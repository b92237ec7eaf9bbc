/** The arguments of `retries` and their validation. Both checks run when
    `retries` is called, before any attempt is produced: a bad budget or a
    malformed classifier never yields an attempt. */
module Arguments {

  /** What `retries` may be handed as `expected_exception`, seen only as far
      as its validation looks at it. `K` names the exception classes. */
  datatype PyObject<K> =
    | ExceptionType(kind: K)          // a class deriving from BaseException
    | OtherType                       // a class that is not an exception class, such as int
    | Instance                        // any other object that is not a tuple: 123, E1()
    | Tuple(items: seq<PyObject<K>>)

  /** The two exceptions `retries` raises on bad arguments, with their messages. */
  datatype ArgError = ValueError(message: string) | TypeError(message: string)

  datatype Result<T> = Ok(value: T) | Err(error: ArgError)

  const MaxAttemptsMessage := "max_attempts must be at least 1"
  const ExpectedExceptionMessage := "expected_exception must be an exception type or tuple of exception types"

  /** A configuration that passed validation: the attempt budget and the
      exception classes that are retried (one, or the tuple's items in order). */
  datatype Policy<K> = Policy(maxAttempts: int, classifier: seq<K>)

  predicate ValidPolicy<K>(p: Policy<K>) {
    1 <= p.maxAttempts && |p.classifier| > 0
  }

  /** `_is_exception_type`: the object is a class deriving from BaseException. */
  predicate IsExceptionType<K>(obj: PyObject<K>) {
    obj.ExceptionType?
  }

  /** `all(_is_exception_type(e) for e in items)`. */
  function AllExceptionTypes<K>(items: seq<PyObject<K>>): (r: bool)
    ensures r <==> forall i :: 0 <= i < |items| ==> IsExceptionType(items[i])
  {
    if items == [] then true
    else IsExceptionType(items[0]) && AllExceptionTypes(items[1..])
  }

  /** The exception classes named by a tuple of exception classes, in order. */
  function KindsOf<K>(items: seq<PyObject<K>>): (r: seq<K>)
    requires AllExceptionTypes(items)
    ensures |r| == |items|
    ensures forall i :: 0 <= i < |items| ==> items[i] == ExceptionType(r[i])
  {
    if items == [] then []
    else [items[0].kind] + KindsOf(items[1..])
  }

  /** The shapes of `expected_exception` that `retries` accepts: one exception
      class, or a non-empty tuple of exception classes. */
  ghost predicate WellFormed<K>(expected: PyObject<K>) {
    || IsExceptionType(expected)
    || (expected.Tuple? && |expected.items| > 0 &&
        forall i :: 0 <= i < |expected.items| ==> IsExceptionType(expected.items[i]))
  }

  /** `retries(max_attempts, delay_sec, expected_exception)` up to the point
      where it returns the controller: the budget is checked first, then the
      classifier. */
  function Retries<K>(maxAttempts: int, expected: PyObject<K>): (r: Result<Policy<K>>)
    ensures r == Err(ValueError(MaxAttemptsMessage)) <==> maxAttempts < 1
    ensures r == Err(TypeError(ExpectedExceptionMessage)) <==> 1 <= maxAttempts && !WellFormed(expected)
    ensures r.Ok? <==> 1 <= maxAttempts && WellFormed(expected)
    ensures r.Ok? ==> r.value.maxAttempts == maxAttempts && ValidPolicy(r.value)
    ensures r.Ok? && IsExceptionType(expected) ==> r.value.classifier == [expected.kind]
    ensures r.Ok? && expected.Tuple? ==>
      && |r.value.classifier| == |expected.items|
      && forall i :: 0 <= i < |expected.items| ==> expected.items[i] == ExceptionType(r.value.classifier[i])
  {
    if maxAttempts < 1 then
      Err(ValueError(MaxAttemptsMessage))
    else if expected.Tuple? then
      if |expected.items| == 0 || !AllExceptionTypes(expected.items) then
        Err(TypeError(ExpectedExceptionMessage))
      else
        Ok(Policy(maxAttempts, KindsOf(expected.items)))
    else if !IsExceptionType(expected) then
      Err(TypeError(ExpectedExceptionMessage))
    else
      Ok(Policy(maxAttempts, [expected.kind]))
  }
}
