# loopretry, modelled in Dafny

`loopretry` provides `retries(max_attempts, delay_sec, expected_exception)`.
A caller writes `for retry in retries(...): with retry(): work`. The work is
attempted at most `max_attempts` times. A failure whose class matches
`expected_exception` is swallowed and retried after a sleep, as long as
budget remains. A clean exit ends the loop. Any other failure, or a retried
class failing on the last attempt, propagates unchanged.

The model has four modules:

- `Arguments` (`arguments.dfy`) holds the eager validation in `retries`.
  `expected_exception` is a `PyObject`: an exception class, another class,
  another object, or a tuple. `Retries` returns either a `Policy` or the
  `ValueError` / `TypeError` that `retries` raises, with its message.
- `Session` (`session.dfy`) holds the class `RetrySession`. Its fields are
  the generator's loop counter `nextIndex`, the shared `completed` flag, an
  explicit `status`, and a ghost `sleeps` counter that stands for
  `time.sleep`. `Next` is one step of the generator loop and `Exit` is
  `_RetryAttempt.__exit__`. `Simulate` / `RunFrom` describe a whole session
  for a caller whose work on attempt `i` has outcome `work(i)`. `RunSession`
  drives the class through the caller's loop and is proved equal to
  `Simulate`.
- `SessionProperties` (`properties.dfy`) holds the whole-session lemmas.
- `Scenarios` (`scenarios.dfy`) holds the situations of
  `tests/test_retries.py`. They are stated over a concrete hierarchy of
  Python exception classes, and each policy is built by `Retries`.

Exception classes are a type parameter `K`. Python's `issubclass` between
two classes is a parameter `isSubclass: (K, K) -> bool`. A classifier
matches a class when the class is a subclass of one of its classes.

`_RetryController.__iter__` creates a fresh `completed` flag on every call.
So iterating one controller twice gives two independent sessions, each
modelled by a new `RetrySession`. The controller can be iterated again; each
iteration is a new, single-use session.

## Model

| member | source | states |
|---|---|---|
| `Arguments.Retries` | src/loopretry/__init__.py:20-45 | ValueError with its message exactly when `max_attempts < 1`, checked before the classifier. Otherwise TypeError exactly when `expected_exception` is neither an exception class nor a non-empty tuple of exception classes. On success the policy keeps the budget and the named classes in order. |
| `Arguments.IsExceptionType` | src/loopretry/__init__.py:29-33 | `_is_exception_type`: holds exactly for a class deriving from BaseException, and for no other class, instance or tuple. Its use is stated through the ensures of `AllExceptionTypes` and `Retries`. |
| `Arguments.AllExceptionTypes` | src/loopretry/__init__.py:29-38 | True exactly when every item of the tuple is an exception class. |
| `Arguments.KindsOf` | src/loopretry/__init__.py:35-41 | The classes of an all-exception-class tuple, one per item, in order. |
| `Session.Matches` | src/loopretry/__init__.py:75 | `issubclass(exc_type, expected_exception)`: the raised class is a subclass of one of the classifier's classes. Stated through the ensures of `Exit` and the `SessionProperties` lemmas. |
| `Session.ExitDecision` | src/loopretry/__init__.py:68-81 | Complete on a clean exit; Suppress iff the class matches and `index < max_attempts - 1`; otherwise Propagate. Stated through the ensures of `Exit`; `RunFrom` uses the same decision, so every whole-session lemma rests on it. |
| `Session.RunFrom` | src/loopretry/__init__.py:73-86 | A session that still has budget makes at least 1 and at most the remaining budget of attempts. It sleeps fewer times than it attempts, and it always ends. |
| `Session.Simulate` | src/loopretry/__init__.py:48-86 | A whole session from attempt 0. Under a budget of at least 1 it makes between 1 and `max_attempts` attempts, sleeps fewer times than it attempts, and always ends. Every `SessionProperties` lemma is stated about it. |
| `Session.RetrySession.constructor` | src/loopretry/__init__.py:48-49 | A new iteration starts with `completed` false, no attempt produced, no sleep. |
| `Session.RetrySession.Next` | src/loopretry/__init__.py:83-86 | Yields the indices 0, 1, 2, ... in order, while the session runs and the index is below `max_attempts`. Otherwise yields nothing and marks a still-running session exhausted. |
| `Session.RetrySession.Exit` | src/loopretry/__init__.py:61-81 | A clean exit sets `completed` and does not suppress. A failure is suppressed, with exactly one sleep, iff its class matches and `index < max_attempts - 1`. Otherwise it propagates with its own class and ends the session, with no sleep. |
| `Session.Turn` | src/loopretry/__init__.py:61-86 | One turn of the caller's loop is one step of `RunFrom`: the attempt's `__exit__`, then, unless its exception propagated, the generator's next index. Either the session is still running and yields the next index, and what is left of it is this attempt (with its sleep, if any) followed by the session from that index; or nothing more is yielded, and what is left is this one attempt with the session's ending. |
| `Session.RunSession` | src/loopretry/__init__.py:48-86 | The caller's loop over the class makes exactly the attempts and sleeps, with exactly the ending, that `Simulate` gives. Its attempt indices are 0, 1, 2, ... in order. |
| `SessionProperties.RetriedStretch` | src/loopretry/__init__.py:73-79 | Retried failures before the last attempt each cost one attempt and one sleep, and the session goes on. |
| `SessionProperties.EventualSuccess` | src/loopretry/__init__.py:68-86 | `k` retried failures and then a clean exit, within budget, give exactly `k+1` attempts, `k` sleeps and success. With `k = 0`: one attempt and no sleep. |
| `SessionProperties.PersistentFailure` | src/loopretry/__init__.py:73-81 | Retried failures on every attempt give `max_attempts` attempts and `max_attempts - 1` sleeps. The last failure propagates unchanged. |
| `SessionProperties.UnlistedFailure` | src/loopretry/__init__.py:73-81 | A failure that does not match propagates at its first occurrence, whatever budget remains, with no further sleep. |
| `SessionProperties.RetriedBeforeLastFrom` | src/loopretry/__init__.py:73-86 | In a session from any attempt on, every attempt before the last was never entered or failed with a retried class. |
| `SessionProperties.LastAttemptFrom` | src/loopretry/__init__.py:61-86 | In a session from any attempt on, the ending is explained by the last attempt, as in `EndingExplained`. |
| `SessionProperties.EndingExplained` | src/loopretry/__init__.py:61-86 | Every attempt before the last was skipped or a retried failure. Success means the last attempt exited cleanly. A propagated exception is the last attempt's own class, and it either did not match or came on the final attempt. Silent exhaustion happens only when the last attempt's scope was never entered. |
| `SessionProperties.SleepsBetweenAttemptsFrom` | src/loopretry/__init__.py:73-79 | Same as `SleepsBetweenAttempts`, for the session from any attempt on. |
| `SessionProperties.SleepsBetweenAttempts` | src/loopretry/__init__.py:73-79 | When every attempt's scope is entered, sleeps number exactly one less than attempts, and the session does not end silently. |
| `Scenarios.InvalidMaxAttempts` | tests/test_retries.py:8-13 | A budget of 0 or -1 is refused with ValueError. |
| `Scenarios.InvalidExpectedException` | tests/test_retries.py:16-32 | An instance, and a tuple holding a non-class, are refused with TypeError. |
| `Scenarios.NoException` | tests/test_retries.py:35-46 | Work that never fails runs once, with no sleep. |
| `Scenarios.EventualSuccessAfterTwoFailures` | tests/test_retries.py:49-62 | Two retried failures and then success give three attempts and two sleeps. This holds for the default classifier, for `CustomError` named alone (lines 104-119), and for `SystemExit` named alone (lines 122-136). |
| `Scenarios.Exhaustion` | tests/test_retries.py:65-75 | Budget 3 with constant ValueError gives three attempts and two sleeps. The ValueError propagates. |
| `Scenarios.BaseExceptionNotSwallowed` | tests/test_retries.py:78-85 | A direct BaseException subclass is not retried under the default classifier. |
| `Scenarios.SingleAttempt` | tests/test_retries.py:88-101 | Budget 1 gives one attempt, no sleep, and the failure propagates. |
| `Scenarios.NonListedNotCaught` | tests/test_retries.py:139-143 | A TypeError propagates at once when only ValueError is named. |

## Left out

- `delay_sec` and the real duration of `time.sleep` are not modelled. Each sleep adds one to a ghost counter. The elapsed-time checks of the tests are wall-clock checks and are not modelled.
- `delay_sec` is not validated by `retries`. A negative or NaN `delay_sec` makes `time.sleep` raise ValueError inside `__exit__` at the first retry. That ValueError replaces the caller's exception and ends the session. In the model a sleep never fails.
- Python's class hierarchy and `issubclass` are a parameter, not a definition. The `try/except` around `issubclass` in `_is_exception_type` is not modelled. For a real class the call never raises. Where it could raise, as for an object posing as a type, the `except` returns False, which is what `Instance` gives.
- The exception object and its traceback are not modelled, only its class. "Propagates unchanged" is stated as: the class that leaves the session is the class raised by the last attempt.
- The context-manager mechanics (`__call__` returning the handle, the no-op `__enter__`) are not modelled. They are explicit calls to `Next` and `Exit`.
- After an exception propagates, the model's session is `Failed` and produces no more attempts, which stands for the generator being abandoned. A caller who catches the exception inside the loop body and keeps iterating is not modelled.
- `Session.RetrySession.Exit`: requires a running session and an index that was already yielded. This models the protocol of one scope exit per yielded attempt. Exiting an attempt again after the session ended is not modelled.
- The `ExpectedException` type alias is left out because it has no behaviour.
