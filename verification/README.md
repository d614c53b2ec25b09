# go-retry in Dafny

A model of the Go package `goretry`: a retry policy (`RetryOption`: an
attempt limit, a backoff unit in seconds and an optional judgment predicate),
its validated and panicking setters, and the two retry loops `ReDo` (for an
operation returning only an error) and `ReTry` (for an operation returning
data and an error).

- `errors.dfy` — module `Errors`: the error identities (`Nil`, the sentinels
  `ErrMaxApt` and `ErrInput`, caller errors `Other(id)`) and `Value<D>`, a
  Go `interface{}` as a judgment sees it (nil, a boxed error, or data).
- `options.dfy` — module `RetryOptions`: the record, `NewRetryOption`, the
  setters as pure functions returning the updated record, and the field
  invariants `attempt >= 1`, `backoff >= 0`.
- `executors.dfy` — module `Executors`: the loop both executors share
  (`Loop`), `ReDo`, `ReTry`, the default judgment and the delay schedule.
  The operation is a function `f: nat -> outcome` giving the outcome of its
  k-th call (from 0); each run reports its result, the number of
  invocations and the list of sleeps requested.
- `scenarios.dfy` — module `Scenarios`: the cases of `goretry_test.go`.

The judgment keeps Go's variadic argument list, so one option serves both
executors as in Go: `ReDo` passes `[err]`, `ReTry` passes `[data, err]`, with
a nil error boxed as the nil interface. A Go judgment is a closure and may
keep state between its calls, so the model also hands it the index of the
invocation within the run: its type is `(nat, seq<Value<D>>) -> bool`. Within
one run the closure's state is fixed by the calls made so far, so a judgment
that, say, counts its calls is a judgment of the index.

The default judgment tests the first argument against nil. For `ReDo` that is
the error, but for `ReTry` it is the data, although the comment on
goretry.go:33 says the default is `err == nil`. The model follows the code,
and `Executors.DefaultReTryStopsOnNilData` and
`Executors.DefaultReTryIgnoresError` state the consequence: nil data with a
real error is accepted at once, and non-nil data with no error is retried
until the limit and reported as `ErrMaxApt`.

The sleep before every invocation but the first is `backoff * attempt`
seconds. It is constant, not scaled by the loop index, and the model keeps it
that way.

## Model

| member | source | states |
|---|---|---|
| `Errors.Box` | goretry.go:21 | passing an error to the judgment converts it to `interface{}` (here and at goretry.go line 44): the nil interface exactly for the nil error, any other error boxed unchanged |
| `Errors.BoxInjective` | goretry.go:21 | distinct errors are distinct judgment arguments, so a judgment can compare them by identity |
| `Errors.SentinelsDistinct` | var.go:5-8 | `ErrMaxApt` and `ErrInput` are non-nil, different from each other and from every caller error |
| `RetryOptions.NewRetryOption` | goretry.go:52-55 | the fresh option has attempt 0, backoff 0 and no judgment, so its attempt lies outside the documented range |
| `RetryOptions.SetAttempt` | goretry.go:61-67 | no error exactly when `a >= 1`, and then `a` is stored; otherwise `ErrInput` with the option unchanged; backoff and judgment are never touched |
| `RetryOptions.MustSetAttempt` | goretry.go:73-79 | returns exactly when `a >= 1`, with `a` stored and the other fields kept; otherwise panics with `ErrInput` |
| `RetryOptions.SetBackoff` | goretry.go:85-91 | no error exactly when `b >= 0`, and then `b` is stored; otherwise `ErrInput` with the option unchanged; attempt and judgment are never touched |
| `RetryOptions.MustSetBackoff` | goretry.go:97-103 | returns exactly when `b >= 0`, with `b` stored and the other fields kept; otherwise panics with `ErrInput` |
| `RetryOptions.SetJudgment` | goretry.go:106-109 | installs the given predicate, or nil (`None`), with no check, and keeps attempt and backoff |
| `RetryOptions.MustSetAttemptAgrees` | goretry.go:61-79 | the panicking attempt setter returns the same option as the validated one on valid input and panics with its error on invalid input |
| `RetryOptions.MustSetBackoffAgrees` | goretry.go:85-103 | the same agreement for the backoff setters |
| `RetryOptions.AttemptInvariant` | var.go:11-12 | every successful attempt setter establishes `attempt >= 1`, a failed one keeps whatever held, and the backoff invariant is unaffected |
| `RetryOptions.BackoffInvariant` | var.go:14-15 | every successful backoff setter establishes `backoff >= 0`, a failed one keeps whatever held, and the attempt invariant is unaffected |
| `RetryOptions.SettersIdempotent` | goretry.go:61-91 | setting the same value twice gives the same option and error as setting it once |
| `RetryOptions.SettersCommute` | goretry.go:61-91 | the attempt and backoff setters touch disjoint fields, so chaining them in either order gives the same option |
| `RetryOptions.ConfiguredIsValid` | goretry.go:53-91 | configuring a fresh option reports no error exactly when both inputs are in range, and gives a valid option exactly when the attempt is in range |
| `Executors.Loop` | goretry.go:15-24 | the shared loop makes at most `attempt` invocations, sleeps the same pause before each but the first, rejects every outcome before the last, and either accepted the last outcome or used up the whole limit |
| `Executors.ReDo` | goretry.go:10-27 | sleeps `backoff*attempt` seconds before every invocation but the first; every invocation before the last was rejected; an accepted last error is returned unchanged; otherwise all `attempt` invocations were made and `ErrMaxApt` is returned |
| `Executors.ReTry` | goretry.go:32-50 | as `ReDo` with the judgment given `(data, err)`; an accepted pair is returned unchanged; on exhaustion the last data (nil if there was no invocation) is kept and the error becomes `ErrMaxApt` |
| `Executors.DefaultInstalledOnCopy` | goretry.go:10-14 | the option is received by value: running with no judgment equals running a copy with the default installed, and that copy differs from the caller's option |
| `Executors.ClearedJudgmentIsDefault` | goretry.go:106-109 | setting a nil judgment, whatever was set before, makes both executors use the default again and run exactly as with the default installed |
| `Executors.ReDoExhaustion` | goretry.go:15-26 | a judgment that rejects every outcome makes ReDo invoke the operation exactly `attempt` times, sleep `attempt - 1` times and return `ErrMaxApt` |
| `Executors.ReDoEarlyStop` | goretry.go:20-23 | if invocation m is the first accepted one, ReDo invokes the operation exactly m times and returns that outcome |
| `Executors.ReTryExhaustion` | goretry.go:37-49 | a judgment that rejects every outcome makes ReTry invoke the operation `attempt` times and return the last data with `ErrMaxApt` |
| `Executors.ReTryEarlyStop` | goretry.go:42-46 | if invocation m is the first accepted one, ReTry invokes the operation exactly m times and returns that pair |
| `Executors.ZeroAttempts` | goretry.go:53-55 | a fresh option makes neither executor invoke or sleep; both report `ErrMaxApt`, ReTry with nil data |
| `Executors.DefaultReDoStopsOnNilError` | goretry.go:12-14 | with no judgment set, ReDo accepts exactly the nil error |
| `Executors.DefaultReTryStopsOnNilData` | goretry.go:34-36 | with no judgment set, ReTry accepts exactly nil data, whatever the error |
| `Executors.DefaultReTryIgnoresError` | goretry.go:33-46 | with the default, nil data with an error stops after one call returning that error, and non-nil data with no error is retried until the limit and reported as `ErrMaxApt` |
| `Executors.TotalOfConstant` | goretry.go:16-18 | a list of equal sleeps adds up to its length times the sleep |
| `Executors.ReDoTotalSleep` | goretry.go:15-18 | a ReDo run of n invocations sleeps `(n - 1) * backoff * attempt` seconds in all, never negative for a valid option |
| `Executors.ReTryTotalSleep` | goretry.go:37-40 | the same total for ReTry |
| `Scenarios.ReDoAlwaysEven` | goretry_test.go:21-25 | six attempts that always reject `ErrEven` give `ErrMaxApt` after six invocations and five zero-second sleeps |
| `Scenarios.ReDoOddAccepted` | goretry_test.go:26-30 | a judgment accepting `ErrOdd` stops at the first invocation and returns `ErrOdd` |
| `Scenarios.ReTryCounterReaches` | goretry_test.go:54-71 | a counter operation from `seed`, judged "data >= n", is accepted with `(n, nil)` on invocation `n - seed` when that is within the limit |
| `Scenarios.ReTryStopsAtThree` | goretry_test.go:54-58 | six attempts, stop at 3: `(3, nil)` after three invocations |
| `Scenarios.ReTryStopsAtTen` | goretry_test.go:59-63 | ten attempts, stop at 10: `(10, nil)` on the tenth invocation |
| `Scenarios.StatefulJudgmentStopsOnThird` | goretry.go:19-23 | a judgment that stops on its third call, whatever the outcome, ends a six-attempt run after three invocations with the third outcome |
| `Scenarios.SetAttemptCases` | goretry_test.go:86-100 | 1, 2, 100 and 600 are stored without error on a fresh option, -1 is refused with `ErrInput` |

## Left out

- Sleeping: a sleep is recorded as the number of seconds requested. The conversion to `time.Duration` (nanoseconds) and its int64 overflow are not modelled.
- Integer width: `attempt` and `backoff` are unbounded integers, not Go's 64-bit `int`.
- Panics inside a judgment (an index or type assertion failing in a caller's predicate) do not propagate: a judgment is a total function. The default judgment answers false on an empty argument list, which neither executor passes.
- Panics raised by the operation itself propagate out of the Go loop; the model's operation is a total function of the call index and never fails that way.
- Judgment state carried between separate executor calls: a closure reused by a second run may answer differently from the first, while the model gives each run its judgment as a function of the index within that run.
- The `Must*` setters do not unwind: a panic is the result value `Panicked(ErrInput)`.
- Pointer aliasing: the setters return a new record instead of mutating one shared through a pointer, so the chained `*RetryOption` sharing is not modelled.
- Side effects of the operation (such as the counter the tests increment) are folded into `f(k)`, the outcome of the k-th call.
- A Go `interface{}` holding a nil error typed value is not distinguished from the nil interface.
- `TestSetBackoff` in goretry_test.go calls `SetAttempt`, so it states nothing about `SetBackoff`; it has no lemma of its own.
