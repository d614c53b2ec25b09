/** The two retry loops, ReDo and ReTry (goretry.go).

    The operation is abstracted as the outcome of each invocation: `f(k)` is
    what the operation returns on its k-th call, counting from 0. A sleep is
    recorded as the number of seconds requested instead of being performed,
    and every run reports how often it invoked the operation.
 */
module Executors {
  import opened Errors
  import opened RetryOptions

  /** What one executor call did: the value it returned, how many times it
      invoked the operation, and the sleeps (in seconds) it requested, in order. */
  datatype Run<R> = Run(result: R, invocations: nat, sleeps: seq<int>)

  /** The state the loop ends in: the last outcome seen (if any), whether the
      judgment accepted it, the invocations made and the sleeps requested. */
  datatype Trace<O> = Trace(last: Option<O>, accepted: bool, invocations: nat, sleeps: seq<int>)

  /** How many times a loop over the indices 0 .. attempt - 1 runs. */
  function Budget(attempt: int): nat
  {
    if attempt > 0 then attempt else 0
  }

  /** The seconds slept before every invocation but the first: the backoff
      unit times the attempt limit, the same for every index. */
  function Pause<D>(op: RetryOption<D>): int
  {
    op.backoff * op.attempt
  }

  /** The judgment installed when none is set: it stops when its first
      argument is the nil interface. */
  function DefaultJudgment<D>(): Judgment<D>
  {
    (k: nat, args: seq<Value<D>>) => |args| > 0 && args[0].Null?
  }

  /** The judgment an executor actually uses. The option is received by value,
      so installing the default leaves the caller's option untouched. */
  function Judge<D>(op: RetryOption<D>): Judgment<D>
  {
    match op.judgment
    case Some(j) => j
    case None => DefaultJudgment()
  }

  /** The loop shared by both executors, entered at index i with `last` the
      outcome of the previous invocation. */
  function Loop<O>(attempt: int, pause: int, accept: (nat, O) -> bool, f: nat -> O, i: nat, last: Option<O>): (t: Trace<O>)
    requires i <= Budget(attempt)
    requires i == 0 <==> last.None?
    decreases attempt - i
    ensures i <= t.invocations <= Budget(attempt)
    ensures |t.sleeps| == if i == 0 && t.invocations > 0 then t.invocations - 1 else t.invocations - i
    ensures forall k :: 0 <= k < |t.sleeps| ==> t.sleeps[k] == pause
    ensures forall k: nat :: i <= k < t.invocations - 1 ==> !accept(k, f(k))
    ensures t.invocations == i ==> !t.accepted && t.last == last
    ensures t.invocations > i ==> t.last == Some(f(t.invocations - 1))
    ensures t.accepted <==> t.invocations > i && accept(t.invocations - 1, f(t.invocations - 1))
    ensures !t.accepted ==> t.invocations == Budget(attempt)
  {
    if i >= attempt then Trace(last, false, i, [])
    else
      var o := f(i);
      var slept := if i > 0 then [pause] else [];
      if accept(i, o) then Trace(Some(o), true, i + 1, slept)
      else
        var t := Loop(attempt, pause, accept, f, i + 1, Some(o));
        t.(sleeps := slept + t.sleeps)
  }

  /** True when the run's last invocation was accepted by the judgment. */
  predicate ReDoStopped<D>(op: RetryOption<D>, f: nat -> Error, n: nat)
  {
    n > 0 && Judge(op)(n - 1, [Box(f(n - 1))])
  }

  /** Retries an error-only operation until the judgment accepts the error
      or the attempt limit is reached; exhaustion replaces the last error
      with ErrMaxApt. */
  function ReDo<D>(op: RetryOption<D>, f: nat -> Error): (r: Run<Error>)
    ensures r.invocations <= Budget(op.attempt)
    ensures |r.sleeps| == if r.invocations == 0 then 0 else r.invocations - 1
    ensures forall k :: 0 <= k < |r.sleeps| ==> r.sleeps[k] == op.backoff * op.attempt
    ensures forall k: nat :: k < r.invocations - 1 ==> !Judge(op)(k, [Box(f(k))])
    ensures ReDoStopped(op, f, r.invocations) ==> r.result == f(r.invocations - 1)
    ensures !ReDoStopped(op, f, r.invocations) ==> r.invocations == Budget(op.attempt) && r.result == ErrMaxApt
  {
    var judge := Judge(op);
    var t := Loop(op.attempt, Pause(op), (k: nat, e: Error) => judge(k, [Box(e)]), f, 0, None);
    Run(if t.accepted then t.last.value else ErrMaxApt, t.invocations, t.sleeps)
  }

  /** True when the run's last invocation was accepted by the judgment,
      which receives the data and then the error. */
  predicate ReTryStopped<D>(op: RetryOption<D>, f: nat -> (Value<D>, Error), n: nat)
  {
    n > 0 && Judge(op)(n - 1, [f(n - 1).0, Box(f(n - 1).1)])
  }

  /** Retries a (data, error) operation until the judgment accepts the pair
      or the attempt limit is reached; exhaustion keeps the last data (nil if
      there was no invocation) and replaces the error with ErrMaxApt. */
  function ReTry<D>(op: RetryOption<D>, f: nat -> (Value<D>, Error)): (r: Run<(Value<D>, Error)>)
    ensures r.invocations <= Budget(op.attempt)
    ensures |r.sleeps| == if r.invocations == 0 then 0 else r.invocations - 1
    ensures forall k :: 0 <= k < |r.sleeps| ==> r.sleeps[k] == op.backoff * op.attempt
    ensures forall k: nat :: k < r.invocations - 1 ==> !Judge(op)(k, [f(k).0, Box(f(k).1)])
    ensures ReTryStopped(op, f, r.invocations) ==> r.result == f(r.invocations - 1)
    ensures !ReTryStopped(op, f, r.invocations) ==>
              && r.invocations == Budget(op.attempt)
              && r.result.0 == (if r.invocations == 0 then Null else f(r.invocations - 1).0)
              && r.result.1 == ErrMaxApt
  {
    var judge := Judge(op);
    var t := Loop(op.attempt, Pause(op), (k: nat, o: (Value<D>, Error)) => judge(k, [o.0, Box(o.1)]), f, 0, None);
    if t.accepted then Run(t.last.value, t.invocations, t.sleeps)
    else Run((if t.last.Some? then t.last.value.0 else Null, ErrMaxApt), t.invocations, t.sleeps)
  }

  /** The executors receive the option by value: running with no judgment
      is the same as running a copy with the default installed, and the
      caller's option keeps no judgment afterwards. */
  lemma DefaultInstalledOnCopy<D>(op: RetryOption<D>, f: nat -> Error, g: nat -> (Value<D>, Error))
    requires op.judgment.None?
    ensures ReDo(op, f) == ReDo(SetJudgment(op, Some(DefaultJudgment())), f)
    ensures ReTry(op, g) == ReTry(SetJudgment(op, Some(DefaultJudgment())), g)
    ensures SetJudgment(op, Some(DefaultJudgment())) != op
  {
  }

  /** Setting a nil judgment brings the default back, whatever judgment the
      option held before: both executors then run as with the default. */
  lemma ClearedJudgmentIsDefault<D>(op: RetryOption<D>, f: nat -> Error, g: nat -> (Value<D>, Error), k: nat, e: Error, d: Value<D>)
    ensures Judge(SetJudgment(op, None))(k, [Box(e)]) <==> e == Nil
    ensures Judge(SetJudgment(op, None))(k, [d, Box(e)]) <==> d == Null
    ensures ReDo(SetJudgment(op, None), f) == ReDo(SetJudgment(op, Some(DefaultJudgment())), f)
    ensures ReTry(SetJudgment(op, None), g) == ReTry(SetJudgment(op, Some(DefaultJudgment())), g)
  {
  }

  /** When the judgment rejects every outcome, ReDo invokes the operation
      exactly `attempt` times, sleeps between them, and returns ErrMaxApt. */
  lemma ReDoExhaustion<D>(op: RetryOption<D>, f: nat -> Error)
    requires forall k: nat :: k < op.attempt ==> !Judge(op)(k, [Box(f(k))])
    ensures ReDo(op, f).invocations == Budget(op.attempt)
    ensures ReDo(op, f).result == ErrMaxApt
    ensures |ReDo(op, f).sleeps| == if op.attempt > 0 then op.attempt - 1 else 0
  {
  }

  /** When invocation m (counting from 1, m within the limit) is the first
      accepted one, ReDo invokes the operation exactly m times and returns
      that outcome unchanged. */
  lemma ReDoEarlyStop<D>(op: RetryOption<D>, f: nat -> Error, m: nat)
    requires 1 <= m <= op.attempt
    requires forall k: nat :: k < m - 1 ==> !Judge(op)(k, [Box(f(k))])
    requires Judge(op)(m - 1, [Box(f(m - 1))])
    ensures ReDo(op, f).invocations == m
    ensures ReDo(op, f).result == f(m - 1)
    ensures |ReDo(op, f).sleeps| == m - 1
  {
  }

  /** The ReTry counterpart of ReDoExhaustion: the last data is kept and
      the error is replaced by ErrMaxApt. */
  lemma ReTryExhaustion<D>(op: RetryOption<D>, f: nat -> (Value<D>, Error))
    requires op.attempt >= 1
    requires forall k: nat :: k < op.attempt ==> !Judge(op)(k, [f(k).0, Box(f(k).1)])
    ensures ReTry(op, f).invocations == op.attempt
    ensures ReTry(op, f).result == (f(op.attempt - 1).0, ErrMaxApt)
    ensures |ReTry(op, f).sleeps| == op.attempt - 1
  {
  }

  /** The ReTry counterpart of ReDoEarlyStop. */
  lemma ReTryEarlyStop<D>(op: RetryOption<D>, f: nat -> (Value<D>, Error), m: nat)
    requires 1 <= m <= op.attempt
    requires forall k: nat :: k < m - 1 ==> !Judge(op)(k, [f(k).0, Box(f(k).1)])
    requires Judge(op)(m - 1, [f(m - 1).0, Box(f(m - 1).1)])
    ensures ReTry(op, f).invocations == m
    ensures ReTry(op, f).result == f(m - 1)
    ensures |ReTry(op, f).sleeps| == m - 1
  {
  }

  /** An option fresh from NewRetryOption has attempt 0: neither executor
      invokes the operation, neither sleeps, and both report ErrMaxApt
      (ReTry with nil data). */
  lemma ZeroAttempts<D>(f: nat -> Error, g: nat -> (Value<D>, Error))
    ensures ReDo(NewRetryOption<D>(), f) == Run(ErrMaxApt, 0, [])
    ensures ReTry(NewRetryOption<D>(), g) == Run((Null, ErrMaxApt), 0, [])
  {
  }

  /** With no judgment set, ReDo accepts exactly the nil error. */
  lemma DefaultReDoStopsOnNilError<D>(op: RetryOption<D>, k: nat, e: Error)
    requires op.judgment.None?
    ensures Judge(op)(k, [Box(e)]) <==> e == Nil
  {
  }

  /** With no judgment set, ReTry accepts exactly the nil data, whatever the
      error: the default tests the first argument, which for ReTry is the
      data, not the error the accompanying comment names. */
  lemma DefaultReTryStopsOnNilData<D>(op: RetryOption<D>, k: nat, d: Value<D>, e: Error)
    requires op.judgment.None?
    ensures Judge(op)(k, [d, Box(e)]) <==> d == Null
  {
  }

  /** The consequence of the default on ReTry: nil data with a real error
      ends the loop at once and hands the error back, while non-nil data with
      no error is retried until the limit and then reported as ErrMaxApt. */
  lemma DefaultReTryIgnoresError<D>(op: RetryOption<D>, x: D, e: Error)
    requires op.judgment.None? && op.attempt >= 1
    ensures ReTry(op, (k: nat) => (Null, e)).invocations == 1
    ensures ReTry(op, (k: nat) => (Null, e)).result == (Null, e)
    ensures ReTry(op, (k: nat) => (Data(x), Nil)).invocations == op.attempt
    ensures ReTry(op, (k: nat) => (Data(x), Nil)).result == (Data(x), ErrMaxApt)
  {
  }

  /** Total seconds slept. */
  function TotalSleep(sleeps: seq<int>): int
  {
    if sleeps == [] then 0 else sleeps[0] + TotalSleep(sleeps[1..])
  }

  lemma {:induction false} TotalOfConstant(sleeps: seq<int>, c: int)
    requires forall k :: 0 <= k < |sleeps| ==> sleeps[k] == c
    ensures TotalSleep(sleeps) == |sleeps| * c
  {
    if sleeps != [] {
      TotalOfConstant(sleeps[1..], c);
    }
  }

  /** A run of n invocations waits n - 1 times backoff * attempt seconds in
      all, and never asks for a negative sleep once the option is valid. */
  lemma {:induction false} ReDoTotalSleep<D>(op: RetryOption<D>, f: nat -> Error)
    ensures var r := ReDo(op, f);
            TotalSleep(r.sleeps) == (if r.invocations == 0 then 0 else r.invocations - 1) * (op.backoff * op.attempt)
    ensures Valid(op) ==> TotalSleep(ReDo(op, f).sleeps) >= 0
  {
    var r := ReDo(op, f);
    TotalOfConstant(r.sleeps, op.backoff * op.attempt);
    if Valid(op) {
      assert op.backoff * op.attempt >= 0;
      assert |r.sleeps| * (op.backoff * op.attempt) >= 0;
    }
  }

  lemma {:induction false} ReTryTotalSleep<D>(op: RetryOption<D>, f: nat -> (Value<D>, Error))
    ensures var r := ReTry(op, f);
            TotalSleep(r.sleeps) == (if r.invocations == 0 then 0 else r.invocations - 1) * (op.backoff * op.attempt)
    ensures Valid(op) ==> TotalSleep(ReTry(op, f).sleeps) >= 0
  {
    var r := ReTry(op, f);
    TotalOfConstant(r.sleeps, op.backoff * op.attempt);
    if Valid(op) {
      assert op.backoff * op.attempt >= 0;
      assert |r.sleeps| * (op.backoff * op.attempt) >= 0;
    }
  }
}
