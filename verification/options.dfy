/** The retry policy record and its setters (var.go, goretry.go).

    Go mutates the record through a pointer and returns the same pointer
    for chaining; here every setter is a pure function that returns the
    updated record, so aliasing between copies does not arise.
 */
module RetryOptions {
  import opened Errors

  datatype Option<T> = None | Some(value: T)

  /** A judgment receives the index of the invocation within the run
      (counting from 0) and that invocation's outcome values, in order, and
      answers true to stop retrying. A Go judgment is a closure that may keep
      state between its calls; within one run that state is determined by the
      calls made so far, so the index stands for it. */
  type Judgment<!D> = (nat, seq<Value<D>>) -> bool

  /** attempt: number of invocations allowed (documented as >= 1);
      backoff: waiting unit in seconds (documented as >= 0);
      judgment: optional stop predicate. */
  datatype RetryOption<!D> = RetryOption(attempt: int, backoff: int, judgment: Option<Judgment<D>>)

  /** What a setter returns: the (updated) option and the error. */
  datatype Setting<!D> = Setting(option: RetryOption<D>, err: Error)

  /** What a panicking setter does: return the option or panic with an error. */
  datatype MustResult<!D> = Returned(option: RetryOption<D>) | Panicked(err: Error)

  /** The ranges documented on the record's fields. */
  predicate ValidAttempt<D>(op: RetryOption<D>) { op.attempt >= 1 }
  predicate ValidBackoff<D>(op: RetryOption<D>) { op.backoff >= 0 }
  predicate Valid<D>(op: RetryOption<D>) { ValidAttempt(op) && ValidBackoff(op) }

  /** The zero value: no attempts, no backoff, no judgment. */
  function NewRetryOption<D>(): (op: RetryOption<D>)
    ensures op.attempt == 0 && op.backoff == 0 && op.judgment.None?
    ensures !ValidAttempt(op) && ValidBackoff(op)
  {
    RetryOption(0, 0, None)
  }

  /** Stores `a` when it is at least one; otherwise reports ErrInput and
      leaves the option as it was. */
  function SetAttempt<D>(op: RetryOption<D>, a: int): (s: Setting<D>)
    ensures s.err == Nil <==> a >= 1
    ensures s.err != Nil ==> s.err == ErrInput && s.option == op
    ensures s.err == Nil ==> s.option.attempt == a
    ensures s.option.backoff == op.backoff && s.option.judgment == op.judgment
  {
    if a < 1 then Setting(op, ErrInput)
    else Setting(op.(attempt := a), Nil)
  }

  /** As SetAttempt, but panics with ErrInput instead of returning it. */
  function MustSetAttempt<D>(op: RetryOption<D>, a: int): (m: MustResult<D>)
    ensures m.Returned? <==> a >= 1
    ensures m.Panicked? ==> m.err == ErrInput
    ensures m.Returned? ==> m.option.attempt == a && m.option.backoff == op.backoff
                            && m.option.judgment == op.judgment
  {
    if a < 1 then Panicked(ErrInput)
    else Returned(op.(attempt := a))
  }

  /** Stores `b` when it is not negative; otherwise reports ErrInput and
      leaves the option as it was. */
  function SetBackoff<D>(op: RetryOption<D>, b: int): (s: Setting<D>)
    ensures s.err == Nil <==> b >= 0
    ensures s.err != Nil ==> s.err == ErrInput && s.option == op
    ensures s.err == Nil ==> s.option.backoff == b
    ensures s.option.attempt == op.attempt && s.option.judgment == op.judgment
  {
    if b < 0 then Setting(op, ErrInput)
    else Setting(op.(backoff := b), Nil)
  }

  /** As SetBackoff, but panics with ErrInput instead of returning it. */
  function MustSetBackoff<D>(op: RetryOption<D>, b: int): (m: MustResult<D>)
    ensures m.Returned? <==> b >= 0
    ensures m.Panicked? ==> m.err == ErrInput
    ensures m.Returned? ==> m.option.backoff == b && m.option.attempt == op.attempt
                            && m.option.judgment == op.judgment
  {
    if b < 0 then Panicked(ErrInput)
    else Returned(op.(backoff := b))
  }

  /** Installs `f` without any check; `None` is Go's nil function, which
      clears the judgment so that the executors use the default again. */
  function SetJudgment<D>(op: RetryOption<D>, f: Option<Judgment<D>>): (r: RetryOption<D>)
    ensures r.judgment == f
    ensures r.attempt == op.attempt && r.backoff == op.backoff
  {
    op.(judgment := f)
  }

  /** The panicking setters behave as the error-returning ones, with the
      error turned into a panic. */
  lemma MustSetAttemptAgrees<D>(op: RetryOption<D>, a: int)
    ensures SetAttempt(op, a).err == Nil ==> MustSetAttempt(op, a) == Returned(SetAttempt(op, a).option)
    ensures SetAttempt(op, a).err != Nil ==> MustSetAttempt(op, a) == Panicked(SetAttempt(op, a).err)
  {
  }

  lemma MustSetBackoffAgrees<D>(op: RetryOption<D>, b: int)
    ensures SetBackoff(op, b).err == Nil ==> MustSetBackoff(op, b) == Returned(SetBackoff(op, b).option)
    ensures SetBackoff(op, b).err != Nil ==> MustSetBackoff(op, b) == Panicked(SetBackoff(op, b).err)
  {
  }

  /** attempt >= 1 holds after every successful attempt setter, and a failed
      one does not disturb whatever held before. */
  lemma AttemptInvariant<D>(op: RetryOption<D>, a: int)
    ensures SetAttempt(op, a).err == Nil ==> ValidAttempt(SetAttempt(op, a).option)
    ensures ValidAttempt(op) ==> ValidAttempt(SetAttempt(op, a).option)
    ensures MustSetAttempt(op, a).Returned? ==> ValidAttempt(MustSetAttempt(op, a).option)
    ensures ValidBackoff(op) <==> ValidBackoff(SetAttempt(op, a).option)
  {
  }

  /** backoff >= 0 holds after every successful backoff setter, and a failed
      one does not disturb whatever held before. */
  lemma BackoffInvariant<D>(op: RetryOption<D>, b: int)
    ensures SetBackoff(op, b).err == Nil ==> ValidBackoff(SetBackoff(op, b).option)
    ensures ValidBackoff(op) ==> ValidBackoff(SetBackoff(op, b).option)
    ensures MustSetBackoff(op, b).Returned? ==> ValidBackoff(MustSetBackoff(op, b).option)
    ensures ValidAttempt(op) <==> ValidAttempt(SetBackoff(op, b).option)
  {
  }

  /** Setting the same value twice gives the same state and outcome as once. */
  lemma SettersIdempotent<D>(op: RetryOption<D>, a: int, b: int)
    ensures SetAttempt(SetAttempt(op, a).option, a) == SetAttempt(op, a)
    ensures SetBackoff(SetBackoff(op, b).option, b) == SetBackoff(op, b)
  {
  }

  /** Each setter touches only its own field, so the two validated setters
      can be chained in either order. */
  lemma SettersCommute<D>(op: RetryOption<D>, a: int, b: int)
    ensures SetBackoff(SetAttempt(op, a).option, b).option
         == SetAttempt(SetBackoff(op, b).option, a).option
  {
  }

  /** Configuring the zero value with both validated setters reports no error
      exactly when both inputs are in range, and yields a valid option exactly
      when the attempt is in range (the zero backoff is already valid). */
  lemma ConfiguredIsValid<D>(a: int, b: int)
    ensures (SetAttempt(NewRetryOption<D>(), a).err == Nil
             && SetBackoff(SetAttempt(NewRetryOption<D>(), a).option, b).err == Nil) <==> a >= 1 && b >= 0
    ensures Valid(SetBackoff(SetAttempt(NewRetryOption<D>(), a).option, b).option) <==> a >= 1
  {
  }
}
