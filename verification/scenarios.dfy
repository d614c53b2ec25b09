/** The table-driven cases of goretry_test.go, stated as lemmas about the
    model. The operations there count their calls in a captured variable;
    here the k-th call's outcome is written as a function of k.
 */
module Scenarios {
  import opened Errors
  import opened RetryOptions
  import opened Executors

  /** The two errors the tests define. */
  const ErrOdd: Error := Other(1)
  const ErrEven: Error := Other(2)

  /** The ReDo test operation: ErrEven for an even seed, ErrOdd otherwise. */
  function Parity(seed: int): Error
  {
    if seed % 2 == 0 then ErrEven else ErrOdd
  }

  /** The ReTry test operation: the k-th call returns seed + k + 1 and no error. */
  function Counter(seed: int): nat -> (Value<int>, Error)
  {
    (k: nat) => (Data(seed + k + 1), Nil)
  }

  /** A judgment that accepts when the first argument is an int of at least n. */
  function AtLeast(n: int): Judgment<int>
  {
    (i: nat, args: seq<Value<int>>) => |args| > 0 && args[0].Data? && args[0].datum >= n
  }

  /** Six attempts, stop on anything but ErrEven, an operation that always
      fails with ErrEven: six invocations, then ErrMaxApt. */
  lemma ReDoAlwaysEven()
    ensures var op := RetryOption(6, 0, Some((i: nat, args: seq<Value<int>>) => |args| > 0 && args[0] != Err(ErrEven)));
            var r := ReDo(op, (k: nat) => Parity(8));
            r.result == ErrMaxApt && r.invocations == 6 && r.sleeps == [0, 0, 0, 0, 0]
  {
  }

  /** Six attempts, stop on ErrOdd, an operation that always fails with
      ErrOdd: one invocation, no sleep, and ErrOdd itself is returned. */
  lemma ReDoOddAccepted()
    ensures var op := RetryOption(6, 0, Some((i: nat, args: seq<Value<int>>) => |args| > 0 && args[0] == Err(ErrOdd)));
            var r := ReDo(op, (k: nat) => Parity(9));
            r.result == ErrOdd && r.invocations == 1 && r.sleeps == []
  {
  }

  /** The counter is accepted once it reaches n, on invocation n - seed,
      provided that lies within the attempt limit; no error is reported. */
  lemma {:induction false} ReTryCounterReaches(attempt: int, seed: int, n: int)
    requires seed < n <= seed + attempt
    ensures var r := ReTry(RetryOption(attempt, 0, Some(AtLeast(n))), Counter(seed));
            r.result == (Data(n), Nil) && r.invocations == n - seed
  {
    var op := RetryOption(attempt, 0, Some(AtLeast(n)));
    var f := Counter(seed);
    var m := n - seed;
    forall k: nat | k < m - 1
      ensures !Judge(op)(k, [f(k).0, Box(f(k).1)])
    {
      assert f(k).0 == Data(seed + k + 1);
    }
    assert f(m - 1).0 == Data(n);
    ReTryEarlyStop(op, f, m);
  }

  /** Six attempts, stop at 3, counter from 0: (3, nil) after 3 invocations. */
  lemma ReTryStopsAtThree()
    ensures var r := ReTry(RetryOption(6, 0, Some(AtLeast(3))), Counter(0));
            r.result == (Data(3), Nil) && r.invocations == 3
  {
    ReTryCounterReaches(6, 0, 3);
  }

  /** Ten attempts, stop at 10, counter from 0: (10, nil) on the last attempt. */
  lemma ReTryStopsAtTen()
    ensures var r := ReTry(RetryOption(10, 0, Some(AtLeast(10))), Counter(0));
            r.result == (Data(10), Nil) && r.invocations == 10
  {
    ReTryCounterReaches(10, 0, 10);
  }

  /** The setter cases: 1, 2, 100 and 600 are stored on a fresh option
      without error, -1 is refused with ErrInput. */
  lemma SetAttemptCases()
    ensures forall a :: a in {1, 2, 100, 600} ==>
              SetAttempt(NewRetryOption<int>(), a) == Setting(RetryOption(a, 0, None), Nil)
    ensures SetAttempt(NewRetryOption<int>(), -1) == Setting(NewRetryOption(), ErrInput)
  {
  }

  /** A judgment with state: it ignores the outcome and stops on its third
      call. With six attempts and an operation that always fails the same
      way, the run makes three invocations and returns the third outcome. */
  lemma StatefulJudgmentStopsOnThird()
    ensures var r := ReDo(RetryOption(6, 0, Some((i: nat, args: seq<Value<int>>) => i == 2)), (k: nat) => ErrEven);
            r.result == ErrEven && r.invocations == 3 && r.sleeps == [0, 0]
  {
  }
}
