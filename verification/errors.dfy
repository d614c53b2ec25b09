/** Error values and Go interface values of the retry library (var.go).

    Go errors are compared by identity. `Nil` is the absent error, the two
    sentinels are the package's exported error variables, and `Other(id)`
    stands for any error created by a caller (two errors are the same error
    exactly when their ids are equal).
 */
module Errors {

  datatype Error = Nil | ErrMaxApt | ErrInput | Other(id: nat)

  /** A Go `interface{}` value as a judgment sees it: the nil interface,
      a boxed non-nil error, or a caller's data of type D. */
  datatype Value<D> = Null | Err(err: Error) | Data(datum: D)

  /** Converts an `error` to `interface{}`: a nil error becomes the nil
      interface, any other error is boxed unchanged. */
  function Box<D>(e: Error): (v: Value<D>)
    ensures v.Null? <==> e.Nil?
    ensures !e.Nil? ==> v == Err(e)
  {
    if e.Nil? then Null else Err(e)
  }

  /** The two sentinels are non-nil, and they are different errors,
      so a caller can tell them apart by comparison. */
  lemma SentinelsDistinct()
    ensures ErrMaxApt != Nil && ErrInput != Nil
    ensures ErrMaxApt != ErrInput
    ensures forall id: nat :: Other(id) != ErrMaxApt && Other(id) != ErrInput
  {
  }

  /** Boxing never loses information: distinct errors stay distinct values. */
  lemma BoxInjective<D>(e1: Error, e2: Error)
    requires Box<D>(e1) == Box<D>(e2)
    ensures e1 == e2
  {
  }
}
