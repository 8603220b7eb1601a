/** Shared vocabulary of the model: optional values, results that may carry
    one of the Python exceptions the engine can raise, and the few numeric
    helpers of Python's `math`/builtins that the engine uses. */
module Common {

  datatype Option<+T> = None | Some(value: T)

  /** A value, or the exception that interrupted its computation.
      Supports Dafny's `:-` so that a raised exception propagates. */
  datatype Result<+T, +E> = Success(value: T) | Failure(error: E) {
    predicate IsFailure() { Failure? }

    function PropagateFailure<U>(): Result<U, E>
      requires Failure?
    {
      Failure(error)
    }

    function Extract(): T
      requires Success?
    {
      value
    }
  }

  /** The Python exceptions raised by the modelled code. */
  datatype Fault =
    | ZeroDivisionError
    | TypeError
    | KeyError
    | AttributeError
    | IndexError
    | ValueError

  type NonZero = x: real | x != 0.0 witness 1.0

  /** `math.pi`, written as the decimal that Python prints for it. */
  const Pi: real := 3.141592653589793

  function Abs(x: real): real { if x < 0.0 then -x else x }

  function Min(a: real, b: real): real { if b < a then b else a }

  function Max(a: real, b: real): real { if b > a then b else a }

  /** `numpy.sign`. */
  function Sign(x: real): real { if x > 0.0 then 1.0 else if x < 0.0 then -1.0 else 0.0 }

  /** `math.isclose(a, b, abs_tol=absTol)` with its default relative tolerance. */
  const RelTol: real := 0.000000001

  predicate IsClose(a: real, b: real, absTol: real)
    requires absTol >= 0.0
  {
    Abs(a - b) <= Max(RelTol * Max(Abs(a), Abs(b)), absTol)
  }

  /** With no absolute tolerance, only an exact zero is close to zero. */
  lemma IsCloseToZeroIsExact(x: real)
    ensures IsClose(x, 0.0, 0.0) <==> x == 0.0
  {
    if x != 0.0 {
      assert Abs(x) > 0.0;
      assert RelTol * Abs(x) < Abs(x);
    }
  }
}
