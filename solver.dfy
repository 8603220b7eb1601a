/** The 1 x 1 Newton-Raphson solver (geotech_module/solver.py). The target
    function is any total function that may raise; the numerical quality of
    the iterates is not modelled, only the structure of the iteration and
    the shape of the result. */
module Solver {
  import opened Common
  import Tolerance

  /** The step of the central difference. */
  const Delta1: real := 0.00001

  /** The loop runs while the pass counter is at most this bound. */
  const MaxPassIndex: int := 20

  /** A function the solver can call: it returns a float or raises. */
  type Target = real -> Result<real, Fault>

  /** What the solver hands back as root or target: a float, or the
      one-element list `[0.0]` used as the failure sentinel. */
  datatype SolverValue = Num(x: real) | ZeroList

  /** The tuple `(condition, i, final_root, final_target)`. */
  datatype SolverResult = SolverResult(converged: bool, iterations: int, finalRoot: SolverValue, finalTarget: SolverValue)

  /** `operator_phi_11`: the central-difference slope at the single variable;
      any other number of variables raises ValueError. */
  function OperatorPhi11(f: Target, variables: seq<real>): Result<real, Fault>
  {
    if |variables| != 1 then Failure(ValueError)
    else
      var x := variables[0];
      var p1 :- f(x + Delta1);
      var p2 :- f(x - Delta1);
      Success((p1 - p2) / (2.0 * Delta1))
  }

  /** On an affine function the central difference is the exact slope. */
  lemma OperatorPhi11Affine(f: Target, a: real, b: real, x: real)
    requires forall y :: f(y) == Success(a * y + b)
    ensures OperatorPhi11(f, [x]) == Success(a)
  {
    var p1 := f(x + Delta1).value;
    var p2 := f(x - Delta1).value;
    assert p1 - p2 == a * (2.0 * Delta1);
  }

  /** The Newton update `x + phi^-1 . (t - v)` of the root, for a slope `phi`
      and the value `v` of the function at `x`. */
  function NewtonUpdate(x: real, phi: real, t: real, v: real): (next: real)
    requires phi != 0.0
    ensures (next - x) * phi == t - v
  {
    x + (1.0 / phi) * (t - v)
  }

  /** The passes of `solve` from pass counter `i` (passes already made) and
      current root `x`, with target `t` and tolerance `tol`. */
  function NewtonFrom(f: Target, t: real, tol: real, x: real, i: int): Result<SolverResult, Fault>
    requires 0 <= i <= MaxPassIndex + 1 && tol >= 0.0
    decreases MaxPassIndex + 1 - i
  {
    if i > MaxPassIndex then Success(SolverResult(false, i, ZeroList, ZeroList))
    else
      var v :- f(x);
      var slope :- OperatorPhi11(f, [x]);
      if slope == 0.0 then Success(SolverResult(false, i + 1, ZeroList, ZeroList))
      else
        var next := NewtonUpdate(x, slope, t, v);
        if IsClose(t, v, tol) then Success(SolverResult(true, i + 1, Num(next), Num(v)))
        else NewtonFrom(f, t, tol, next, i + 1)
  }

  /** A pass whose evaluation of `f` raises ends the solve with that exception. */
  lemma NewtonFromRaises(f: Target, t: real, tol: real, x: real, i: int)
    requires 0 <= i <= MaxPassIndex && tol >= 0.0
    ensures f(x).Failure? ==> NewtonFrom(f, t, tol, x, i) == Failure(f(x).error)
    ensures f(x).Success? && OperatorPhi11(f, [x]).Failure? ==>
              NewtonFrom(f, t, tol, x, i) == Failure(OperatorPhi11(f, [x]).error)
  {
  }

  /** One pass of `NewtonFrom` once the value and the slope at `x` are known. */
  lemma NewtonFromStep(f: Target, t: real, tol: real, x: real, i: int, v: real, slope: real)
    requires 0 <= i <= MaxPassIndex && tol >= 0.0
    requires f(x) == Success(v) && OperatorPhi11(f, [x]) == Success(slope)
    ensures slope == 0.0 ==> NewtonFrom(f, t, tol, x, i) == Success(SolverResult(false, i + 1, ZeroList, ZeroList))
    ensures slope != 0.0 && IsClose(t, v, tol) ==>
              NewtonFrom(f, t, tol, x, i) == Success(SolverResult(true, i + 1, Num(NewtonUpdate(x, slope, t, v)), Num(v)))
    ensures slope != 0.0 && !IsClose(t, v, tol) ==>
              NewtonFrom(f, t, tol, x, i) == NewtonFrom(f, t, tol, NewtonUpdate(x, slope, t, v), i + 1)
  {
  }

  /** The iteration `solve` performs for a target list and an initial-guess list of one element each. */
  function Newton(f: Target, target: seq<real>, guess: seq<real>): Result<SolverResult, Fault>
    requires |target| == 1 && |guess| == 1
  {
    NewtonFrom(f, target[0], Tolerance.Value(target), guess[0], 0)
  }

  /** The pass at root `x` met the tolerance, and `res` holds one Newton step past `x`. */
  ghost predicate ConvergedAt(f: Target, t: real, tol: real, x: real, res: SolverResult)
    requires tol >= 0.0
  {
    f(x).Success? && OperatorPhi11(f, [x]).Success? && OperatorPhi11(f, [x]).value != 0.0
    && IsClose(t, f(x).value, tol)
    && res.finalTarget == Num(f(x).value)
    && res.finalRoot == Num(NewtonUpdate(x, OperatorPhi11(f, [x]).value, t, f(x).value))
  }

  /** The result contract of `solve`: 1 to 21 passes; root and target are the
      `[0.0]` sentinel exactly when the flag is false; a converged result is
      one Newton step past a point where `isclose(t, f(x))` held. */
  lemma {:induction false} NewtonFromShape(f: Target, t: real, tol: real, x: real, i: int)
    requires 0 <= i <= MaxPassIndex + 1 && tol >= 0.0
    requires NewtonFrom(f, t, tol, x, i).Success?
    decreases MaxPassIndex + 1 - i
    ensures var res := NewtonFrom(f, t, tol, x, i).value;
      && (i <= MaxPassIndex ==> i + 1 <= res.iterations <= MaxPassIndex + 1)
      && (i > MaxPassIndex ==> res.iterations == i)
      && (res.converged <==> res.finalRoot.Num?)
      && (res.converged <==> res.finalTarget.Num?)
      && (res.converged ==> exists y :: ConvergedAt(f, t, tol, y, res))
      && (res.converged ==> i <= MaxPassIndex)
  {
    if i <= MaxPassIndex {
      NewtonFromRaises(f, t, tol, x, i);
      var v := f(x).value;
      var slope := OperatorPhi11(f, [x]).value;
      NewtonFromStep(f, t, tol, x, i, v, slope);
      if slope != 0.0 {
        var next := NewtonUpdate(x, slope, t, v);
        if IsClose(t, v, tol) {
          assert ConvergedAt(f, t, tol, x, NewtonFrom(f, t, tol, x, i).value);
        } else {
          NewtonFromShape(f, t, tol, next, i + 1);
        }
      }
    }
  }

  /** The same contract for a whole solve. */
  lemma NewtonShape(f: Target, target: seq<real>, guess: seq<real>)
    requires |target| == 1 && |guess| == 1
    requires Newton(f, target, guess).Success?
    ensures var res := Newton(f, target, guess).value;
      && 1 <= res.iterations <= MaxPassIndex + 1
      && (res.converged <==> res.finalRoot.Num?)
      && (res.converged <==> res.finalTarget.Num?)
      && (res.converged ==> exists y :: ConvergedAt(f, target[0], Tolerance.Value(target), y, res))
  {
    NewtonFromShape(f, target[0], Tolerance.Value(target), guess[0], 0);
  }

  /** A zero slope at the first iterate stops the loop after one pass, unconverged. */
  lemma NewtonZeroSlope(f: Target, target: seq<real>, guess: seq<real>)
    requires |target| == 1 && |guess| == 1
    requires f(guess[0]).Success? && OperatorPhi11(f, [guess[0]]) == Success(0.0)
    ensures Newton(f, target, guess) == Success(SolverResult(false, 1, ZeroList, ZeroList))
  {
  }

  /** The solve only depends on the values of the function: two functions
      that agree everywhere give the same result, or raise the same
      exception. */
  lemma {:induction false} NewtonFromCongruent(f: Target, g: Target, t: real, tol: real, x: real, i: int)
    requires 0 <= i <= MaxPassIndex + 1 && tol >= 0.0
    requires forall y :: f(y) == g(y)
    decreases MaxPassIndex + 1 - i
    ensures NewtonFrom(f, t, tol, x, i) == NewtonFrom(g, t, tol, x, i)
  {
    if i <= MaxPassIndex {
      assert OperatorPhi11(f, [x]) == OperatorPhi11(g, [x]);
      if f(x).Success? && OperatorPhi11(f, [x]).Success? && OperatorPhi11(f, [x]).value != 0.0 {
        var next := NewtonUpdate(x, OperatorPhi11(f, [x]).value, t, f(x).value);
        NewtonFromCongruent(f, g, t, tol, next, i + 1);
      }
    }
  }

  lemma NewtonCongruent(f: Target, g: Target, target: seq<real>, guess: seq<real>)
    requires |target| == 1 && |guess| == 1
    requires forall y :: f(y) == g(y)
    ensures Newton(f, target, guess) == Newton(g, target, guess)
  {
    NewtonFromCongruent(f, g, target[0], Tolerance.Value(target), guess[0], 0);
  }

  /** The function `x - 2`. */
  function MinusTwo(x: real): Result<real, Fault> { Success(x - 2.0) }

  lemma MinusTwoSlope(x: real)
    ensures OperatorPhi11(MinusTwo, [x]) == Success(1.0)
  {
    assert MinusTwo(x + Delta1).value - MinusTwo(x - Delta1).value == 2.0 * Delta1;
  }

  /** For f(x) = x - 2, target [3] and the default guess [0.0], the root is 5,
      reached on the second pass; with target [0] and guess [3] it is 2. */
  lemma NewtonSamples()
    ensures Newton(MinusTwo, [3.0], [0.0]) == Success(SolverResult(true, 2, Num(5.0), Num(3.0)))
    ensures Newton(MinusTwo, [0.0], [3.0]) == Success(SolverResult(true, 2, Num(2.0), Num(0.0)))
  {
    MinusTwoSlope(0.0);
    MinusTwoSlope(5.0);
    MinusTwoSlope(3.0);
    MinusTwoSlope(2.0);
    Tolerance.ValueSamples();
    assert !IsClose(3.0, -2.0, 0.0003);
    assert IsClose(3.0, 3.0, 0.0003);
    assert !IsClose(0.0, 1.0, 0.00001);
    assert IsClose(0.0, 0.0, 0.00001);
  }

  /** `NewtonRaphson11`: built from a function, a target list and an initial
      guess; the constructor validates the lists and stores `solve()`'s tuple. */
  class NewtonRaphson11 {
    const fn: Target
    const targetValue: seq<real>
    const initialGuess: seq<real>
    var result: SolverResult

    /** `target_value_length` */
    predicate TargetValueLength() {
      |targetValue| == 1 && |initialGuess| == 1
    }

    /** The stored result is the one `solve` computes. */
    ghost predicate Valid()
      reads this
    {
      TargetValueLength() && Newton(fn, targetValue, initialGuess) == Success(result)
    }

    constructor Init(f: Target, target: seq<real>, guess: seq<real>)
      ensures fn == f && targetValue == target && initialGuess == guess
    {
      fn := f;
      targetValue := target;
      initialGuess := guess;
      result := SolverResult(false, 0, ZeroList, ZeroList);
    }

    /** `NewtonRaphson11(function, target_value, initial_guess=[0.0])`:
        ValueError unless both lists have one element (`ensure_valid_data`);
        otherwise the result of `solve`, or the exception it raised. */
    static method Create(f: Target, target: seq<real>, guess: seq<real> := [0.0]) returns (r: Result<NewtonRaphson11, Fault>)
      ensures !(|target| == 1 && |guess| == 1) ==> r == Failure(ValueError)
      ensures |target| == 1 && |guess| == 1 && Newton(f, target, guess).Failure? ==>
                r == Failure(Newton(f, target, guess).error)
      ensures |target| == 1 && |guess| == 1 && Newton(f, target, guess).Success? ==> r.Success?
      ensures r.Success? ==> (fresh(r.value) && r.value.Valid()
                && r.value.fn == f && r.value.targetValue == target && r.value.initialGuess == guess)
    {
      var s := new NewtonRaphson11.Init(f, target, guess);
      if !s.TargetValueLength() {
        return Failure(ValueError);
      }
      var res := s.Solve();
      if res.Failure? {
        return Failure(res.error);
      }
      s.result := res.value;
      r := Success(s);
    }

    /** `solve`: the bounded Newton loop. */
    method Solve() returns (r: Result<SolverResult, Fault>)
      requires TargetValueLength()
      ensures r == Newton(fn, targetValue, initialGuess)
    {
      ghost var expected := Newton(fn, targetValue, initialGuess);
      var i := 0;
      var condition := false;
      var calculatedValue := 0.0;
      var toleranceValue := Tolerance.Value(targetValue);
      var target1 := targetValue[0];
      var root := initialGuess[0];
      while i <= MaxPassIndex
        invariant 0 <= i <= MaxPassIndex + 1
        invariant !condition
        invariant NewtonFrom(fn, target1, toleranceValue, root, i) == expected
        invariant i > MaxPassIndex ==> expected == Success(SolverResult(false, i, ZeroList, ZeroList))
      {
        NewtonFromRaises(fn, target1, toleranceValue, root, i);
        i := i + 1;
        var v := fn(root);
        if v.Failure? {
          return Failure(v.error);
        }
        calculatedValue := v.value;
        var phi := OperatorPhi11(fn, [root]);
        if phi.Failure? {
          return Failure(phi.error);
        }
        NewtonFromStep(fn, target1, toleranceValue, root, i - 1, calculatedValue, phi.value);
        if phi.value == 0.0 {
          break;
        }
        root := NewtonUpdate(root, phi.value, target1, calculatedValue);
        condition := IsClose(target1, calculatedValue, toleranceValue);
        if condition {
          break;
        }
      }
      var finalTarget := Num(calculatedValue);
      var finalRoot := Num(root);
      if !condition {
        finalTarget := ZeroList;
        finalRoot := ZeroList;
      }
      r := Success(SolverResult(condition, i, finalRoot, finalTarget));
    }

    /** `convergence` */
    function Convergence(): bool
      reads this
    {
      result.converged
    }

    /** `number_of_iterations` */
    function NumberOfIterations(): int
      reads this
    {
      result.iterations
    }

    /** `final_roots` */
    function FinalRoots(): SolverValue
      reads this
    {
      result.finalRoot
    }

    /** `final_targets` */
    function FinalTargets(): SolverValue
      reads this
    {
      result.finalTarget
    }

    /** Through the accessors: the flag tells the sentinel apart, and the count is 1..21. */
    lemma AccessorContract()
      requires Valid()
      ensures 1 <= NumberOfIterations() <= MaxPassIndex + 1
      ensures Convergence() <==> FinalRoots() != ZeroList
      ensures Convergence() <==> FinalTargets() != ZeroList
    {
      NewtonShape(fn, targetValue, initialGuess);
    }
  }
}
