/** The shooting search of `equilibre_top_down_Qtete`
    (geotech_module/pieu.py): a head displacement is sought whose residual
    is within a tolerance, first by scanning the search interval for the
    first sign change and then by bisecting that bracket. The residual is a
    parameter here; the pile supplies its own (the base force against the
    tip reaction), and any exception it raises ends the search. */
module ShootingSearch {
  import opened Common
  import Solver

  /** `min(max(guess, lo), hi)`. */
  function Clamp(x: real, lo: real, hi: real): (c: real)
    ensures lo <= hi ==> lo <= c <= hi
    ensures lo <= x <= hi ==> c == x
    ensures lo <= hi && x < lo ==> c == lo
    ensures lo <= hi && x > hi ==> c == hi
  {
    Min(Max(x, lo), hi)
  }

  /** The interval searched: [-|w_max|, 0] when the head load pulls
      (traction), [0, |w_max|] otherwise. */
  function Interval(traction: bool, wMax: real): (iv: (real, real))
    ensures iv.0 <= iv.1 && iv.1 - iv.0 == Abs(wMax)
    ensures traction ==> iv.1 == 0.0
    ensures !traction ==> iv.0 == 0.0
  {
    if traction then (-Abs(wMax), 0.0) else (0.0, Abs(wMax))
  }

  /** Sample i of the scan: `w_lo + (w_hi - w_lo) * i / n_bracket`. */
  function Sample(wLo: real, wHi: real, n: int, i: int): real
    requires n != 0
  {
    wLo + (wHi - wLo) * (i as real) / (n as real)
  }

  /** The samples run from w_lo (i = 0) to w_hi (i = n) in order. */
  lemma SampleBounds(wLo: real, wHi: real, n: int, i: int)
    requires wLo <= wHi && 0 <= i <= n && n > 0
    ensures wLo <= Sample(wLo, wHi, n, i) <= wHi
    ensures i == n ==> Sample(wLo, wHi, n, i) == wHi
    ensures i == 0 ==> Sample(wLo, wHi, n, i) == wLo
  {
    var d := wHi - wLo;
    assert 0.0 <= d * (i as real) <= d * (n as real);
    assert d * (n as real) / (n as real) == d;
  }

  /** The k-th point whose residual the scan evaluates: the clamped guess
      a, then the samples 1 to n. */
  function Point(a: real, wLo: real, wHi: real, n: int, k: int): real
    requires k == 0 || n != 0
  {
    if k == 0 then a else Sample(wLo, wHi, n, k)
  }

  /** Every point of the scan lies in the interval when the guess does. */
  lemma PointInInterval(a: real, wLo: real, wHi: real, n: int, k: int)
    requires wLo <= a <= wHi && 0 <= k && (k == 0 || k <= n)
    ensures wLo <= Point(a, wLo, wHi, n, k) <= wHi
  {
    if k != 0 {
      SampleBounds(wLo, wHi, n, k);
    }
  }

  /** No strict sign change between points k - 1 and k of the scan, both of
      whose residuals are computed. */
  ghost predicate SignKept(res: Solver.Target, a: real, wLo: real, wHi: real, n: int, k: int)
    requires 1 <= k <= n
  {
    var r0 := res(Point(a, wLo, wHi, n, k - 1));
    var r1 := res(Point(a, wLo, wHi, n, k));
    r0.Success? && r1.Success? && r0.value * r1.value >= 0.0
  }

  /** No pair of consecutive points changes sign from point i - 1 to point j - 1. */
  ghost predicate KeptBetween(res: Solver.Target, a: real, wLo: real, wHi: real, n: int, i: int, j: int)
    requires 1 <= i && j <= n + 1
  {
    forall k :: i <= k < j ==> SignKept(res, a, wLo, wHi, n, k)
  }

  /** Point j is the first of least |residual| among the guess and the n
      samples, all of whose residuals are computed. */
  ghost predicate LeastFirst(res: Solver.Target, a: real, wLo: real, wHi: real, n: int, j: int)
    requires 0 <= j && (j == 0 || j <= n)
  {
    var rj := res(Point(a, wLo, wHi, n, j));
    && rj.Success?
    && (forall k :: 0 <= k <= n ==> res(Point(a, wLo, wHi, n, k)).Success? && Abs(rj.value) <= Abs(res(Point(a, wLo, wHi, n, k)).value))
    && (forall k :: 0 <= k < j ==> Abs(rj.value) < Abs(res(Point(a, wLo, wHi, n, k)).value))
  }

  /** How the scan ends: the first bracket [lo, hi] with residuals of strictly
      opposite signs, or none, and then the point of least |residual|. */
  datatype ScanEnd = Bracket(lo: real, rlo: real, hi: real, rhi: real) | NoBracket(best: real)

  /** The bracketing loop from sample i on, given the previous point and
      residual and the best point and |residual| so far. The best point is
      replaced only on a strictly smaller |residual|. */
  function Scan(res: Solver.Target, wLo: real, wHi: real, n: int, i: int,
                prevW: real, prevR: real, bestW: real, bestR: real): Result<ScanEnd, Fault>
    requires i >= 1
    decreases n - i
  {
    if i > n then Success(NoBracket(bestW))
    else
      var wi := Sample(wLo, wHi, n, i);
      var ri :- res(wi);
      var better := Abs(ri) < bestR;
      if prevR * ri < 0.0 then Success(Bracket(prevW, prevR, wi, ri))
      else Scan(res, wLo, wHi, n, i + 1, wi, ri, if better then wi else bestW, if better then Abs(ri) else bestR)
  }

  /** Points j - 1 and j of the scan are lo and hi, their residuals rlo and
      rhi differ strictly in sign, and no pair of consecutive points from
      point i - 1 on changes sign before them. */
  ghost predicate FirstBracket(res: Solver.Target, a: real, wLo: real, wHi: real, n: int, i: int, j: int,
                               lo: real, rlo: real, hi: real, rhi: real)
    requires i >= 1
  {
    && i <= j <= n && lo == Point(a, wLo, wHi, n, j - 1) && hi == Point(a, wLo, wHi, n, j)
    && res(lo) == Success(rlo) && res(hi) == Success(rhi) && rlo * rhi < 0.0
    && KeptBetween(res, a, wLo, wHi, n, i, j)
  }

  /** A first bracket from point i is one from point i - 1 when points i - 1
      and i keep their sign. */
  lemma FirstBracketBack(res: Solver.Target, a: real, wLo: real, wHi: real, n: int, i: int, j: int,
                         lo: real, rlo: real, hi: real, rhi: real)
    requires 1 <= i <= n && FirstBracket(res, a, wLo, wHi, n, i + 1, j, lo, rlo, hi, rhi)
    requires SignKept(res, a, wLo, wHi, n, i)
    ensures FirstBracket(res, a, wLo, wHi, n, i, j, lo, rlo, hi, rhi)
  {
    assert KeptBetween(res, a, wLo, wHi, n, i, j);
  }

  /** A bracket the scan returns is made of two consecutive points j - 1 and j
      whose residuals have strictly opposite signs, and it is the first: no
      earlier pair of consecutive points changes sign. */
  lemma {:induction false} ScanBracket(res: Solver.Target, a: real, wLo: real, wHi: real, n: int, i: int,
                                       prevW: real, prevR: real, bestW: real, bestR: real)
    requires i >= 1 && (i == 1 || n != 0)
    requires prevW == Point(a, wLo, wHi, n, i - 1) && res(prevW) == Success(prevR)
    requires Scan(res, wLo, wHi, n, i, prevW, prevR, bestW, bestR).Success?
    requires Scan(res, wLo, wHi, n, i, prevW, prevR, bestW, bestR).value.Bracket?
    ensures var e := Scan(res, wLo, wHi, n, i, prevW, prevR, bestW, bestR).value;
      exists j :: FirstBracket(res, a, wLo, wHi, n, i, j, e.lo, e.rlo, e.hi, e.rhi)
    decreases n - i
  {
    var e := Scan(res, wLo, wHi, n, i, prevW, prevR, bestW, bestR).value;
    var wi := Sample(wLo, wHi, n, i);
    var ri := res(wi).value;
    assert wi == Point(a, wLo, wHi, n, i);
    if prevR * ri < 0.0 {
      assert FirstBracket(res, a, wLo, wHi, n, i, i, e.lo, e.rlo, e.hi, e.rhi);
    } else {
      assert SignKept(res, a, wLo, wHi, n, i);
      var better := Abs(ri) < bestR;
      assert e == Scan(res, wLo, wHi, n, i + 1, wi, ri, if better then wi else bestW, if better then Abs(ri) else bestR).value;
      ScanBracket(res, a, wLo, wHi, n, i + 1, wi, ri, if better then wi else bestW, if better then Abs(ri) else bestR);
      var j :| FirstBracket(res, a, wLo, wHi, n, i + 1, j, e.lo, e.rlo, e.hi, e.rhi);
      FirstBracketBack(res, a, wLo, wHi, n, i, j, e.lo, e.rlo, e.hi, e.rhi);
    }
  }

  /** Point j is bestW, its |residual| is bestR, and it is the first of least
      |residual| among points 0 to i - 1, all of whose residuals are computed. */
  ghost predicate BestSoFar(res: Solver.Target, a: real, wLo: real, wHi: real, n: int, i: int,
                            bestW: real, bestR: real, j: int)
    requires i >= 1 && (i == 1 || (n != 0 && i - 1 <= n))
  {
    && 0 <= j < i && bestW == Point(a, wLo, wHi, n, j) && res(bestW).Success? && bestR == Abs(res(bestW).value)
    && (forall k :: 0 <= k < i ==> res(Point(a, wLo, wHi, n, k)).Success?)
    && (forall k :: 0 <= k < i ==> bestR <= Abs(res(Point(a, wLo, wHi, n, k)).value))
    && (forall k :: 0 <= k < j ==> bestR < Abs(res(Point(a, wLo, wHi, n, k)).value))
  }

  /** Taking point i into account keeps the best point so far: it becomes
      point i exactly when point i's |residual| is strictly smaller. */
  lemma BestSoFarStep(res: Solver.Target, a: real, wLo: real, wHi: real, n: int, i: int,
                      bestW: real, bestR: real, j: int)
    requires 1 <= i <= n && BestSoFar(res, a, wLo, wHi, n, i, bestW, bestR, j)
    requires res(Point(a, wLo, wHi, n, i)).Success?
    ensures var wi := Point(a, wLo, wHi, n, i);
      var ri := res(wi).value;
      if Abs(ri) < bestR then BestSoFar(res, a, wLo, wHi, n, i + 1, wi, Abs(ri), i)
      else BestSoFar(res, a, wLo, wHi, n, i + 1, bestW, bestR, j)
  {
  }

  /** Point j is best, and the first of least |residual| among the guess and
      the n samples. */
  ghost predicate LeastAt(res: Solver.Target, a: real, wLo: real, wHi: real, n: int, j: int, best: real) {
    0 <= j && (j == 0 || j <= n) && best == Point(a, wLo, wHi, n, j) && LeastFirst(res, a, wLo, wHi, n, j)
  }

  /** One step of a scan that ends without a bracket: the residual of sample
      i is computed, keeps the sign of the previous one, and the scan goes on
      from sample i + 1. */
  lemma ScanNoBracketStep(res: Solver.Target, wLo: real, wHi: real, n: int, i: int,
                          prevW: real, prevR: real, bestW: real, bestR: real)
    requires 1 <= i <= n
    requires Scan(res, wLo, wHi, n, i, prevW, prevR, bestW, bestR).Success?
    requires Scan(res, wLo, wHi, n, i, prevW, prevR, bestW, bestR).value.NoBracket?
    ensures var wi := Sample(wLo, wHi, n, i);
      && res(wi).Success? && prevR * res(wi).value >= 0.0
      && var ri := res(wi).value;
         var better := Abs(ri) < bestR;
         Scan(res, wLo, wHi, n, i, prevW, prevR, bestW, bestR)
           == Scan(res, wLo, wHi, n, i + 1, wi, ri, if better then wi else bestW, if better then Abs(ri) else bestR)
  {
  }

  /** When the scan finds no bracket, no pair of consecutive points changes
      sign and every point's residual was computed. */
  lemma {:induction false} ScanNoBracketKept(res: Solver.Target, a: real, wLo: real, wHi: real, n: int, i: int,
                                             prevW: real, prevR: real, bestW: real, bestR: real)
    requires i >= 1 && (i == 1 || (n != 0 && i - 1 <= n))
    requires prevW == Point(a, wLo, wHi, n, i - 1) && res(prevW) == Success(prevR)
    requires Scan(res, wLo, wHi, n, i, prevW, prevR, bestW, bestR).Success?
    requires Scan(res, wLo, wHi, n, i, prevW, prevR, bestW, bestR).value.NoBracket?
    ensures KeptBetween(res, a, wLo, wHi, n, i, n + 1)
    decreases n - i
  {
    if i <= n {
      ScanNoBracketStep(res, wLo, wHi, n, i, prevW, prevR, bestW, bestR);
      var wi := Sample(wLo, wHi, n, i);
      var ri := res(wi).value;
      var better := Abs(ri) < bestR;
      assert wi == Point(a, wLo, wHi, n, i);
      assert SignKept(res, a, wLo, wHi, n, i);
      ScanNoBracketKept(res, a, wLo, wHi, n, i + 1, wi, ri, if better then wi else bestW, if better then Abs(ri) else bestR);
    }
  }

  /** When the scan finds no bracket, the point returned is the first of
      least |residual| among the guess and the n samples. */
  lemma {:induction false} ScanNoBracketBest(res: Solver.Target, a: real, wLo: real, wHi: real, n: int, i: int,
                                             prevW: real, prevR: real, bestW: real, bestR: real, jb: int)
    requires i >= 1 && (i == 1 || (n != 0 && i - 1 <= n))
    requires BestSoFar(res, a, wLo, wHi, n, i, bestW, bestR, jb)
    requires Scan(res, wLo, wHi, n, i, prevW, prevR, bestW, bestR).Success?
    requires Scan(res, wLo, wHi, n, i, prevW, prevR, bestW, bestR).value.NoBracket?
    ensures exists j :: LeastAt(res, a, wLo, wHi, n, j, Scan(res, wLo, wHi, n, i, prevW, prevR, bestW, bestR).value.best)
    decreases n - i
  {
    if i > n {
      assert LeastAt(res, a, wLo, wHi, n, jb, bestW);
    } else {
      ScanNoBracketStep(res, wLo, wHi, n, i, prevW, prevR, bestW, bestR);
      var wi := Sample(wLo, wHi, n, i);
      var ri := res(wi).value;
      assert wi == Point(a, wLo, wHi, n, i);
      BestSoFarStep(res, a, wLo, wHi, n, i, bestW, bestR, jb);
      if Abs(ri) < bestR {
        ScanNoBracketBest(res, a, wLo, wHi, n, i + 1, wi, ri, wi, Abs(ri), i);
      } else {
        ScanNoBracketBest(res, a, wLo, wHi, n, i + 1, wi, ri, bestW, bestR, jb);
      }
    }
  }

  /** When the scan finds no bracket, no pair of consecutive points changes
      sign, every point's residual was computed, and the point returned is the
      first of least |residual| among the guess and the n samples. */
  lemma ScanNoBracket(res: Solver.Target, a: real, wLo: real, wHi: real, n: int,
                      prevR: real, bestR: real)
    requires res(a) == Success(prevR) && bestR == Abs(prevR)
    requires Scan(res, wLo, wHi, n, 1, a, prevR, a, bestR).Success?
    requires Scan(res, wLo, wHi, n, 1, a, prevR, a, bestR).value.NoBracket?
    ensures KeptBetween(res, a, wLo, wHi, n, 1, n + 1)
    ensures exists j :: LeastAt(res, a, wLo, wHi, n, j, Scan(res, wLo, wHi, n, 1, a, prevR, a, bestR).value.best)
  {
    assert a == Point(a, wLo, wHi, n, 0);
    ScanNoBracketKept(res, a, wLo, wHi, n, 1, a, prevR, a, bestR);
    assert BestSoFar(res, a, wLo, wHi, n, 1, a, bestR, 0);
    ScanNoBracketBest(res, a, wLo, wHi, n, 1, a, prevR, a, bestR, 0);
  }

  /** `2 ** k`. */
  function Pow2(k: int): (p: real)
    ensures p >= 1.0
    decreases k
  {
    if k <= 0 then 1.0 else 2.0 * Pow2(k - 1)
  }

  /** x lies between a and b, whichever of them is the larger. */
  predicate Between(x: real, a: real, b: real) {
    Min(a, b) <= x <= Max(a, b)
  }

  /** The residuals at l and h are computed and of strictly opposite signs. */
  ghost predicate Straddles(res: Solver.Target, l: real, h: real) {
    res(l).Success? && res(h).Success? && res(l).value * res(h).value < 0.0
  }

  /** How the bisection ends: a midpoint within tolerance, or the last
      bracket once the passes run out. */
  datatype BisectEnd = Hit(mid: real) | Exhausted(lo: real, hi: real, rlo: real, rhi: real)

  /** k passes of the bisection of [lo, hi]: the midpoint's residual is
      accepted within tol; otherwise the half whose ends differ strictly in
      sign by the test `rlo * rm < 0` is kept. */
  function Bisect(res: Solver.Target, tol: real, lo: real, hi: real, rlo: real, rhi: real, k: int): Result<BisectEnd, Fault>
    decreases k
  {
    if k <= 0 then Success(Exhausted(lo, hi, rlo, rhi))
    else
      var mid := 0.5 * (lo + hi);
      var rm :- res(mid);
      if Abs(rm) <= tol then Success(Hit(mid))
      else if rlo * rm < 0.0 then Bisect(res, tol, lo, mid, rlo, rm, k - 1)
      else Bisect(res, tol, mid, hi, rm, rhi, k - 1)
  }

  /** The point the bisection returns. */
  function BisectPoint(e: BisectEnd): real {
    match e
    case Hit(m) => m
    case Exhausted(l, h, _, _) => 0.5 * (l + h)
  }

  /** When rlo and rhi differ strictly in sign and rm is not zero, rm
      differs strictly in sign from one of the two. */
  lemma SignSplit(rlo: real, rhi: real, rm: real)
    requires rlo * rhi < 0.0 && rm != 0.0
    ensures rlo * rm < 0.0 || rm * rhi < 0.0
  {
    if rlo > 0.0 {
      assert rhi < 0.0;
      if rm > 0.0 {
        assert rm * rhi < 0.0;
      }
    } else {
      assert rlo < 0.0 && rhi > 0.0;
      if rm < 0.0 {
        assert rm * rhi < 0.0;
      }
    }
  }

  lemma MidpointBetween(lo: real, hi: real)
    ensures Between(0.5 * (lo + hi), lo, hi)
    ensures Abs(hi - 0.5 * (lo + hi)) * 2.0 == Abs(hi - lo)
    ensures Abs(0.5 * (lo + hi) - lo) * 2.0 == Abs(hi - lo)
  {
  }

  /** What the bisection of [lo, hi] in k passes ends with: a hit within
      the bracket whose |residual| is at most tol, or a bracket inside
      [lo, hi] whose residuals differ strictly in sign and which is 2^k times
      narrower. */
  ghost predicate BisectOutcome(res: Solver.Target, tol: real, lo: real, hi: real, k: int, e: BisectEnd) {
    match e
    case Hit(m) => Between(m, lo, hi) && res(m).Success? && Abs(res(m).value) <= tol
    case Exhausted(l, h, rl, rh) =>
      && res(l) == Success(rl) && res(h) == Success(rh) && rl * rh < 0.0
      && Between(l, lo, hi) && Between(h, lo, hi)
      && Abs(h - l) * Pow2(k) == Abs(hi - lo)
  }

  /** An outcome for a half of [lo, hi] after k - 1 passes is an outcome for
      [lo, hi] after k passes. */
  lemma OutcomeOfHalf(res: Solver.Target, tol: real, lo: real, hi: real, c: real, d: real, k: int, e: BisectEnd)
    requires k > 0
    requires Between(c, lo, hi) && Between(d, lo, hi) && Abs(d - c) * 2.0 == Abs(hi - lo)
    requires BisectOutcome(res, tol, c, d, k - 1, e)
    ensures BisectOutcome(res, tol, lo, hi, k, e)
  {
    if e.Exhausted? {
      var p := Pow2(k - 1);
      assert Pow2(k) == 2.0 * p;
      assert Abs(e.hi - e.lo) * Pow2(k) == (Abs(e.hi - e.lo) * p) * 2.0;
    }
  }

  /** With a non-negative tolerance the bisection keeps a bracket whose ends
      differ strictly in sign inside the first one: a hit lies within the
      bracket with |residual| <= tol, and after k passes without a hit the
      bracket is 2^k times narrower. */
  lemma {:induction false} BisectKeepsBracket(res: Solver.Target, tol: real, lo: real, hi: real, rlo: real, rhi: real, k: int)
    requires tol >= 0.0
    requires res(lo) == Success(rlo) && res(hi) == Success(rhi) && rlo * rhi < 0.0
    requires Bisect(res, tol, lo, hi, rlo, rhi, k).Success?
    ensures BisectOutcome(res, tol, lo, hi, k, Bisect(res, tol, lo, hi, rlo, rhi, k).value)
    decreases k
  {
    var e := Bisect(res, tol, lo, hi, rlo, rhi, k).value;
    if k <= 0 {
      assert e == Exhausted(lo, hi, rlo, rhi);
    } else {
      var mid := 0.5 * (lo + hi);
      MidpointBetween(lo, hi);
      var rm := res(mid).value;
      if Abs(rm) <= tol {
        assert e == Hit(mid);
      } else {
        SignSplit(rlo, rhi, rm);
        if rlo * rm < 0.0 {
          assert e == Bisect(res, tol, lo, mid, rlo, rm, k - 1).value;
          BisectKeepsBracket(res, tol, lo, mid, rlo, rm, k - 1);
          OutcomeOfHalf(res, tol, lo, hi, lo, mid, k, e);
        } else {
          assert e == Bisect(res, tol, mid, hi, rm, rhi, k - 1).value;
          BisectKeepsBracket(res, tol, mid, hi, rm, rhi, k - 1);
          OutcomeOfHalf(res, tol, lo, hi, mid, hi, k, e);
        }
      }
    }
  }

  /** The whole search, as `equilibre_top_down_Qtete` runs it on the
      residual: the clamped guess is accepted within tolerance; otherwise the
      scan runs, and without a bracket its best point is returned, with one
      the bisection's point. */
  function SearchSpec(res: Solver.Target, tol: real, wLo: real, wHi: real, guess: real,
                      nBracket: int, nBisect: int): Result<real, Fault>
  {
    var a := Clamp(guess, wLo, wHi);
    var ra :- res(a);
    if Abs(ra) <= tol then Success(a)
    else
      var scan :- Scan(res, wLo, wHi, nBracket, 1, a, ra, a, Abs(ra));
      match scan
      case NoBracket(best) => Success(best)
      case Bracket(lo, rlo, hi, rhi) =>
        var e :- Bisect(res, tol, lo, hi, rlo, rhi, nBisect);
        Success(BisectPoint(e))
  }

  /** The bisection method as written: the scanned points, then the
      bracket's passes, each one residual evaluation. */
  method Search(res: Solver.Target, tol: real, wLo: real, wHi: real, guess: real,
                nBracket: int, nBisect: int) returns (r: Result<real, Fault>)
    ensures r == SearchSpec(res, tol, wLo, wHi, guess, nBracket, nBisect)
  {
    var a := Clamp(guess, wLo, wHi);
    var ea := res(a);
    if ea.Failure? {
      return Failure(ea.error);
    }
    var ra := ea.value;
    if Abs(ra) <= tol {
      return Success(a);
    }
    ghost var scan := Scan(res, wLo, wHi, nBracket, 1, a, ra, a, Abs(ra));
    var bestW, bestR := a, Abs(ra);
    var b: Option<real> := None;
    var rb: Option<real> := None;
    var prevW, prevR := a, ra;
    var i := 1;
    while i <= nBracket
      invariant i >= 1
      invariant Scan(res, wLo, wHi, nBracket, i, prevW, prevR, bestW, bestR) == scan
      invariant b.None?
      decreases nBracket - i
    {
      var wi := Sample(wLo, wHi, nBracket, i);
      var ei := res(wi);
      if ei.Failure? {
        return Failure(ei.error);
      }
      var ri := ei.value;
      if prevR * ri < 0.0 {
        a, ra := prevW, prevR;
        b, rb := Some(wi), Some(ri);
        break;
      }
      if Abs(ri) < bestR {
        bestW, bestR := wi, Abs(ri);
      }
      prevW, prevR := wi, ri;
      i := i + 1;
    }
    if b.None? {
      return Success(bestW);
    }
    assert scan == Success(Bracket(a, ra, b.value, rb.value));
    var lo, hi := a, b.value;
    var rlo, rhi := ra, rb.value;
    ghost var bis := Bisect(res, tol, lo, hi, rlo, rhi, nBisect);
    var pass := 0;
    while pass < nBisect
      invariant Bisect(res, tol, lo, hi, rlo, rhi, nBisect - pass) == bis
      decreases nBisect - pass
    {
      var mid := 0.5 * (lo + hi);
      var em := res(mid);
      if em.Failure? {
        return Failure(em.error);
      }
      var rm := em.value;
      if Abs(rm) <= tol {
        return Success(mid);
      }
      if rlo * rm < 0.0 {
        hi, rhi := mid, rm;
      } else {
        lo, rlo := mid, rm;
      }
      pass := pass + 1;
    }
    return Success(0.5 * (lo + hi));
  }

  /** The point the bisection returns lies between the bracket's ends,
      whatever the residuals. */
  lemma {:induction false} BisectInside(res: Solver.Target, tol: real, lo: real, hi: real, rlo: real, rhi: real, k: int)
    requires Bisect(res, tol, lo, hi, rlo, rhi, k).Success?
    ensures Between(BisectPoint(Bisect(res, tol, lo, hi, rlo, rhi, k).value), lo, hi)
    decreases k
  {
    MidpointBetween(lo, hi);
    if k > 0 {
      var mid := 0.5 * (lo + hi);
      var rm := res(mid).value;
      if Abs(rm) > tol {
        if rlo * rm < 0.0 {
          BisectInside(res, tol, lo, mid, rlo, rm, k - 1);
        } else {
          BisectInside(res, tol, mid, hi, rm, rhi, k - 1);
        }
      }
    }
  }

  /** The search returns a point of the interval. */
  lemma SearchInInterval(res: Solver.Target, tol: real, wLo: real, wHi: real, guess: real, nBracket: int, nBisect: int)
    requires wLo <= wHi
    requires SearchSpec(res, tol, wLo, wHi, guess, nBracket, nBisect).Success?
    ensures wLo <= SearchSpec(res, tol, wLo, wHi, guess, nBracket, nBisect).value <= wHi
  {
    var a := Clamp(guess, wLo, wHi);
    var ra := res(a).value;
    if Abs(ra) > tol {
      assert a == Point(a, wLo, wHi, nBracket, 0);
      var scan := Scan(res, wLo, wHi, nBracket, 1, a, ra, a, Abs(ra)).value;
      match scan
      case NoBracket(best) =>
        ScanNoBracket(res, a, wLo, wHi, nBracket, ra, Abs(ra));
        var j :| LeastAt(res, a, wLo, wHi, nBracket, j, best);
        PointInInterval(a, wLo, wHi, nBracket, j);
      case Bracket(lo, rlo, hi, rhi) =>
        ScanBracket(res, a, wLo, wHi, nBracket, 1, a, ra, a, Abs(ra));
        var j :| FirstBracket(res, a, wLo, wHi, nBracket, 1, j, lo, rlo, hi, rhi);
        PointInInterval(a, wLo, wHi, nBracket, j - 1);
        PointInInterval(a, wLo, wHi, nBracket, j);
        BisectInside(res, tol, lo, hi, rlo, rhi, nBisect);
    }
  }

  /** w is the first scanned point of least |residual|, and no pair of
      consecutive scanned points changes sign. */
  ghost predicate ScanBest(res: Solver.Target, a: real, wLo: real, wHi: real, n: int, w: real) {
    && KeptBetween(res, a, wLo, wHi, n, 1, n + 1)
    && exists j :: LeastAt(res, a, wLo, wHi, n, j, w)
  }

  /** w is the midpoint of a bracket of [wLo, wHi] whose residuals differ
      strictly in sign and whose width is at most that of the interval over
      2^k. */
  ghost predicate Bisected(res: Solver.Target, wLo: real, wHi: real, k: int, w: real) {
    exists l, h :: Straddles(res, l, h) && wLo <= l <= wHi && wLo <= h <= wHi
      && w == 0.5 * (l + h) && Abs(h - l) * Pow2(k) <= wHi - wLo
  }

  /** The bisection of a bracket of the interval with a non-negative
      tolerance returns a point within tolerance or a bisected midpoint. */
  lemma BisectFromBracket(res: Solver.Target, tol: real, wLo: real, wHi: real, lo: real, rlo: real, hi: real, rhi: real, k: int)
    requires tol >= 0.0 && wLo <= lo <= wHi && wLo <= hi <= wHi
    requires res(lo) == Success(rlo) && res(hi) == Success(rhi) && rlo * rhi < 0.0
    requires Bisect(res, tol, lo, hi, rlo, rhi, k).Success?
    ensures var w := BisectPoint(Bisect(res, tol, lo, hi, rlo, rhi, k).value);
      (res(w).Success? && Abs(res(w).value) <= tol) || Bisected(res, wLo, wHi, k, w)
  {
    BisectKeepsBracket(res, tol, lo, hi, rlo, rhi, k);
    var e := Bisect(res, tol, lo, hi, rlo, rhi, k).value;
    if e.Exhausted? {
      assert Straddles(res, e.lo, e.hi);
    }
  }

  /** What the point the search returns is, when tol >= 0: one whose residual
      is within tol; or, when no pair of consecutive scanned points changes
      sign, the first scanned point of least |residual|; or the midpoint of a
      bracket of the interval whose residuals differ strictly in sign and whose
      width has been halved n_bisect times. */
  lemma SearchOutcome(res: Solver.Target, tol: real, wLo: real, wHi: real, guess: real, nBracket: int, nBisect: int)
    requires wLo <= wHi && tol >= 0.0
    requires SearchSpec(res, tol, wLo, wHi, guess, nBracket, nBisect).Success?
    ensures var w := SearchSpec(res, tol, wLo, wHi, guess, nBracket, nBisect).value;
      || (res(w).Success? && Abs(res(w).value) <= tol)
      || ScanBest(res, Clamp(guess, wLo, wHi), wLo, wHi, nBracket, w)
      || Bisected(res, wLo, wHi, nBisect, w)
  {
    var a := Clamp(guess, wLo, wHi);
    var ra := res(a).value;
    if Abs(ra) > tol {
      assert a == Point(a, wLo, wHi, nBracket, 0);
      var scan := Scan(res, wLo, wHi, nBracket, 1, a, ra, a, Abs(ra)).value;
      match scan
      case NoBracket(best) =>
        ScanNoBracket(res, a, wLo, wHi, nBracket, ra, Abs(ra));
        assert ScanBest(res, a, wLo, wHi, nBracket, best);
      case Bracket(lo, rlo, hi, rhi) =>
        ScanBracket(res, a, wLo, wHi, nBracket, 1, a, ra, a, Abs(ra));
        var j :| FirstBracket(res, a, wLo, wHi, nBracket, 1, j, lo, rlo, hi, rhi);
        PointInInterval(a, wLo, wHi, nBracket, j - 1);
        PointInInterval(a, wLo, wHi, nBracket, j);
        BisectFromBracket(res, tol, wLo, wHi, lo, rlo, hi, rhi, nBisect);
    }
  }
}
