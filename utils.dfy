/** Mobilisation laws of Frank & Zhao and the small list helpers that sit
    beside them (geotech_module/utils.py). */
module Utils {
  import opened Common

  // ---------------------------------------------------------------------
  // Tri-linear law
  // ---------------------------------------------------------------------

  /** First breakpoint s1 = q1 / k1. */
  function S1(q1: real, k1: NonZero): real { q1 / k1 }

  /** Second breakpoint s2 = s1 + (q2 - q1) / k2. */
  function S2(q1: real, k1: NonZero, q2: real, k2: NonZero): real { S1(q1, k1) + (q2 - q1) / k2 }

  /** The tri-linear law once both slopes are known to be non-zero:
      0 for s <= 0, s.k1 up to s1, q1 + (s - s1).k2 up to s2, q2 beyond. */
  function TriLinear(s: real, q1: real, k1: NonZero, q2: real, k2: NonZero): real {
    var s1 := S1(q1, k1);
    var s2 := S2(q1, k1, q2, k2);
    if s <= 0.0 then 0.0
    else if s <= s1 then s * k1
    else if s <= s2 then q1 + (s - s1) * k2
    else q2
  }

  /** `tri_linear_law`: q2 and k2 are optional. Without k2 the law is
      bi-linear (q2 := q1, k2 := 1, whatever q2 was). A zero slope raises
      ZeroDivisionError; a k2 without q2 raises TypeError (None - q1). */
  function TriLinearLaw(s: real, q1: real, k1: real, q2: Option<real>, k2: Option<real>): (r: Result<real, Fault>)
    ensures r.Failure? <==> k1 == 0.0 || (k2.Some? && (q2.None? || k2.value == 0.0))
    ensures k1 == 0.0 ==> r == Failure(ZeroDivisionError)
    ensures k1 != 0.0 && k2.Some? && q2.Some? && k2.value == 0.0 ==> r == Failure(ZeroDivisionError)
    ensures r.Success? && s <= 0.0 ==> r.value == 0.0
  {
    if k1 == 0.0 then Failure(ZeroDivisionError)
    else if k2.None? then Success(TriLinear(s, q1, k1, q1, 1.0))
    else if q2.None? then Failure(TypeError)
    else if k2.value == 0.0 then Failure(ZeroDivisionError)
    else Success(TriLinear(s, q1, k1, q2.value, k2.value))
  }

  /** Whether a call fails depends on the slopes only, never on s. */
  lemma TriLinearLawFailsBeforeReadingS(s: real, t: real, q1: real, k1: real, q2: Option<real>, k2: Option<real>)
    ensures TriLinearLaw(s, q1, k1, q2, k2).Failure? == TriLinearLaw(t, q1, k1, q2, k2).Failure?
    ensures TriLinearLaw(s, q1, k1, q2, k2).Failure? ==>
              TriLinearLaw(s, q1, k1, q2, k2) == TriLinearLaw(t, q1, k1, q2, k2)
  {
  }

  /** The law is continuous: the linear pieces meet at both breakpoints. */
  lemma TriLinearBreakpoints(q1: real, k1: NonZero, q2: real, k2: NonZero)
    ensures S1(q1, k1) > 0.0 ==> TriLinear(S1(q1, k1), q1, k1, q2, k2) == q1
    ensures S2(q1, k1, q2, k2) > S1(q1, k1) && S2(q1, k1, q2, k2) > 0.0 ==>
              TriLinear(S2(q1, k1, q2, k2), q1, k1, q2, k2) == q2
  {
    var s1 := S1(q1, k1);
    var s2 := S2(q1, k1, q2, k2);
    assert s1 * k1 == q1;
    assert (s2 - s1) * k2 == q2 - q1;
  }

  /** With positive slopes and 0 <= q1 <= q2, the law is non-decreasing
      and stays within [0, q2]. */
  lemma TriLinearMonotone(s: real, t: real, q1: real, k1: NonZero, q2: real, k2: NonZero)
    requires k1 > 0.0 && k2 > 0.0 && 0.0 <= q1 <= q2
    requires s <= t
    ensures 0.0 <= TriLinear(s, q1, k1, q2, k2) <= TriLinear(t, q1, k1, q2, k2) <= q2
  {
    var s1 := S1(q1, k1);
    var s2 := S2(q1, k1, q2, k2);
    assert s1 * k1 == q1;
    assert s1 >= 0.0;
    assert (s2 - s1) * k2 == q2 - q1;
    assert s2 >= s1;
    TriLinearBounded(s, q1, k1, q2, k2);
    TriLinearBounded(t, q1, k1, q2, k2);
    if 0.0 < s <= s1 && 0.0 < t <= s1 {
      assert s * k1 <= t * k1;
    } else if s1 < s <= s2 && s1 < t <= s2 {
      assert (s - s1) * k2 <= (t - s1) * k2;
    }
  }

  lemma TriLinearBounded(s: real, q1: real, k1: NonZero, q2: real, k2: NonZero)
    requires k1 > 0.0 && k2 > 0.0 && 0.0 <= q1 <= q2
    ensures TriLinear(s, q1, k1, q2, k2) >= 0.0
    ensures s <= S1(q1, k1) ==> TriLinear(s, q1, k1, q2, k2) <= q1
    ensures S1(q1, k1) < s ==> TriLinear(s, q1, k1, q2, k2) >= q1
    ensures TriLinear(s, q1, k1, q2, k2) <= q2
  {
    var s1 := S1(q1, k1);
    var s2 := S2(q1, k1, q2, k2);
    assert s1 * k1 == q1;
    assert (s2 - s1) * k2 == q2 - q1;
    if 0.0 < s <= s1 {
      assert s * k1 <= s1 * k1;
    } else if s1 < s <= s2 {
      assert (s - s1) * k2 <= (s2 - s1) * k2;
    }
  }

  /** Without k2 (bi-linear law) the value is q1 beyond s1, even if a q2 was passed. */
  lemma BiLinearPlateau(s: real, q1: real, k1: NonZero, q2: Option<real>)
    requires s > S1(q1, k1) && s > 0.0
    ensures TriLinearLaw(s, q1, k1, q2, None) == Success(q1)
  {
    assert S2(q1, k1, q1, 1.0) == S1(q1, k1);
  }

  // ---------------------------------------------------------------------
  // Skin friction and end bearing
  // ---------------------------------------------------------------------

  /** Skin friction for a non-zero stiffness: sign(s) . tri_linear(|s|, qs/2, ks, qs, ks/5). */
  function SkinFriction(s: real, qs: real, ks: NonZero): real {
    Sign(s) * TriLinear(Abs(s), qs / 2.0, ks, qs, ks / 5.0)
  }

  /** `skin_friction_law`: raises ZeroDivisionError when ks = 0. */
  function SkinFrictionLaw(s: real, qs: real, ks: real): (r: Result<real, Fault>)
    ensures ks == 0.0 <==> r == Failure(ZeroDivisionError)
    ensures ks != 0.0 ==> r == Success(SkinFriction(s, qs, ks))
  {
    match TriLinearLaw(Abs(s), qs / 2.0, ks, Some(qs), Some(ks / 5.0))
    case Success(v) => Success(Sign(s) * v)
    case Failure(e) => Failure(e)
  }

  /** The skin friction law is odd. */
  lemma SkinFrictionOdd(s: real, qs: real, ks: NonZero)
    ensures SkinFriction(-s, qs, ks) == -SkinFriction(s, qs, ks)
    ensures SkinFriction(0.0, qs, ks) == 0.0
  {
    assert Abs(-s) == Abs(s);
  }

  /** With qs >= 0 and ks > 0 the mobilised friction never exceeds qs in magnitude,
      and has the sign of the displacement. */
  lemma SkinFrictionBounded(s: real, qs: real, ks: NonZero)
    requires qs >= 0.0 && ks > 0.0
    ensures Abs(SkinFriction(s, qs, ks)) <= qs
    ensures s >= 0.0 ==> SkinFriction(s, qs, ks) >= 0.0
    ensures s <= 0.0 ==> SkinFriction(s, qs, ks) <= 0.0
  {
    TriLinearBounded(Abs(s), qs / 2.0, ks, qs, ks / 5.0);
  }

  /** The first test's points (qs = 0.2, Kt = 4) on the positive side. On
      the negative side the law is odd, so -0.01 gives -0.04, not the 0 that
      test expects. */
  lemma SkinFrictionSamples()
    ensures SkinFriction(0.0125, 0.2, 4.0) == 0.05
    ensures SkinFriction(0.0875, 0.2, 4.0) == 0.15
    ensures SkinFriction(0.2, 0.2, 4.0) == 0.2
    ensures SkinFriction(-0.01, 0.2, 4.0) == -0.04
  {
    assert Abs(-0.01) == 0.01 && Sign(-0.01) == -1.0;
    assert TriLinear(Abs(-0.01), 0.2 / 2.0, 4.0, 0.2, 4.0 / 5.0) == 0.04;
  }

  /** The second test's points (qs = 200, ks = 5000); -0.01 gives -50,
      not 0. */
  lemma SkinFrictionSamplesLarge()
    ensures SkinFriction(0.01, 200.0, 5000.0) == 50.0
    ensures SkinFriction(0.07, 200.0, 5000.0) == 150.0
    ensures SkinFriction(0.15, 200.0, 5000.0) == 200.0
    ensures SkinFriction(-0.01, 200.0, 5000.0) == -50.0
  {
  }

  /** End bearing for a non-zero stiffness: tri_linear(s, qp/2, kp, qp, kp/5). */
  function EndBearing(s: real, qp: real, kp: NonZero): real {
    TriLinear(s, qp / 2.0, kp, qp, kp / 5.0)
  }

  /** `end_bearing_law`: raises ZeroDivisionError when kp = 0. */
  function EndBearingLaw(s: real, qp: real, kp: real): (r: Result<real, Fault>)
    ensures kp == 0.0 <==> r == Failure(ZeroDivisionError)
    ensures kp != 0.0 ==> r == Success(EndBearing(s, qp, kp))
  {
    TriLinearLaw(s, qp / 2.0, kp, Some(qp), Some(kp / 5.0))
  }

  /** No end bearing without penetration; full end bearing from s = 3 qp / kp on. */
  lemma EndBearingShape(s: real, qp: real, kp: NonZero)
    requires kp > 0.0 && qp >= 0.0
    ensures s <= 0.0 ==> EndBearing(s, qp, kp) == 0.0
    ensures s >= 3.0 * qp / kp ==> EndBearing(s, qp, kp) == qp
  {
    var s1 := S1(qp / 2.0, kp);
    var s2 := S2(qp / 2.0, kp, qp, kp / 5.0);
    assert s1 * kp == qp / 2.0;
    assert (s2 - s1) * (kp / 5.0) == qp / 2.0;
    assert s2 * kp == 3.0 * qp;
    assert s2 == 3.0 * qp / kp;
  }

  /** Sample points of the tests (qp = 0.2, Kp = 4). */
  lemma EndBearingSamples()
    ensures EndBearing(-0.01, 0.2, 4.0) == 0.0
    ensures EndBearing(0.0125, 0.2, 4.0) == 0.05
    ensures EndBearing(0.0875, 0.2, 4.0) == 0.15
    ensures EndBearing(0.2, 0.2, 4.0) == 0.2
    ensures EndBearing(0.01, 200.0, 5000.0) == 50.0
    ensures EndBearing(0.07, 200.0, 5000.0) == 150.0
    ensures EndBearing(0.15, 200.0, 5000.0) == 200.0
  {
  }

  // ---------------------------------------------------------------------
  // List helpers
  // ---------------------------------------------------------------------

  /** A float that may be -inf or +inf, as the accumulators start there. */
  datatype ExtReal = NegInf | Finite(x: real) | PosInf

  function ExtMax(a: real, b: ExtReal): ExtReal {
    match b
    case NegInf => Finite(a)
    case Finite(y) => Finite(Max(a, y))
    case PosInf => PosInf
  }

  function ExtMin(a: real, b: ExtReal): ExtReal {
    match b
    case NegInf => NegInf
    case Finite(y) => Finite(Min(a, y))
    case PosInf => Finite(a)
  }

  /** `max_list`: -inf for an empty list, else an element bounding all elements. */
  method MaxList(xs: seq<real>) returns (m: ExtReal)
    ensures xs == [] ==> m == NegInf
    ensures xs != [] ==> m.Finite? && m.x in xs && forall k :: 0 <= k < |xs| ==> xs[k] <= m.x
  {
    m := NegInf;
    for i := 0 to |xs|
      invariant i == 0 ==> m == NegInf
      invariant i > 0 ==> m.Finite? && m.x in xs[..i] && forall k :: 0 <= k < i ==> xs[k] <= m.x
    {
      m := ExtMax(xs[i], m);
    }
    assert xs[..|xs|] == xs;
  }

  /** `min_list`: +inf for an empty list, else an element bounded by all elements. */
  method MinList(xs: seq<real>) returns (m: ExtReal)
    ensures xs == [] ==> m == PosInf
    ensures xs != [] ==> m.Finite? && m.x in xs && forall k :: 0 <= k < |xs| ==> m.x <= xs[k]
  {
    m := PosInf;
    for i := 0 to |xs|
      invariant i == 0 ==> m == PosInf
      invariant i > 0 ==> m.Finite? && m.x in xs[..i] && forall k :: 0 <= k < i ==> m.x <= xs[k]
    {
      m := ExtMin(xs[i], m);
    }
    assert xs[..|xs|] == xs;
  }

  /** `rising_curve`: every element is compared with the FIRST element only
      (the previous-value variable is never advanced). An empty list raises
      IndexError. */
  method RisingCurve(xs: seq<real>) returns (r: Result<bool, Fault>)
    ensures xs == [] ==> r == Failure(IndexError)
    ensures xs != [] ==> r == Success(forall k :: 0 <= k < |xs| ==> xs[k] >= xs[0])
  {
    if xs == [] {
      return Failure(IndexError);
    }
    var test := 1;
    var previous := xs[0];
    for i := 0 to |xs|
      invariant test == 0 || test == 1
      invariant test == 1 <==> forall k :: 0 <= k < i ==> xs[k] >= previous
    {
      if xs[i] >= previous {
        test := test * 1;
      } else {
        test := test * 0;
      }
    }
    r := Success(test == 1);
  }

  /** The reversed sequence. */
  function Reverse<T>(xs: seq<T>): (r: seq<T>)
    ensures |r| == |xs|
  {
    if xs == [] then [] else [xs[|xs| - 1]] + Reverse(xs[..|xs| - 1])
  }

  lemma {:induction false} ReverseAt<T>(xs: seq<T>, k: nat)
    requires k < |xs|
    ensures Reverse(xs)[k] == xs[|xs| - 1 - k]
  {
    if k > 0 {
      ReverseAt(xs[..|xs| - 1], k - 1);
    }
  }

  /** Reversing twice gives the list back. */
  lemma ReverseInvolution<T>(xs: seq<T>)
    ensures Reverse(Reverse(xs)) == xs
  {
    forall k | 0 <= k < |xs|
      ensures Reverse(Reverse(xs))[k] == xs[k]
    {
      ReverseAt(Reverse(xs), k);
      ReverseAt(xs, |xs| - 1 - k);
    }
  }

  /** `invert_list`: appends the elements of `reversed(xs)` one by one. */
  method InvertList<T>(xs: seq<T>) returns (r: seq<T>)
    ensures |r| == |xs| && forall k :: 0 <= k < |xs| ==> r[k] == xs[|xs| - 1 - k]
    ensures r == Reverse(xs)
  {
    r := [];
    var i := |xs|;
    while i > 0
      invariant 0 <= i <= |xs|
      invariant |r| == |xs| - i
      invariant forall k :: 0 <= k < |r| ==> r[k] == xs[|xs| - 1 - k]
    {
      i := i - 1;
      r := r + [xs[i]];
    }
    forall k | 0 <= k < |xs|
      ensures r[k] == Reverse(xs)[k]
    {
      ReverseAt(xs, k);
    }
  }
}
