/** The slice used by the bottom-up chaining (`SlicePile` in
    geotech_module/pieu.py): a slice knows Q_bott and dz_bott, solves for
    its midpoint displacement and derives the top face from it. The
    formulas are written over the four numbers they read (dh, Ds, Dp, Eb)
    and the friction law as a function. */
module SlicePileModel {
  import opened Common
  import opened SliceLaws
  import Solver

  /** The numbers the slice formulas read: dh, Ds, Dp and Eb. */
  datatype Dims = Dims(dh: real, ds: real, dp: real, eb: real)

  function DimsOf(g: SliceGeom): Dims {
    Dims(g.deltaH, g.data.ds, g.data.dp, g.data.eb)
  }

  /** The denominator pi . Dp^2 . Eb of `ksi_a` and `dz_top` (= 4 EA). */
  function Stiffness(d: Dims): real { Pi * (d.dp * d.dp) * d.eb }

  /** `ksi_a`: 2 . Q_bott . dh / (pi . Dp^2 . Eb). */
  function KsiAValue(d: Dims, qBott: real): (r: Result<real, Fault>)
    ensures r.Failure? <==> Stiffness(d) == 0.0
    ensures r.Failure? ==> r.error == ZeroDivisionError
    ensures r.Success? ==> r.value * Stiffness(d) == 2.0 * qBott * d.dh
  {
    if Stiffness(d) == 0.0 then Failure(ZeroDivisionError)
    else Success(2.0 * qBott * d.dh / Stiffness(d))
  }

  /** `ksi_b`: Ds . dh^2 / (2 . Dp^2 . Eb). */
  function KsiBValue(d: Dims): (r: Result<real, Fault>)
    ensures r.Failure? <==> 2.0 * (d.dp * d.dp) * d.eb == 0.0
    ensures r.Failure? ==> r.error == ZeroDivisionError
    ensures r.Success? ==> r.value * (2.0 * (d.dp * d.dp) * d.eb) == d.ds * (d.dh * d.dh)
  {
    var den := 2.0 * (d.dp * d.dp) * d.eb;
    if den == 0.0 then Failure(ZeroDivisionError)
    else Success(d.ds * (d.dh * d.dh) / den)
  }

  /** Both ksi fail together: on Dp = 0 or Eb = 0. */
  lemma KsiFailTogether(d: Dims, qBott: real)
    ensures KsiAValue(d, qBott).Failure? <==> KsiBValue(d).Failure?
    ensures KsiAValue(d, qBott).Failure? <==> d.dp == 0.0 || d.eb == 0.0
  {
    var p := d.dp * d.dp;
    ProductZero(d.dp, d.dp);
    ProductZero(Pi * p, d.eb);
    ProductZero(Pi, p);
    ProductZero(2.0 * p, d.eb);
  }

  lemma ProductZero(a: real, b: real)
    ensures a * b == 0.0 <==> a == 0.0 || b == 0.0
  {
  }

  /** pi . Ds . dh / 2: the friction force per unit of tau on half a slice. */
  function HalfShaft(d: Dims): real { Pi * d.ds * d.dh / 2.0 }

  /** `Q_middle`: Q_bott + pi . Ds . dh / 2 . tau(dz_middle); `dz_middle`
      may be the solver's sentinel, on which tau raises `sentinel`. */
  function QMiddleValue(d: Dims, tau: Solver.Target, sentinel: Fault, qBott: real, dzMiddle: Solver.SolverValue): Result<real, Fault>
  {
    if dzMiddle.ZeroList? then Failure(sentinel)
    else if tau(dzMiddle.x).Failure? then Failure(tau(dzMiddle.x).error)
    else Success(qBott + HalfShaft(d) * tau(dzMiddle.x).value)
  }

  /** `Q_top`: 2 . Q_middle - Q_bott. */
  function QTopValue(d: Dims, tau: Solver.Target, sentinel: Fault, qBott: real, dzMiddle: Solver.SolverValue): (r: Result<real, Fault>)
    ensures r.Failure? <==> QMiddleValue(d, tau, sentinel, qBott, dzMiddle).Failure?
    ensures r.Failure? ==> r.error == QMiddleValue(d, tau, sentinel, qBott, dzMiddle).error
    ensures r.Success? ==> QMiddleValue(d, tau, sentinel, qBott, dzMiddle).value == (r.value + qBott) / 2.0
  {
    var qm :- QMiddleValue(d, tau, sentinel, qBott, dzMiddle);
    Success(2.0 * qm - qBott)
  }

  /** `dz_top`: dz_bott + 4 . Q_middle . dh / (pi . Dp^2 . Eb); Q_middle is
      evaluated before the division. */
  function DzTopValue(d: Dims, tau: Solver.Target, sentinel: Fault, qBott: real, dzBott: real, dzMiddle: Solver.SolverValue): (r: Result<real, Fault>)
    ensures QMiddleValue(d, tau, sentinel, qBott, dzMiddle).Failure? ==> r == Failure(QMiddleValue(d, tau, sentinel, qBott, dzMiddle).error)
    ensures QMiddleValue(d, tau, sentinel, qBott, dzMiddle).Success? && Stiffness(d) == 0.0 ==> r == Failure(ZeroDivisionError)
    ensures r.Success? ==> (r.value - dzBott) * Stiffness(d) == 4.0 * QMiddleValue(d, tau, sentinel, qBott, dzMiddle).value * d.dh
  {
    var qm :- QMiddleValue(d, tau, sentinel, qBott, dzMiddle);
    if Stiffness(d) == 0.0 then Failure(ZeroDivisionError)
    else Success(dzBott + 4.0 * qm * d.dh / Stiffness(d))
  }

  /** `fonction_F(z)`: dz_bott + ksi_a + ksi_b . tau(z) - z, evaluated left
      to right. */
  function FValue(d: Dims, tau: Solver.Target, qBott: real, dzBott: real, z: real): (r: Result<real, Fault>)
    ensures KsiAValue(d, qBott).Failure? ==> r == Failure(ZeroDivisionError)
    ensures KsiAValue(d, qBott).Success? && tau(z).Failure? ==> r == Failure(tau(z).error)
    ensures r.Success? ==> tau(z).Success? && KsiAValue(d, qBott).Success? && KsiBValue(d).Success?
    ensures r.Success? ==> r.value == dzBott + KsiAValue(d, qBott).value + KsiBValue(d).value * tau(z).value - z
  {
    KsiFailTogether(d, qBott);
    var a :- KsiAValue(d, qBott);
    var b := KsiBValue(d).value;
    var t :- tau(z);
    Success(dzBott + a + b * t - z)
  }

  /** The bound method `self.fonction_F` handed to the solver. */
  function FFn(d: Dims, tau: Solver.Target, qBott: real, dzBott: real): Solver.Target {
    (z: real) => FValue(d, tau, qBott, dzBott, z)
  }

  /** The root `equilibre` stores: what the solver returns from the guess,
      the sentinel included, or the exception it raised. */
  function EquilibreRoot(d: Dims, tau: Solver.Target, qBott: real, dzBott: real, guess: real): Result<Solver.SolverValue, Fault> {
    RootOf(Solver.Newton(FFn(d, tau, qBott, dzBott), [0.0], [guess]))
  }

  /** The root a solve returns, or the exception it raised. */
  function RootOf(solve: Result<Solver.SolverResult, Fault>): Result<Solver.SolverValue, Fault>
  {
    var res :- solve;
    Success(res.finalRoot)
  }

  /** What `equilibre` returns once the root is stored: (Q_top, dz_top),
      Q_top evaluated first. */
  function Outputs(d: Dims, tau: Solver.Target, sentinel: Fault, qBott: real, dzBott: real, dzMiddle: Solver.SolverValue): Result<(real, real), Fault> {
    var qt :- QTopValue(d, tau, sentinel, qBott, dzMiddle);
    var wt :- DzTopValue(d, tau, sentinel, qBott, dzBott, dzMiddle);
    Success((qt, wt))
  }

  /** The face relations behind the returned pair, whatever root was
      stored: Q_top - Q_bott = pi . Ds . dh . qs with qs = tau(dz_middle),
      Q_middle is the mean of the face forces, and
      (dz_top - dz_bott) . pi Dp^2 Eb = 4 . Q_middle . dh. A stored
      sentinel makes the outputs raise `sentinel`. */
  lemma OutputsRelations(d: Dims, tau: Solver.Target, sentinel: Fault, qBott: real, dzBott: real, dzMiddle: Solver.SolverValue)
    ensures dzMiddle.ZeroList? ==> Outputs(d, tau, sentinel, qBott, dzBott, dzMiddle) == Failure(sentinel)
    ensures Outputs(d, tau, sentinel, qBott, dzBott, dzMiddle).Success? ==>
      var (qt, wt) := Outputs(d, tau, sentinel, qBott, dzBott, dzMiddle).value;
      var qm := QMiddleValue(d, tau, sentinel, qBott, dzMiddle).value;
      && dzMiddle.Num? && tau(dzMiddle.x).Success?
      && qt - qBott == 2.0 * HalfShaft(d) * tau(dzMiddle.x).value
      && qm == (qt + qBott) / 2.0
      && (wt - dzBott) * Stiffness(d) == 4.0 * qm * d.dh
  {
    if Outputs(d, tau, sentinel, qBott, dzBott, dzMiddle).Success? {
      var qm := QMiddleValue(d, tau, sentinel, qBott, dzMiddle).value;
      var t := tau(dzMiddle.x).value;
      assert qm == qBott + HalfShaft(d) * t;
    }
  }

  /** The algebra of the midpoint: with ksi_a . S = 2 Qb dh, ksi_b . B = Ds dh^2
      and S = (pi / 2) . B, the equation z - wb = ksi_a + ksi_b . t says
      (z - wb) . S = dh . (Qb + Qm) where Qm = Qb + pi Ds dh / 2 . t. */
  /** The tested slice: its tip section rounds to 0.0176715 at seven
      decimals, its perimeter to 0.785398 at six, and ksi_b is close to
      2.77777777778e-6 under `math.isclose`'s default tolerance. */
  lemma SampleSliceValues()
    ensures Abs(SampleGeom.Section() - 0.0176715) <= 0.00000005
    ensures Abs(SampleGeom.Perimeter() - 0.785398) <= 0.0000005
    ensures KsiBValue(DimsOf(SampleGeom)).Success?
    ensures IsClose(KsiBValue(DimsOf(SampleGeom)).value, 0.00000277777777778, 0.0)
  {
  }

  lemma MidpointAlgebra(s: real, b: real, ka: real, kb: real, qb: real, ds: real, dh: real, t: real, dz: real)
    requires ka * s == 2.0 * qb * dh
    requires kb * b == ds * (dh * dh)
    requires s == (Pi / 2.0) * b
    requires dz == ka + kb * t
    ensures dz * s == dh * (qb + (qb + Pi * ds * dh / 2.0 * t))
  {
    calc {
      dz * s;
      ka * s + t * (kb * s);
      { assert kb * s == (Pi / 2.0) * (kb * b); }
      2.0 * qb * dh + t * ((Pi / 2.0) * (ds * (dh * dh)));
      dh * (qb + (qb + Pi * ds * dh / 2.0 * t));
    }
  }

  /** At an exact root z of `fonction_F` the midpoint displacement is
      dz_bott plus the shortening of the lower half slice under the mean
      of Q_bott and Q_middle: (z - dz_bott) . pi Dp^2 Eb = dh . (Q_bott +
      Q_middle), i.e. z - dz_bott = dh / (2 EA) . (Q_bott + Q_middle) / 2. */
  lemma RootIsHalfSliceShortening(d: Dims, tau: Solver.Target, sentinel: Fault, qBott: real, dzBott: real, z: real)
    requires FValue(d, tau, qBott, dzBott, z) == Success(0.0)
    ensures QMiddleValue(d, tau, sentinel, qBott, Solver.Num(z)).Success?
    ensures (z - dzBott) * Stiffness(d) == d.dh * (qBott + QMiddleValue(d, tau, sentinel, qBott, Solver.Num(z)).value)
  {
    var ka := KsiAValue(d, qBott).value;
    var kb := KsiBValue(d).value;
    var t := tau(z).value;
    var b := 2.0 * (d.dp * d.dp) * d.eb;
    assert Stiffness(d) == (Pi / 2.0) * b;
    MidpointAlgebra(Stiffness(d), b, ka, kb, qBott, d.ds, d.dh, t, z - dzBott);
  }

  /** A solve that does not converge stores the sentinel (whose outputs
      raise, by OutputsRelations). */
  lemma UnconvergedStoresSentinel(d: Dims, tau: Solver.Target, qBott: real, dzBott: real, guess: real)
    requires Solver.Newton(FFn(d, tau, qBott, dzBott), [0.0], [guess]).Success?
    requires !Solver.Newton(FFn(d, tau, qBott, dzBott), [0.0], [guess]).value.converged
    ensures EquilibreRoot(d, tau, qBott, dzBott, guess) == Success(Solver.ZeroList)
  {
    var f := FFn(d, tau, qBott, dzBott);
    Solver.NewtonShape(f, [0.0], [guess]);
    assert Solver.Newton(f, [0.0], [guess]).value.finalRoot == Solver.ZeroList;
  }

  /** The slice object: its four constructor fields and the three values
      the chaining sets. */
  class SlicePile {
    const zTop: real
    const deltaH: real
    const soil: SoilModel.Soil
    const dataPieu: PileData

    var qBott: real
    var dzBott: real
    var dzMiddle: Solver.SolverValue

    function Geom(): SliceGeom { SliceGeom(zTop, deltaH, soil, dataPieu) }

    /** The dataclass defaults: Q_bott = dz_bott = dz_middle = 0. */
    constructor (zTop: real, deltaH: real, soil: SoilModel.Soil, dataPieu: PileData)
      ensures Geom() == SliceGeom(zTop, deltaH, soil, dataPieu)
      ensures qBott == 0.0 && dzBott == 0.0 && dzMiddle == Solver.Num(0.0)
    {
      this.zTop := zTop;
      this.deltaH := deltaH;
      this.soil := soil;
      this.dataPieu := dataPieu;
      qBott, dzBott, dzMiddle := 0.0, 0.0, Solver.Num(0.0);
    }

    /** `set_Q_bott` */
    method SetQBott(v: real)
      modifies this
      ensures qBott == v && dzBott == old(dzBott) && dzMiddle == old(dzMiddle)
    {
      qBott := v;
    }

    /** `set_dz_bott` */
    method SetDzBott(v: real)
      modifies this
      ensures dzBott == v && qBott == old(qBott) && dzMiddle == old(dzMiddle)
    {
      dzBott := v;
    }

    /** `set_dz_middle` */
    method SetDzMiddle(v: Solver.SolverValue)
      modifies this
      ensures dzMiddle == v && qBott == old(qBott) && dzBott == old(dzBott)
    {
      dzMiddle := v;
    }

    /** `Q_middle` */
    function QMiddle(): Result<real, Fault>
      reads this
    {
      QMiddleValue(DimsOf(Geom()), Geom().TauFn(), Geom().SentinelFault(), qBott, dzMiddle)
    }

    /** `Q_top` */
    function QTop(): Result<real, Fault>
      reads this
    {
      QTopValue(DimsOf(Geom()), Geom().TauFn(), Geom().SentinelFault(), qBott, dzMiddle)
    }

    /** `dz_top` */
    function DzTop(): Result<real, Fault>
      reads this
    {
      DzTopValue(DimsOf(Geom()), Geom().TauFn(), Geom().SentinelFault(), qBott, dzBott, dzMiddle)
    }

    /** `equilibre(dz_bott)`: solves `fonction_F` = 0 from the guess, stores
        the returned root (the sentinel included) with `set_dz_middle`, and
        returns (Q_top, dz_top). A solver exception leaves the slice as it
        was; an exception from Q_top or dz_top comes after the store. */
    method Equilibre(guess: real) returns (r: Result<(real, real), Fault>)
      modifies this
      ensures qBott == old(qBott) && dzBott == old(dzBott)
      ensures var root := EquilibreRoot(DimsOf(Geom()), Geom().TauFn(), qBott, dzBott, guess);
        && (root.Failure? ==> r == Failure(root.error) && dzMiddle == old(dzMiddle))
        && (root.Success? ==>
              dzMiddle == root.value && r == Outputs(DimsOf(Geom()), Geom().TauFn(), Geom().SentinelFault(), qBott, dzBott, root.value))
    {
      var d := DimsOf(Geom());
      var tau := Geom().TauFn();
      var created := Solver.NewtonRaphson11.Create(FFn(d, tau, qBott, dzBott), [0.0], [guess]);
      if created.Failure? {
        return Failure(created.error);
      }
      var root := created.value.FinalRoots();
      assert EquilibreRoot(d, tau, qBott, dzBott, guess) == Success(root);
      SetDzMiddle(root);
      var qt := QTop();
      if qt.Failure? {
        return Failure(qt.error);
      }
      var wt := DzTop();
      if wt.Failure? {
        return Failure(wt.error);
      }
      r := Success((qt.value, wt.value));
    }
  }
}
