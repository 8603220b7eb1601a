/** What a slice of pile knows about itself and its soil. Both slice
    classes of the engine (SliceTB in geotech_module/slice_tb.py and
    SlicePile in geotech_module/pieu.py) derive the same quantities from the
    same four attributes; they are written once here. */
module SliceLaws {
  import opened Common
  import opened Utils
  import opened SoilModel
  import Solver

  /** The `data_pieu` dictionary: category of table A1, Young's modulus Eb,
      tip diameter Dp and shaft diameter Ds. */
  datatype PileData = PileData(category: int, eb: real, dp: real, ds: real)

  /** The four attributes a slice is built from: top level, height, soil
      layer and pile data. */
  datatype SliceGeom = SliceGeom(zTop: real, deltaH: real, soil: Soil, data: PileData) {

    /** `section_pointe` / `A`: pi Dp^2 / 4. */
    function Section(): real { Pi * data.dp * data.dp / 4.0 }

    /** `perimetre` / `P`: pi Ds. */
    function Perimeter(): real { Pi * data.ds }

    /** `EA`: Eb . A. */
    function EA(): real { data.eb * Section() }

    /** `qs_max`: table F.5.2.3 for the pile category. */
    function QsMax(): Result<real, Fault> { FrottementMaxi(soil, data.category) }

    /** `alpha_pieu_sol` as a number: a '-' entry cannot be multiplied by
        fsol and raises TypeError. */
    function Alpha(): Result<real, Fault>
    {
      var alpha :- AlphaPieuSol(soil, data.category);
      match alpha
      case Dash => Failure(TypeError)
      case Val(a) => Success(a)
    }

    /** `qs = alpha . fsol`, the unbounded shaft friction. */
    function Qs(): Result<real, Fault>
    {
      var a :- Alpha();
      Success(a * soil.fsol)
    }

    /** `qs_lim`: min(qs, qs_max), qs computed first. */
    function QsLim(): (r: Result<real, Fault>)
      ensures r.Failure? <==> Qs().Failure? || QsMax().Failure?
      ensures Qs().Failure? ==> r == Failure(Qs().error)
      ensures r.Success? ==> r.value <= QsMax().value && r.value <= Qs().value
      ensures r.Success? ==> r.value == QsMax().value || r.value == Qs().value
    {
      var qs :- Qs();
      var qsMax :- QsMax();
      Success(Min(qs, qsMax))
    }

    /** `kt` / `module_kt`: the shaft modulus for the shaft diameter. */
    function Kt(): Result<Option<real>, Fault> { ModuleKt(soil, data.ds) }

    /** `module_kq`: the tip modulus for the tip diameter. */
    function Kq(): Result<Option<real>, Fault> { ModuleKq(soil, data.dp) }

    /** The two shaft-law parameters, in the order `skin_friction_law(w,
        self.qs_lim, self.kt)` evaluates them; a missing kt makes `ks/5`
        raise TypeError, a zero kt makes `q1/k1` raise ZeroDivisionError. */
    function FrictionLaw(): (r: Result<(real, NonZero), Fault>)
      ensures r.Success? ==> QsLim() == Success(r.value.0) && Kt() == Success(Some(r.value.1 as real))
    {
      var qsLim :- QsLim();
      var kt :- Kt();
      match kt
      case None => Failure(TypeError)
      case Some(k) => if k == 0.0 then Failure(ZeroDivisionError) else Success((qsLim, k))
    }

    /** `tau` / `tau_z`: the mobilised shaft friction at displacement w. */
    function Tau(w: real): (r: Result<real, Fault>)
      ensures FrictionLaw().Failure? ==> r == Failure(FrictionLaw().error)
      ensures FrictionLaw().Success? ==> r == Success(SkinFriction(w, FrictionLaw().value.0, FrictionLaw().value.1))
    {
      var qsLim :- QsLim();
      var kt :- Kt();
      match kt
      case None => Failure(TypeError)
      case Some(k) => SkinFrictionLaw(w, qsLim, k)
    }

    /** `tau` applied to what the solver returned. qs_lim and kt are
        evaluated as arguments first; then the sentinel list `[0.0]` reaches
        `abs(s)` and raises TypeError before kt itself is used. */
    function TauAt(v: Solver.SolverValue): Result<real, Fault>
    {
      var qsLim :- QsLim();
      var kt :- Kt();
      match v
      case ZeroList => Failure(TypeError)
      case Num(w) => Tau(w)
    }

    /** `self.tau` as the function the solver's closures call. */
    function TauFn(): Solver.Target { (w: real) => Tau(w) }

    /** The exception `tau([0.0])` raises. */
    function SentinelFault(): (e: Fault)
      ensures TauAt(Solver.ZeroList) == Failure(e)
    {
      if QsLim().Failure? then QsLim().error
      else if Kt().Failure? then Kt().error
      else TypeError
    }

    /** `q_z`: the mobilised end bearing at displacement z for a limit
        pressure qb; a missing kq makes `kp/5` raise TypeError. */
    function QZ(qb: real, z: real): (r: Result<real, Fault>)
      ensures Kq().Success? && Kq().value.Some? && Kq().value.value != 0.0 ==>
                r == Success(EndBearing(z, qb, Kq().value.value))
      ensures Kq().Success? && Kq().value.None? ==> r == Failure(TypeError)
    {
      var kq :- Kq();
      match kq
      case None => Failure(TypeError)
      case Some(k) => EndBearingLaw(z, qb, k)
    }

    /** `z_middle` */
    function ZMiddle(): real { zTop - deltaH / 2.0 }

    /** `z_bottom` */
    function ZBottom(): real { zTop - deltaH }
  }

  /** A friction law applied to what the solver returned: a float, or the
      sentinel list, on which it raises `sentinel`. */
  function TauOfValue(tau: Solver.Target, sentinel: Fault, v: Solver.SolverValue): Result<real, Fault>
  {
    match v
    case ZeroList => Failure(sentinel)
    case Num(w) => tau(w)
  }

  /** The slice's own `tau` at a solver value is that application. */
  lemma TauAtIsTauOfValue(g: SliceGeom, v: Solver.SolverValue)
    ensures g.TauAt(v) == TauOfValue(g.TauFn(), g.SentinelFault(), v)
  {
  }

  /** The slice levels are ordered and the middle is halfway. */
  lemma SliceLevels(g: SliceGeom)
    requires g.deltaH > 0.0
    ensures g.ZBottom() < g.ZMiddle() < g.zTop
    ensures g.ZMiddle() - g.ZBottom() == g.zTop - g.ZMiddle()
  {
  }

  /** Whether the shaft law raises does not depend on the displacement. */
  lemma TauFailsUniformly(g: SliceGeom, w: real, w': real)
    ensures g.Tau(w).Failure? <==> g.Tau(w').Failure?
    ensures g.Tau(w).Failure? ==> g.Tau(w) == g.Tau(w')
  {
  }

  /** qs_lim never exceeds qs_max, and with qs_lim >= 0 and kt > 0 the
      mobilised friction is bounded by qs_lim in magnitude. */
  lemma TauBounded(g: SliceGeom, w: real)
    requires g.FrictionLaw().Success?
    requires g.FrictionLaw().value.0 >= 0.0 && g.FrictionLaw().value.1 > 0.0
    ensures g.QsLim().value <= g.QsMax().value
    ensures Abs(g.Tau(w).value) <= g.QsLim().value
  {
    SkinFrictionBounded(w, g.FrictionLaw().value.0, g.FrictionLaw().value.1);
  }

  /** The slice of the pile tests: category 19, Eb = 20000, Dp = 0.15 and
      Ds = 0.25, 0.1 high from level 0 in a Q1 layer of the default soil
      type. The layer's fsol plays no part in the sampled values. */
  const SampleGeom: SliceGeom :=
    SliceGeom(0.0, 0.1, Soil("Argile", 0.0, -1.0, "Q1", 0.5, 1.0, 5.0, 2.0 / 3.0, Granulaire, 0.0),
              PileData(19, 20000.0, 0.15, 0.25))
}
