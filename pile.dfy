/** The pile (`Pile` in geotech_module/pieu.py): its mesh of slices, the
    resistances computed from them, and the bottom-up equilibrium for an
    imposed tip displacement. The net equivalent limit pressure ple* and
    the effective embedment height are given values of the pile (they come
    from integrating the pressuremeter log). */
module PileModel {
  import opened Common
  import opened SoilModel
  import opened SliceLaws
  import opened PileMesh
  import opened SlicePileModel
  import SliceTBModel
  import Solver
  import Tolerance
  import ShootingSearch
  import Utils

  // ---------------------------------------------------------------------
  // Coefficients of the pile
  // ---------------------------------------------------------------------

  /** The `Classe` column of table A1, category k at index k - 1. */
  const TAB_A1_CLASSE: seq<int> := [1, 1, 1, 1, 1, 2, 3, 3, 4, 4, 4, 4, 5, 6, 6, 7, 1, 1, 8, 8]

  /** `pile_classe`: the class of a category; an unknown one raises KeyError. */
  function PileClasse(category: int): (r: Result<int, Fault>)
    ensures r.Success? <==> 1 <= category <= 20
    ensures r.Failure? ==> r.error == KeyError
    ensures r.Success? ==> 1 <= r.value <= 8
  {
    if 1 <= category <= |TAB_A1_CLASSE| then Success(TAB_A1_CLASSE[category - 1]) else Failure(KeyError)
  }

  /** `kp_max`: table F.4.2.1 for the pile class and the layer at the tip
      level; no layer there makes the attribute access raise AttributeError. */
  function KpMaxAtTip(lith: seq<Soil>, levelBott: real, category: int): (r: Result<real, Fault>)
    ensures SoilAt(lith, levelBott).None? ==> r == Failure(AttributeError)
    ensures SoilAt(lith, levelBott).Some? && PileClasse(category).Failure? ==> r == Failure(KeyError)
    ensures SoilAt(lith, levelBott).Some? && PileClasse(category).Success? ==>
              r == KpMax(SoilAt(lith, levelBott).value, PileClasse(category).value)
  {
    var soil := SoilAt(lith, levelBott);
    if soil.None? then Failure(AttributeError)
    else
      var classe :- PileClasse(category);
      KpMax(soil.value, classe)
  }

  /** The bearing factor for an embedment ratio r = h_e / Ds: kp_max from
      r = 5 on, linear from 1 at r = 0 below. */
  function KpOfRatio(kpMax: real, ratio: real): real {
    if ratio >= 5.0 then kpMax else 1.0 + (kpMax - 1.0) * ratio / 5.0
  }

  /** `kp_util`: h_e / Ds is computed first (Ds = 0 raises
      ZeroDivisionError), then kp_max. */
  function KpUtilValue(lith: seq<Soil>, levelBott: real, category: int, ds: real, hEff: real): (r: Result<real, Fault>)
    ensures ds == 0.0 ==> r == Failure(ZeroDivisionError)
    ensures ds != 0.0 ==> r.Failure? == KpMaxAtTip(lith, levelBott, category).Failure?
    ensures ds != 0.0 && r.Failure? ==> r.error == KpMaxAtTip(lith, levelBott, category).error
    ensures r.Success? ==> r.value == KpOfRatio(KpMaxAtTip(lith, levelBott, category).value, hEff / ds)
  {
    var kpMax := KpMaxAtTip(lith, levelBott, category);
    if ds == 0.0 then Failure(ZeroDivisionError)
    else if kpMax.Failure? then Failure(kpMax.error)
    else if hEff / ds >= 5.0 then Success(kpMax.value)
    else
      KpBranchIsRatio(kpMax.value, hEff, ds);
      Success(KpLower(kpMax.value, hEff, ds))
  }

  /** The lower branch in the source's order of operations. */
  function KpLower(kpMax: real, hEff: real, ds: real): real
    requires ds != 0.0
  {
    1.0 + (kpMax - 1.0) * hEff / (5.0 * ds)
  }

  /** The lower branch is KpOfRatio of h_e / Ds. */
  lemma KpBranchIsRatio(kpMax: real, hEff: real, ds: real)
    requires ds != 0.0 && hEff / ds < 5.0
    ensures KpLower(kpMax, hEff, ds) == KpOfRatio(kpMax, hEff / ds)
  {
    var r := hEff / ds;
    assert hEff == r * ds;
    assert (kpMax - 1.0) * hEff == ((kpMax - 1.0) * r) * ds;
  }

  /** Multiplying by a non-negative factor keeps an inequality. */
  lemma MulLeft(a: real, x: real, y: real)
    requires a >= 0.0 && x <= y
    ensures a * x <= a * y
  {
  }

  /** The two branches of kp_util meet where h_e / Ds = 5: the lower
      branch, in the source's order of operations, gives kp_max there. */
  lemma KpBranchesMeet(kpMax: real, ds: real)
    requires ds != 0.0
    ensures KpLower(kpMax, 5.0 * ds, ds) == kpMax
  {
  }

  /** For h_e / Ds >= 0 and kp_max >= 1 the factor rises from 1 at 0 to at
      most kp_max. */
  lemma KpOfRatioShape(kpMax: real, ratio: real, ratio': real)
    requires kpMax >= 1.0 && 0.0 <= ratio <= ratio'
    ensures 1.0 <= KpOfRatio(kpMax, ratio) <= kpMax
    ensures KpOfRatio(kpMax, ratio) <= KpOfRatio(kpMax, ratio')
    ensures KpOfRatio(kpMax, 0.0) == 1.0
  {
    MulLeft(kpMax - 1.0, ratio, ratio');
    if ratio < 5.0 {
      MulLeft(kpMax - 1.0, ratio, 5.0);
    }
  }

  /** `a_longueur`: max(Dp / 2, 0.5). */
  function ALongueur(dp: real): (a: real)
    ensures a >= dp / 2.0 && a >= 0.5
    ensures a == dp / 2.0 || a == 0.5
  {
    Max(dp / 2.0, 0.5)
  }

  /** `b_length`: min(a, pile height). */
  function BLength(dp: real, height: real): (b: real)
    ensures b <= ALongueur(dp) && b <= height
    ensures b == ALongueur(dp) || b == height
  {
    Min(ALongueur(dp), height)
  }

  // ---------------------------------------------------------------------
  // Skin friction resistance
  // ---------------------------------------------------------------------

  /** The shaft force perimetre . qs_lim . delta_h of one slice. */
  function ShaftForce(perimeter: real, qsLim: real, deltaH: real): real {
    perimeter * qsLim * deltaH
  }

  /** One slice's term of R_s. */
  function SkinTerm(g: SliceGeom): Result<real, Fault> {
    var qsLim :- g.QsLim();
    Success(ShaftForce(g.Perimeter(), qsLim, g.deltaH))
  }

  /** The terms of the slices, in order. */
  function SkinTerms(slices: seq<SliceGeom>): (t: seq<Result<real, Fault>>)
    ensures |t| == |slices|
  {
    seq(|slices|, k requires 0 <= k < |slices| => SkinTerm(slices[k]))
  }

  /** The sum of the first k terms, the first exception raised. */
  function SumUpTo(terms: seq<Result<real, Fault>>, k: int): Result<real, Fault>
    requires 0 <= k <= |terms|
  {
    if k == 0 then Success(0.0)
    else
      var acc :- SumUpTo(terms, k - 1);
      var term :- terms[k - 1];
      Success(acc + term)
  }

  /** `resistance_skin_friction`: R_s = the sum over the slices of
      perimetre . qs_lim . delta_h. */
  function SkinResistance(slices: seq<SliceGeom>): Result<real, Fault> {
    SumUpTo(SkinTerms(slices), |slices|)
  }

  /** The sum fails exactly when some term does, with the first failing
      term's exception; otherwise it is the sum of the terms. */
  lemma {:induction false} SumUpToFailure(terms: seq<Result<real, Fault>>, k: int)
    requires 0 <= k <= |terms|
    ensures SumUpTo(terms, k).Failure? <==> exists j :: 0 <= j < k && terms[j].Failure?
    ensures SumUpTo(terms, k).Failure? ==>
      exists j :: 0 <= j < k && terms[j].Failure? && SumUpTo(terms, k).error == terms[j].error &&
                  (forall i :: 0 <= i < j ==> terms[i].Success?)
  {
    if k > 0 {
      SumUpToFailure(terms, k - 1);
      if SumUpTo(terms, k - 1).Success? && terms[k - 1].Failure? {
        assert forall i :: 0 <= i < k - 1 ==> terms[i].Success?;
      }
    }
  }

  /** An exception stops the accumulation: once a term fails, every longer
      prefix raises it. */
  lemma {:induction false} SumFailurePersists(terms: seq<Result<real, Fault>>, k: int, k': int)
    requires 0 <= k <= k' <= |terms|
    requires SumUpTo(terms, k).Failure?
    ensures SumUpTo(terms, k') == SumUpTo(terms, k)
    decreases k' - k
  {
    if k < k' {
      SumFailurePersists(terms, k, k' - 1);
    }
  }

  /** Non-negative terms give a non-negative sum. */
  lemma {:induction false} SumNonNegative(terms: seq<Result<real, Fault>>, k: int)
    requires 0 <= k <= |terms|
    requires forall j :: 0 <= j < k ==> terms[j].Success? && terms[j].value >= 0.0
    ensures SumUpTo(terms, k).Success? && SumUpTo(terms, k).value >= 0.0
  {
    if k > 0 {
      SumNonNegative(terms, k - 1);
    }
  }

  /** One more term: the sum of k + 1 terms adds the k-th to the first k. */
  lemma SumStep(terms: seq<Result<real, Fault>>, k: int, acc: real, t: real, acc': real)
    requires 0 <= k < |terms|
    requires SumUpTo(terms, k) == Success(acc) && terms[k] == Success(t) && acc' == acc + t
    ensures SumUpTo(terms, k + 1) == Success(acc')
  {
  }

  lemma ShaftForceNonNegative(a: real, b: real, c: real)
    requires a >= 0.0 && b >= 0.0 && c >= 0.0
    ensures ShaftForce(a, b, c) >= 0.0
  {
    assert a * b >= 0.0;
  }

  /** A slice with Ds >= 0, delta_h >= 0 and qs_lim >= 0 contributes a
      non-negative term. */
  lemma SkinTermNonNegative(g: SliceGeom)
    requires g.data.ds >= 0.0 && g.deltaH >= 0.0
    requires g.QsLim().Success? && g.QsLim().value >= 0.0
    ensures SkinTerm(g).Success? && SkinTerm(g).value >= 0.0
  {
    assert g.Perimeter() >= 0.0 by { assert Pi == 3.141592653589793; }
    ShaftForceNonNegative(g.Perimeter(), g.QsLim().value, g.deltaH);
  }

  /** R_s >= 0 when every slice has Ds >= 0, delta_h >= 0 and qs_lim >= 0. */
  lemma SkinResistanceNonNegative(slices: seq<SliceGeom>)
    requires forall k :: 0 <= k < |slices| ==>
      slices[k].data.ds >= 0.0 && slices[k].deltaH >= 0.0 &&
      slices[k].QsLim().Success? && slices[k].QsLim().value >= 0.0
    ensures SkinResistance(slices).Success? && SkinResistance(slices).value >= 0.0
  {
    var terms := SkinTerms(slices);
    forall j | 0 <= j < |slices|
      ensures terms[j].Success? && terms[j].value >= 0.0
    {
      SkinTermNonNegative(slices[j]);
    }
    SumNonNegative(terms, |slices|);
  }

  // ---------------------------------------------------------------------
  // Bottom-up chaining
  // ---------------------------------------------------------------------

  /** What one slice's equilibrium reads besides its two face values: its
      dimensions, its friction law and what that law raises on the solver's
      sentinel. */
  datatype Law = Law(d: Dims, tau: Solver.Target, sentinel: Fault)

  function LawOf(g: SliceGeom): Law {
    Law(DimsOf(g), g.TauFn(), g.SentinelFault())
  }

  /** One slice of `equilibre_dz_pointe`: (Q_bott, dz_bott) are stored, the
      slice solves from dz_bott and its (Q_top, dz_top) is returned. */
  function Step(l: Law, q: real, dz: real): Result<(real, real), Fault> {
    var root := EquilibreRoot(l.d, l.tau, q, dz, dz);
    if root.Failure? then Failure(root.error) else Outputs(l.d, l.tau, l.sentinel, q, dz, root.value)
  }

  /** The face reached after chaining the slices lo .. n - 1 from (q0, dz0)
      at the bottom of slice n - 1, bottom to top. */
  function ChainFrom(laws: seq<Law>, lo: int, q0: real, dz0: real): Result<(real, real), Fault>
    requires 0 <= lo <= |laws|
    decreases |laws| - lo
  {
    if lo == |laws| then Success((q0, dz0))
    else
      var below := ChainFrom(laws, lo + 1, q0, dz0);
      if below.Failure? then Failure(below.error) else Step(laws[lo], below.value.0, below.value.1)
  }

  /** One more slice: chaining from lo is the step of slice lo from the face
      chained up to lo + 1. */
  lemma ChainStep(laws: seq<Law>, lo: int, q0: real, dz0: real, face: (real, real), next: Result<(real, real), Fault>)
    requires 0 <= lo < |laws|
    requires ChainFrom(laws, lo + 1, q0, dz0) == Success(face)
    requires next == Step(laws[lo], face.0, face.1)
    ensures ChainFrom(laws, lo, q0, dz0) == next
  {
  }

  /** An exception stops the chaining: it is what the whole chain raises. */
  lemma {:induction false} ChainFailurePersists(laws: seq<Law>, lo: int, lo': int, q0: real, dz0: real)
    requires 0 <= lo' <= lo <= |laws|
    requires ChainFrom(laws, lo, q0, dz0).Failure?
    ensures ChainFrom(laws, lo', q0, dz0) == ChainFrom(laws, lo, q0, dz0)
    decreases lo - lo'
  {
    if lo' < lo {
      ChainFailurePersists(laws, lo, lo' + 1, q0, dz0);
    }
  }

  /** The face relations of a slice between the face it was given and the
      face it passed up, for the root it stored: the root is a number,
      Q_top - Q_bott = pi Ds dh . tau(root) and
      (dz_top - dz_bott) . pi Dp^2 Eb = 4 Q_middle dh. */
  predicate FaceRelations(l: Law, below: (real, real), above: (real, real), root: Solver.SolverValue) {
    && root.Num? && l.tau(root.x).Success?
    && QMiddleValue(l.d, l.tau, l.sentinel, below.0, root).Success?
    && above.0 - below.0 == 2.0 * HalfShaft(l.d) * l.tau(root.x).value
    && (above.1 - below.1) * Stiffness(l.d) == 4.0 * QMiddleValue(l.d, l.tau, l.sentinel, below.0, root).value * l.d.dh
  }

  /** A step that returns has solved to a number (a sentinel would have
      raised) and satisfies the face relations. */
  lemma StepRelations(l: Law, q: real, dz: real)
    requires Step(l, q, dz).Success?
    ensures EquilibreRoot(l.d, l.tau, q, dz, dz).Success?
    ensures FaceRelations(l, (q, dz), Step(l, q, dz).value, EquilibreRoot(l.d, l.tau, q, dz, dz).value)
  {
    var root := EquilibreRoot(l.d, l.tau, q, dz, dz).value;
    assert Step(l, q, dz) == Outputs(l.d, l.tau, l.sentinel, q, dz, root);
    OutputsFaces(l, q, dz, root);
  }

  /** The outputs of a slice from any stored root satisfy the face relations. */
  lemma OutputsFaces(l: Law, q: real, dz: real, root: Solver.SolverValue)
    requires Outputs(l.d, l.tau, l.sentinel, q, dz, root).Success?
    ensures FaceRelations(l, (q, dz), Outputs(l.d, l.tau, l.sentinel, q, dz, root).value, root)
  {
    OutputsRelations(l.d, l.tau, l.sentinel, q, dz, root);
  }

  /** Every slice of a chain that returns satisfies the face relations
      between the face below it and the face above it. */
  lemma ChainRelations(laws: seq<Law>, lo: int, q0: real, dz0: real)
    requires 0 <= lo < |laws| && ChainFrom(laws, lo, q0, dz0).Success?
    ensures ChainFrom(laws, lo + 1, q0, dz0).Success?
    ensures var below := ChainFrom(laws, lo + 1, q0, dz0).value;
      var root := EquilibreRoot(laws[lo].d, laws[lo].tau, below.0, below.1, below.1);
      root.Success? && FaceRelations(laws[lo], below, ChainFrom(laws, lo, q0, dz0).value, root.value)
  {
    var below := ChainFrom(laws, lo + 1, q0, dz0).value;
    StepRelations(laws[lo], below.0, below.1);
  }

  /** The tip load `section_pointe . q_z(qb, dz_pointe)` of the lowest slice. */
  function TipLoad(g: SliceGeom, qb: real, dzPointe: real): Result<real, Fault> {
    var qz := g.QZ(qb, dzPointe);
    if qz.Failure? then Failure(qz.error) else Success(g.Section() * qz.value)
  }

  /** A slice stores the bottom face it was given and the root solved from it. */
  predicate Stored(s: SlicePile, l: Law, face: (real, real))
    reads s
  {
    && s.qBott == face.0 && s.dzBott == face.1
    && EquilibreRoot(l.d, l.tau, face.0, face.1, face.1) == Success(s.dzMiddle)
  }

  /** One slice of the loop of `equilibre_dz_pointe`: `set_Q_bott`,
      `set_dz_bott`, then `equilibre(dz_bott)`. */
  method SolveSlice(s: SlicePile, ghost l: Law, q: real, dz: real) returns (r: Result<(real, real), Fault>)
    requires l == LawOf(s.Geom())
    modifies s
    ensures r == Step(l, q, dz)
    ensures r.Success? ==> Stored(s, l, (q, dz))
  {
    s.SetQBott(q);
    s.SetDzBott(dz);
    r := s.Equilibre(dz);
  }

  // ---------------------------------------------------------------------
  // Top-down propagation
  // ---------------------------------------------------------------------

  /** One slice of `propagate_top_down` as a crossing from its top face
      (Q, w) to the state it stores. */
  datatype DownLaw = DownLaw(cross: (real, real) -> Result<SliceTBModel.FaceState, Fault>)

  /** The crossing of a slice: `propagate("top_to_bottom", Q, w)` with the
      midpoint guess defaulting to w. */
  function DownLawOf(g: SliceGeom): DownLaw {
    DownLaw((q: real, w: real) => SliceTBModel.PropagateSpec(g, "top_to_bottom", q, w, None))
  }

  function DownCross(l: DownLaw, face: (real, real)): Result<SliceTBModel.FaceState, Fault> {
    l.cross(face.0, face.1)
  }

  /** One slice of `propagate_top_down`: the bottom face it passes down. */
  function DownStep(l: DownLaw, face: (real, real)): Result<(real, real), Fault> {
    var st := DownCross(l, face);
    if st.Failure? then Failure(st.error) else Success((st.value.qBott, st.value.dzBott))
  }

  /** For a slice's own law, the step is what `propagate("top_to_bottom",
      Q, w)` returns, and the crossing is the state it stores. */
  lemma DownStepIsPropagate(g: SliceGeom, face: (real, real))
    ensures DownStep(DownLawOf(g), face) == SliceTBModel.Propagated(g, "top_to_bottom", face.0, face.1, None)
    ensures DownCross(DownLawOf(g), face) == SliceTBModel.PropagateSpec(g, "top_to_bottom", face.0, face.1, None)
  {
    assert SliceTBModel.DirectionOf("top_to_bottom") == Some(SliceTBModel.TopToBottom);
  }

  /** The face (Q, w) at the bottom of slice k - 1 after propagating
      (qHead, wHead) down through slices 0 .. k - 1. */
  function DownTo(laws: seq<DownLaw>, k: int, qHead: real, wHead: real): Result<(real, real), Fault>
    requires 0 <= k <= |laws|
    decreases k
  {
    if k == 0 then Success((qHead, wHead))
    else
      var above := DownTo(laws, k - 1, qHead, wHead);
      if above.Failure? then Failure(above.error) else DownStep(laws[k - 1], above.value)
  }

  /** One more slice: propagating through k + 1 slices is the step of slice
      k from the face reached after k. */
  lemma DownStepNext(laws: seq<DownLaw>, k: int, qHead: real, wHead: real, face: (real, real), next: Result<(real, real), Fault>)
    requires 0 <= k < |laws|
    requires DownTo(laws, k, qHead, wHead) == Success(face)
    requires next == DownStep(laws[k], face)
    ensures DownTo(laws, k + 1, qHead, wHead) == next
  {
  }

  /** An exception stops the propagation: it is what the whole propagation
      raises. */
  lemma {:induction false} DownFailurePersists(laws: seq<DownLaw>, k: int, k': int, qHead: real, wHead: real)
    requires 0 <= k <= k' <= |laws|
    requires DownTo(laws, k, qHead, wHead).Failure?
    ensures DownTo(laws, k', qHead, wHead) == DownTo(laws, k, qHead, wHead)
    decreases k' - k
  {
    if k < k' {
      DownFailurePersists(laws, k, k' - 1, qHead, wHead);
    }
  }

  /** A slice crossed from its top face keeps the face relations of
      `propagate`: equilibrium of the slice, its compression, tau at the
      midpoint, and the top face stored as given. */
  lemma DownRelations(g: SliceGeom, face: (real, real))
    requires DownCross(DownLawOf(g), face).Success?
    ensures SliceTBModel.FaceRelations(SliceTBModel.MechOf(g), g.TauFn(), SliceTBModel.TopToBottom, face.0, face.1,
                                       DownCross(DownLawOf(g), face).value)
  {
    DownStepIsPropagate(g, face);
    SliceTBModel.PropagateRelations(g, "top_to_bottom", face.0, face.1, None);
  }

  /** The tip reaction `Qpointe(w_base)`: none when the head load pulls
      (traction) or when the base does not penetrate, otherwise
      Ab . end_bearing_law(w_base, qb, kq), where a missing kq raises
      TypeError. */
  function TipReaction(ab: real, traction: bool, qb: real, kq: Option<real>, wBase: real): (r: Result<real, Fault>)
    ensures traction || wBase <= 0.0 ==> r == Success(0.0)
    ensures !traction && wBase > 0.0 && kq.None? ==> r == Failure(TypeError)
    ensures !traction && wBase > 0.0 && kq.Some? && kq.value == 0.0 ==> r == Failure(ZeroDivisionError)
    ensures !traction && wBase > 0.0 && kq.Some? && kq.value != 0.0 ==>
              r.Success? && r.value == ab * Utils.EndBearing(wBase, qb, kq.value)
  {
    if traction then Success(0.0)
    else if wBase <= 0.0 then Success(0.0)
    else if kq.None? then Failure(TypeError)
    else
      var q := Utils.EndBearingLaw(wBase, qb, kq.value);
      if q.Failure? then Failure(q.error) else Success(ab * q.value)
  }

  /** `residu(w_head)`: the base force left over once the tip reaction
      has been subtracted from what reaches the base. */
  function Residu(laws: seq<DownLaw>, ab: real, traction: bool, qb: real, kq: Option<real>, qHead: real, wHead: real): Result<real, Fault> {
    var base := DownTo(laws, |laws|, qHead, wHead);
    if base.Failure? then Failure(base.error)
    else if traction then Success(base.value.0)
    else if base.value.1 <= 0.0 then Success(base.value.0)
    else
      var qp := TipReaction(ab, traction, qb, kq, base.value.1);
      if qp.Failure? then Failure(qp.error) else Success(base.value.0 - qp.value)
  }

  /** The residual is the base force minus the tip reaction, in every case. */
  lemma ResiduIsBaseMinusTip(laws: seq<DownLaw>, ab: real, traction: bool, qb: real, kq: Option<real>, qHead: real, wHead: real)
    requires DownTo(laws, |laws|, qHead, wHead).Success?
    ensures var base := DownTo(laws, |laws|, qHead, wHead).value;
      var qp := TipReaction(ab, traction, qb, kq, base.1);
      && (qp.Failure? <==> Residu(laws, ab, traction, qb, kq, qHead, wHead).Failure?)
      && (qp.Success? ==> Residu(laws, ab, traction, qb, kq, qHead, wHead) == Success(base.0 - qp.value))
  {
  }

  function ResiduFn(laws: seq<DownLaw>, ab: real, traction: bool, qb: real, kq: Option<real>, qHead: real): Solver.Target {
    (w: real) => Residu(laws, ab, traction, qb, kq, qHead, w)
  }

  // ---------------------------------------------------------------------
  // Settlement curve
  // ---------------------------------------------------------------------

  /** Load i of the settlement curve: `Qmin + i . (Qmax - Qmin) / nb_pas`. */
  function Load(qMin: real, qMax: real, nb: real, i: int): real
    requires nb != 0.0
  {
    qMin + (i as real) * (qMax - qMin) / nb
  }

  /** The number of whole i >= 0 with i <= nb is floor(nb) + 1. */
  lemma FloorCount(nb: real, i: int)
    requires i >= 1 && ((i - 1) as real) <= nb
    ensures i <= nb.Floor + 1
    ensures !((i as real) <= nb) ==> i == nb.Floor + 1
  {
  }

  /** The loads rise from Qmin by equal steps and stay within [Qmin, Qmax]
      up to i = nb_pas, which gives Qmax. */
  lemma LoadsRise(qMin: real, qMax: real, nb: real, i: int, j: int)
    requires nb > 0.0 && qMin <= qMax && 0 <= i <= j
    ensures Load(qMin, qMax, nb, 0) == qMin
    ensures Load(qMin, qMax, nb, i) <= Load(qMin, qMax, nb, j)
    ensures qMin <= Load(qMin, qMax, nb, i)
    ensures (i as real) <= nb ==> Load(qMin, qMax, nb, i) <= qMax
    ensures (i as real) == nb ==> Load(qMin, qMax, nb, i) == qMax
  {
    var d := (qMax - qMin) / nb;
    assert d >= 0.0;
    assert Load(qMin, qMax, nb, i) == qMin + (i as real) * d;
    assert Load(qMin, qMax, nb, j) == qMin + (j as real) * d;
    assert (i as real) * d <= (j as real) * d;
    assert nb * d == qMax - qMin;
    if (i as real) <= nb {
      assert (i as real) * d <= nb * d;
    }
  }

  /** A point of the curve: the head displacement under a head load. */
  type CurvePoint = real -> Result<real, Fault>

  /** The first m points of the settlement curve: the head displacement
      under each load, and the load. */
  function CurveUpTo(point: CurvePoint, qMin: real, qMax: real, nb: real, m: int): Result<(seq<real>, seq<real>), Fault>
    requires nb != 0.0 && m >= 0
    decreases m
  {
    if m == 0 then Success(([], []))
    else
      var prev := CurveUpTo(point, qMin, qMax, nb, m - 1);
      if prev.Failure? then Failure(prev.error)
      else
        var e := point(Load(qMin, qMax, nb, m - 1));
        if e.Failure? then Failure(e.error)
        else Success((prev.value.0 + [e.value], prev.value.1 + [Load(qMin, qMax, nb, m - 1)]))
  }

  /** The load range of `settlement_curve`: Qmax defaults to 0.99 . the
      total resistance (computed first), Qmin to -0.99 . the shaft
      resistance, and Qmin > Qmax raises ValueError. */
  function CurveRange(total: Result<real, Fault>, skin: Result<real, Fault>,
                      qMin: Option<real>, qMax: Option<real>): (r: Result<(real, real), Fault>)
    ensures r.Success? ==> r.value.0 <= r.value.1
    ensures qMin.Some? && qMax.Some? ==>
      (r.Success? <==> qMin.value <= qMax.value) && (r.Success? ==> r.value == (qMin.value, qMax.value))
    ensures qMax.None? && total.Failure? ==> r == Failure(total.error)
    ensures r.Success? && qMax.None? ==> total.Success? && r.value.1 == 0.99 * total.value
    ensures r.Success? && qMin.None? ==> skin.Success? && r.value.0 == -0.99 * skin.value
    ensures r.Success? && qMax.Some? ==> r.value.1 == qMax.value
    ensures r.Success? && qMin.Some? ==> r.value.0 == qMin.value
    ensures r.Failure? && r.error != ValueError ==>
      (qMax.None? && total.Failure? && r.error == total.error) || (qMin.None? && skin.Failure? && r.error == skin.error)
  {
    if qMax.None? && total.Failure? then Failure(total.error)
    else if qMin.None? && skin.Failure? then Failure(skin.error)
    else
      var hi := if qMax.None? then 0.99 * total.value else qMax.value;
      var lo := if qMin.None? then -0.99 * skin.value else qMin.value;
      if lo > hi then Failure(ValueError) else Success((lo, hi))
  }

  /** The points of `settlement_curve` over a load range: one for each
      i = 0, 1, ... with i <= nb_pas; nb_pas = 0 raises ZeroDivisionError
      once the first point is computed. */
  function CurveRun(point: CurvePoint, lo: real, hi: real, nb: real): Result<(seq<real>, seq<real>), Fault> {
    if nb < 0.0 then Success(([], []))
    else if nb == 0.0 then
      var e := point(lo);
      if e.Failure? then Failure(e.error) else Failure(ZeroDivisionError)
    else CurveUpTo(point, lo, hi, nb, nb.Floor + 1)
  }

  /** What `settlement_curve(Qmin, Qmax, nb_pas)` returns, given the
      computation of a point, the total resistance and the shaft
      resistance; nb_pas defaults to 20. */
  function CurveSpec(point: CurvePoint, total: Result<real, Fault>, skin: Result<real, Fault>,
                     qMin: Option<real>, qMax: Option<real>, nbPas: Option<real>): Result<(seq<real>, seq<real>), Fault>
  {
    var range :- CurveRange(total, skin, qMin, qMax);
    CurveRun(point, range.0, range.1, if nbPas.None? then 20.0 else nbPas.value)
  }

  /** An exception at one point of the curve is what the whole curve
      raises. */
  lemma {:induction false} CurveFailurePersists(point: CurvePoint, qMin: real, qMax: real, nb: real, m: int, m': int)
    requires nb != 0.0 && 0 <= m <= m'
    requires CurveUpTo(point, qMin, qMax, nb, m).Failure?
    ensures CurveUpTo(point, qMin, qMax, nb, m') == CurveUpTo(point, qMin, qMax, nb, m)
    decreases m' - m
  {
    if m < m' {
      CurveFailurePersists(point, qMin, qMax, nb, m, m' - 1);
    }
  }

  /** The first m points: two lists of length m, the loads in order, and
      each displacement the one computed under its load. */
  lemma {:induction false} CurvePoints(point: CurvePoint, qMin: real, qMax: real, nb: real, m: int)
    requires nb != 0.0 && m >= 0
    requires CurveUpTo(point, qMin, qMax, nb, m).Success?
    ensures var (dz, loads) := CurveUpTo(point, qMin, qMax, nb, m).value;
      && |dz| == m && |loads| == m
      && forall k :: 0 <= k < m ==>
           && loads[k] == Load(qMin, qMax, nb, k)
           && point(loads[k]) == Success(dz[k])
    decreases m
  {
    if m > 0 {
      CurvePoints(point, qMin, qMax, nb, m - 1);
    }
  }

  /** A curve that returns has floor(nb_pas) + 1 points (none when
      nb_pas < 0), its loads run from Qmin upwards in equal steps within
      [Qmin, Qmax], reaching Qmax when nb_pas is a whole number, and each
      displacement is the one computed under its load. */
  lemma CurveShape(point: CurvePoint, total: Result<real, Fault>, skin: Result<real, Fault>,
                   qMin: Option<real>, qMax: Option<real>, nbPas: Option<real>)
    requires CurveSpec(point, total, skin, qMin, qMax, nbPas).Success?
    ensures CurveRange(total, skin, qMin, qMax).Success?
    ensures var (dz, loads) := CurveSpec(point, total, skin, qMin, qMax, nbPas).value;
      var nb := if nbPas.None? then 20.0 else nbPas.value;
      var (lo, hi) := CurveRange(total, skin, qMin, qMax).value;
      && |dz| == |loads|
      && (nb < 0.0 ==> |loads| == 0)
      && (nb >= 0.0 ==> nb > 0.0 && |loads| == nb.Floor + 1)
      && (forall k :: 0 <= k < |loads| ==> point(loads[k]) == Success(dz[k]))
      && (forall i, j :: 0 <= i <= j < |loads| ==> lo <= loads[i] <= loads[j] <= hi)
      && (|loads| > 0 ==> loads[0] == lo)
      && (|loads| > 0 && nb.Floor as real == nb ==> loads[|loads| - 1] == hi)
  {
    var (lo, hi) := CurveRange(total, skin, qMin, qMax).value;
    var nb := if nbPas.None? then 20.0 else nbPas.value;
    if nb > 0.0 {
      var m := nb.Floor + 1;
      CurvePoints(point, lo, hi, nb, m);
      var loads := CurveUpTo(point, lo, hi, nb, m).value.1;
      forall i, j | 0 <= i <= j < |loads|
        ensures lo <= loads[i] <= loads[j] <= hi
      {
        LoadsRise(lo, hi, nb, i, j);
        LoadsRise(lo, hi, nb, j, j);
      }
      LoadsRise(lo, hi, nb, m - 1, m - 1);
    }
  }

  /** The pile: its data, its lithology (top to bottom), the mesh thickness,
      the two values the pressuremeter log gives (ple* and the effective
      embedment height), the mesh, the slice laws, and the two lists of
      slice objects built from the mesh. */
  class Pile {
    const category: int
    const levelTop: real
    const levelBott: real
    const eb: real
    const dp: real
    const ds: real
    const lithology: seq<Soil>
    const thickness: real
    const pleEtoile: real
    const hEff: real
    const mesh: seq<SliceGeom>
    const laws: seq<Law>
    const slices: seq<SlicePile>
    const slicesTb: seq<SliceTBModel.SliceTB>
    const downLaws: seq<DownLaw>

    /** `data_pile` */
    function Data(): PileData { PileData(category, eb, dp, ds) }

    /** The mesh is `maillage_pieu`'s. */
    predicate Meshed() {
      Mesh(lithology, Data(), thickness, levelTop, levelBott) == Success(mesh)
    }

    /** Each list holds one distinct slice object per slice of the mesh, and
        laws[k] is the law of slice k. */
    ghost predicate Valid() {
      && |slices| == |mesh| && |slicesTb| == |mesh| && |laws| == |mesh| && |downLaws| == |mesh|
      && (forall k :: 0 <= k < |mesh| ==> slices[k].Geom() == mesh[k] && slicesTb[k].Geom() == mesh[k])
      && (forall k {:trigger LawOf(mesh[k])} :: 0 <= k < |mesh| ==> laws[k] == LawOf(mesh[k]))
      && (forall k {:trigger DownLawOf(mesh[k])} :: 0 <= k < |mesh| ==> downLaws[k] == DownLawOf(mesh[k]))
      && (forall i, j :: 0 <= i < j < |slices| ==> slices[i] != slices[j])
      && (forall i, j :: 0 <= i < j < |slicesTb| ==> slicesTb[i] != slicesTb[j])
    }

    constructor Init(category: int, levelTop: real, levelBott: real, eb: real, dp: real, ds: real,
                     lithology: seq<Soil>, thickness: real, pleEtoile: real, hEff: real,
                     mesh: seq<SliceGeom>, slices: seq<SlicePile>, slicesTb: seq<SliceTBModel.SliceTB>)
      ensures this.category == category && this.levelTop == levelTop && this.levelBott == levelBott
      ensures this.eb == eb && this.dp == dp && this.ds == ds && this.lithology == lithology
      ensures this.thickness == thickness && this.pleEtoile == pleEtoile && this.hEff == hEff
      ensures this.mesh == mesh && this.slices == slices && this.slicesTb == slicesTb
      ensures |laws| == |mesh| && forall k :: 0 <= k < |mesh| ==> laws[k] == LawOf(mesh[k])
      ensures |downLaws| == |mesh| && forall k :: 0 <= k < |mesh| ==> downLaws[k] == DownLawOf(mesh[k])
    {
      this.category := category;
      this.levelTop := levelTop;
      this.levelBott := levelBott;
      this.eb := eb;
      this.dp := dp;
      this.ds := ds;
      this.lithology := lithology;
      this.thickness := thickness;
      this.pleEtoile := pleEtoile;
      this.hEff := hEff;
      this.mesh := mesh;
      this.laws := seq(|mesh|, k requires 0 <= k < |mesh| => LawOf(mesh[k]));
      this.downLaws := seq(|mesh|, k requires 0 <= k < |mesh| => DownLawOf(mesh[k]));
      this.slices := slices;
      this.slicesTb := slicesTb;
    }

    /** The dataclass constructor with `__post_init__`: meshes the pile and
        builds both slice lists; an exception of the meshing is raised. */
    static method Create(category: int, levelTop: real, levelBott: real, eb: real, dp: real, ds: real,
                         lithology: seq<Soil>, pleEtoile: real, hEff: real, thickness: real := 0.20)
      returns (r: Result<Pile, Fault>)
      ensures var m := Mesh(lithology, PileData(category, eb, dp, ds), thickness, levelTop, levelBott);
        && (m.Failure? ==> r == Failure(m.error))
        && (m.Success? ==> r.Success? && fresh(r.value) && r.value.Valid() && r.value.Meshed() && r.value.mesh == m.value)
      ensures r.Success? ==>
        && r.value.category == category && r.value.levelTop == levelTop && r.value.levelBott == levelBott
        && r.value.eb == eb && r.value.dp == dp && r.value.ds == ds && r.value.lithology == lithology
        && r.value.thickness == thickness && r.value.pleEtoile == pleEtoile && r.value.hEff == hEff
    {
      var data := PileData(category, eb, dp, ds);
      var m := MaillagePieu(lithology, data, thickness, levelTop, levelBott);
      if m.Failure? {
        return Failure(m.error);
      }
      var slices := MakeSlices(m.value);
      var slicesTb := MakeSlicesTb(m.value);
      var p := new Pile.Init(category, levelTop, levelBott, eb, dp, ds, lithology, thickness, pleEtoile, hEff, m.value, slices, slicesTb);
      return Success(p);
    }

    /** The `SlicePile` objects `create_slices` builds, one per slice of the
        mesh. */
    static method MakeSlices(mesh: seq<SliceGeom>) returns (r: seq<SlicePile>)
      ensures |r| == |mesh|
      ensures forall k :: 0 <= k < |r| ==> fresh(r[k]) && r[k].Geom() == mesh[k]
      ensures forall i, j :: 0 <= i < j < |r| ==> r[i] != r[j]
    {
      r := [];
      for k := 0 to |mesh|
        invariant |r| == k
        invariant forall j :: 0 <= j < k ==> fresh(r[j]) && r[j].Geom() == mesh[j]
        invariant forall i, j :: 0 <= i < j < k ==> r[i] != r[j]
      {
        var s := new SlicePile(mesh[k].zTop, mesh[k].deltaH, mesh[k].soil, mesh[k].data);
        r := r + [s];
      }
    }

    /** `make_slices_tb`: one `SliceTB` per slice of the mesh, with the same
        four attributes. */
    static method MakeSlicesTb(mesh: seq<SliceGeom>) returns (r: seq<SliceTBModel.SliceTB>)
      ensures |r| == |mesh|
      ensures forall k :: 0 <= k < |r| ==> fresh(r[k]) && r[k].Geom() == mesh[k]
      ensures forall i, j :: 0 <= i < j < |r| ==> r[i] != r[j]
    {
      r := [];
      for k := 0 to |mesh|
        invariant |r| == k
        invariant forall j :: 0 <= j < k ==> fresh(r[j]) && r[j].Geom() == mesh[j]
        invariant forall i, j :: 0 <= i < j < k ==> r[i] != r[j]
      {
        var s := new SliceTBModel.SliceTB(mesh[k].zTop, mesh[k].deltaH, mesh[k].soil, mesh[k].data);
        r := r + [s];
      }
    }

    /** `height_pile` */
    function HeightPile(): real { levelTop - levelBott }

    /** `section_pointe` */
    function SectionPointe(): real { Pi * dp * dp / 4.0 }

    /** `kp_util` */
    function KpUtil(): Result<real, Fault> { KpUtilValue(lithology, levelBott, category, ds, hEff) }

    /** `resistance_pointe`: R_b = section . kp_util . ple*. */
    function ResistancePointe(): Result<real, Fault> {
      var kp := KpUtil();
      if kp.Failure? then Failure(kp.error) else Success(SectionPointe() * kp.value * pleEtoile)
    }

    /** `resistance_skin_friction`: a loop accumulating each slice's term. */
    method ResistanceSkinFriction() returns (r: Result<real, Fault>)
      requires Valid()
      ensures r == SkinResistance(mesh)
    {
      ghost var terms := SkinTerms(mesh);
      var rsAcc := 0.0;
      for k := 0 to |slices|
        invariant SumUpTo(terms, k) == Success(rsAcc)
      {
        var term := SkinTerm(slices[k].Geom());
        assert terms[k] == term;
        if term.Failure? {
          SumFailurePersists(terms, k + 1, |mesh|);
          return Failure(term.error);
        }
        var rsNext := rsAcc + term.value;
        SumStep(terms, k, rsAcc, term.value, rsNext);
        rsAcc := rsNext;
      }
      return Success(rsAcc);
    }

    /** What `resistance_totale` returns: the tip resistance (computed
        first) plus the shaft resistance, or the first exception. */
    function TotalResistance(): Result<real, Fault> {
      var rb := ResistancePointe();
      if rb.Failure? then Failure(rb.error)
      else
        var rs := SkinResistance(mesh);
        if rs.Failure? then Failure(rs.error) else Success(rb.value + rs.value)
    }

    /** When every slice has Ds >= 0, delta_h >= 0 and a non-negative
        qs_lim, the shaft adds no exception and no negative part: R is
        computed exactly when R_b is, and R >= R_b. */
    lemma TotalResistanceAtLeastTip()
      requires forall k :: 0 <= k < |mesh| ==>
        mesh[k].data.ds >= 0.0 && mesh[k].deltaH >= 0.0 &&
        mesh[k].QsLim().Success? && mesh[k].QsLim().value >= 0.0
      ensures TotalResistance().Success? <==> ResistancePointe().Success?
      ensures TotalResistance().Success? ==> TotalResistance().value >= ResistancePointe().value
    {
      SkinResistanceNonNegative(mesh);
    }

    /** `resistance_totale`: R_b + R_s, R_b computed first. */
    method ResistanceTotale() returns (r: Result<real, Fault>)
      requires Valid()
      ensures r == TotalResistance()
    {
      var rb := ResistancePointe();
      if rb.Failure? {
        return Failure(rb.error);
      }
      var rs := ResistanceSkinFriction();
      if rs.Failure? {
        return Failure(rs.error);
      }
      return Success(rb.value + rs.value);
    }

    /** qb = kp_util . ple*, the unit end bearing pressure. */
    function Qb(kp: real): real { kp * pleEtoile }

    /** The load entering the lowest slice from the tip for a tip
        displacement: qb is computed first, then the last slice (IndexError
        when the mesh is empty) gives its tip load. */
    function TipStart(dzPointe: real): Result<real, Fault> {
      var kp := KpUtil();
      if kp.Failure? then Failure(kp.error)
      else if |mesh| == 0 then Failure(IndexError)
      else TipLoad(mesh[|mesh| - 1], Qb(kp.value), dzPointe)
    }

    /** What `equilibre_dz_pointe(dz_pointe)` returns: the tip load chained
        up through every slice, as (Q_head, dz_pointe, dz_head). */
    function DzPointeSpec(dzPointe: real): Result<(real, real, real), Fault> {
      var q1 := TipStart(dzPointe);
      if q1.Failure? then Failure(q1.error)
      else
        var head := ChainFrom(laws, 0, q1.value, dzPointe);
        if head.Failure? then Failure(head.error) else Success((head.value.0, dzPointe, head.value.1))
    }

    /** Every slice from k on holds the face the chaining from (q0, dz0)
        gave it and the root solved from that face. */
    ghost predicate StoredFrom(k: int, q0: real, dz0: real)
      requires Valid() && 0 <= k <= |mesh|
      reads slices[k..]
      decreases |mesh| - k
    {
      k == |mesh| || (StoredAt(k, q0, dz0) && StoredFrom(k + 1, q0, dz0))
    }

    /** Slice k holds the face the chaining from (q0, dz0) gave it and the
        root solved from that face. */
    ghost predicate StoredAt(k: int, q0: real, dz0: real)
      requires Valid() && 0 <= k < |mesh|
      reads slices[k]
    {
      ChainFrom(laws, k + 1, q0, dz0).Success? && Stored(slices[k], laws[k], ChainFrom(laws, k + 1, q0, dz0).value)
    }

    /** Slice k of the loop of `equilibre_dz_pointe`, solved from its
        bottom face. */
    method SolveSliceAt(k: int, q: real, dz: real) returns (r: Result<(real, real), Fault>)
      requires Valid() && 0 <= k < |slices|
      modifies slices[k]
      ensures r == Step(laws[k], q, dz)
      ensures r.Success? ==> Stored(slices[k], laws[k], (q, dz))
    {
      assert laws[k] == LawOf(slices[k].Geom()) by {
        assert LawOf(mesh[k]) == LawOf(slices[k].Geom());
      }
      r := SolveSlice(slices[k], laws[k], q, dz);
    }

    /** One turn of the loop of `equilibre_dz_pointe`: slice lo gets the
        face the slices below it passed up, and passes its own top face on;
        the slices below keep what they stored. */
    method StepSlice(lo: int, q0: real, dz0: real, face: (real, real)) returns (r: Result<(real, real), Fault>)
      requires Valid() && 0 <= lo < |slices|
      requires ChainFrom(laws, lo + 1, q0, dz0) == Success(face)
      requires StoredFrom(lo + 1, q0, dz0)
      modifies slices[lo]
      ensures r == ChainFrom(laws, lo, q0, dz0)
      ensures r.Success? ==> StoredFrom(lo, q0, dz0)
    {
      r := SolveSliceAt(lo, face.0, face.1);
      ChainStep(laws, lo, q0, dz0, face, r);
    }

    /** The loop of `equilibre_dz_pointe` from a tip face (q0, dz0): the
        slices bottom to top, each storing its bottom face and solving. */
    method ChainSlices(q0: real, dz0: real) returns (r: Result<(real, real), Fault>)
      requires Valid()
      modifies slices
      ensures r == ChainFrom(laws, 0, q0, dz0)
      ensures r.Success? ==> StoredFrom(0, q0, dz0)
    {
      var face := (q0, dz0);
      var i := |slices|;
      while i > 0
        invariant 0 <= i <= |slices|
        invariant ChainFrom(laws, i, q0, dz0) == Success(face)
        invariant StoredFrom(i, q0, dz0)
      {
        var lo := i - 1;
        var e := StepSlice(lo, q0, dz0, face);
        if e.Failure? {
          ChainFailurePersists(laws, lo, 0, q0, dz0);
          return e;
        }
        face := e.value;
        i := lo;
      }
      return Success(face);
    }

    /** `equilibre_dz_pointe`: qb and the tip load first, then the slices
        bottom to top. On success every slice holds the face given to it and
        the root solved from it. */
    method EquilibreDzPointe(dzPointe: real) returns (r: Result<(real, real, real), Fault>)
      requires Valid()
      modifies slices
      ensures r == DzPointeSpec(dzPointe)
      ensures r.Success? ==> TipStart(dzPointe).Success? && StoredFrom(0, TipStart(dzPointe).value, dzPointe)
    {
      var kp := KpUtil();
      if kp.Failure? {
        return Failure(kp.error);
      }
      var qb := Qb(kp.value);
      if |slices| == 0 {
        return Failure(IndexError);
      }
      var tip := TipLoad(slices[|slices| - 1].Geom(), qb, dzPointe);
      if tip.Failure? {
        return Failure(tip.error);
      }
      assert TipStart(dzPointe) == tip;
      var head := ChainSlices(tip.value, dzPointe);
      if head.Failure? {
        return Failure(head.error);
      }
      return Success((head.value.0, dzPointe, head.value.1));
    }
  
    /** `fonction_effort_en_tete`: the head load `equilibre_dz_pointe`
        returns for a tip displacement. */
    function HeadLoad(dzPointe: real): Result<real, Fault> {
      var e := DzPointeSpec(dzPointe);
      if e.Failure? then Failure(e.error) else Success(e.value.0)
    }

    /** `self.fonction_effort_en_tete` as the function the solver calls. */
    function HeadLoadFn(): Solver.Target {
      (w: real) => HeadLoad(w)
    }

    /** The solve of `equilibre_Q_top`: the tip displacement whose head load
        is q_top, from the default guess 0. */
    function HeadSolve(qTop: real): Result<Solver.SolverResult, Fault> {
      Solver.Newton(HeadLoadFn(), [qTop], [0.0])
    }

    /** What `equilibre_Q_top(q_top)` returns. `dz_pointe == [0.]` holds
        for the sentinel list, and also, through numpy's element-wise
        comparison, for a root that is exactly 0.0: both give None.
        Otherwise the pile is brought to equilibrium at the root. */
    function QTopSpec(qTop: real): Result<Option<(real, real, real)>, Fault> {
      var solve := HeadSolve(qTop);
      if solve.Failure? then Failure(solve.error)
      else match solve.value.finalRoot
        case ZeroList => Success(None)
        case Num(x) =>
          if x == 0.0 then Success(None)
          else
            var e := DzPointeSpec(x);
            if e.Failure? then Failure(e.error) else Success(Some(e.value))
    }

    /** `equilibre_Q_top`: solves for the tip displacement that gives the
        head load q_top, then, unless the solve returned the sentinel (or
        0.0), brings the slices to equilibrium there. */
    method EquilibreQTop(qTop: real) returns (r: Result<Option<(real, real, real)>, Fault>)
      requires Valid()
      modifies slices
      ensures r == QTopSpec(qTop)
      ensures r.Success? && r.value.Some? ==>
        var dz := r.value.value.1;
        TipStart(dz).Success? && StoredFrom(0, TipStart(dz).value, dz)
    {
      var created := Solver.NewtonRaphson11.Create(HeadLoadFn(), [qTop]);
      if created.Failure? {
        return Failure(created.error);
      }
      var dzPointe := created.value.FinalRoots();
      assert HeadSolve(qTop) == Success(created.value.result);
      if dzPointe == Solver.ZeroList || dzPointe == Solver.Num(0.0) {
        return Success(None);
      }
      var e := EquilibreDzPointe(dzPointe.x);
      if e.Failure? {
        return Failure(e.error);
      }
      return Success(Some(e.value));
    }

    /** `equilibre_Q_top` returns None exactly when the solve did not
        converge or converged to a root of exactly 0. */
    lemma QTopNone(qTop: real)
      requires HeadSolve(qTop).Success?
      ensures QTopSpec(qTop) == Success(None) <==>
        !HeadSolve(qTop).value.converged || HeadSolve(qTop).value.finalRoot == Solver.Num(0.0)
    {
      Solver.NewtonShape(HeadLoadFn(), [qTop], [0.0]);
    }

    /** A returned equilibrium is at a converged root: one Newton step past
        a tip displacement whose head load met the solver's tolerance around
        q_top; its head load is the one `equilibre_dz_pointe` gives there. */
    lemma QTopSome(qTop: real)
      requires QTopSpec(qTop).Success? && QTopSpec(qTop).value.Some?
      ensures HeadSolve(qTop).Success? && HeadSolve(qTop).value.converged
      ensures exists y :: Solver.ConvergedAt(HeadLoadFn(), qTop, Tolerance.Value([qTop]), y, HeadSolve(qTop).value)
      ensures var (qHead, dz, dzHead) := QTopSpec(qTop).value.value;
        HeadSolve(qTop).value.finalRoot == Solver.Num(dz) && HeadLoad(dz) == Success(qHead)
    {
      Solver.NewtonShape(HeadLoadFn(), [qTop], [0.0]);
    }
    /** kq at the tip: `module_kq(Dp)` of the layer holding the base level;
        no layer there raises AttributeError. */
    function KqTip(): Result<Option<real>, Fault> {
      var soil := SoilAt(lithology, levelBott);
      if soil.None? then Failure(AttributeError) else ModuleKq(soil.value, dp)
    }

    /** The default force tolerance `1e-5 . max(1, |Q_head|)`, or the one given. */
    function TolQ(qHead: real, tolQ: Option<real>): (t: real)
      ensures tolQ.None? ==> t > 0.0
    {
      if tolQ.None? then 0.00001 * Max(1.0, Abs(qHead)) else tolQ.value
    }

    /** What `equilibre_top_down_Qtete` returns: the head displacement the
        search finds for the residual, then the base face the propagation
        reaches from it. */
    function TopDownSpec(qHead: real, wHeadGuess: real, wHeadMax: real, nBracket: int, nBisect: int, tolQ: Option<real>): Result<(real, (real, real)), Fault> {
      var tol := TolQ(qHead, tolQ);
      var kp := KpUtil();
      if kp.Failure? then Failure(kp.error)
      else
        var kq := KqTip();
        if kq.Failure? then Failure(kq.error)
        else
          var traction := qHead < 0.0;
          var iv := ShootingSearch.Interval(traction, wHeadMax);
          var res := ResiduFn(downLaws, SectionPointe(), traction, Qb(kp.value), kq.value, qHead);
          var w := ShootingSearch.SearchSpec(res, tol, iv.0, iv.1, wHeadGuess, nBracket, nBisect);
          if w.Failure? then Failure(w.error)
          else
            var base := DownTo(downLaws, |downLaws|, qHead, w.value);
            if base.Failure? then Failure(base.error) else Success((w.value, base.value))
    }

    /** Slices 0 .. k - 1 hold the state `propagate` stored when the head
        face (qHead, wHead) was propagated down to them. */
    ghost predicate StoredDown(k: int, qHead: real, wHead: real)
      requires Valid() && 0 <= k <= |mesh|
      reads set j | 0 <= j < k :: slicesTb[j]
      decreases k
    {
      k == 0 || (StoredDown(k - 1, qHead, wHead) && StoredDownAt(k - 1, qHead, wHead))
    }

    ghost predicate StoredDownAt(k: int, qHead: real, wHead: real)
      requires Valid() && 0 <= k < |mesh|
      reads slicesTb[k]
    {
      var above := DownTo(downLaws, k, qHead, wHead);
      && above.Success?
      && DownCross(downLaws[k], above.value).Success?
      && slicesTb[k].State() == DownCross(downLaws[k], above.value).value
    }

    /** A slice of a stored prefix holds its own state. */
    lemma {:induction false} StoredDownHolds(n: int, k: int, qHead: real, wHead: real)
      requires Valid() && 0 <= k < n <= |mesh|
      requires StoredDown(n, qHead, wHead)
      ensures StoredDownAt(k, qHead, wHead)
      decreases n
    {
      if k < n - 1 {
        StoredDownHolds(n - 1, k, qHead, wHead);
      }
    }

    /** After a propagation each `SliceTB` holds the state of its crossing:
        its top face is the face the slice above passed down, its bottom
        face is the one it passed on, and its seven values keep the face
        relations of `propagate`. */
    lemma StoredDownRelations(k: int, qHead: real, wHead: real)
      requires Valid() && 0 <= k < |mesh|
      requires StoredDown(|mesh|, qHead, wHead)
      ensures DownTo(downLaws, k, qHead, wHead).Success? && DownTo(downLaws, k + 1, qHead, wHead).Success?
      ensures var st := slicesTb[k].State();
        && (st.qTop, st.dzTop) == DownTo(downLaws, k, qHead, wHead).value
        && (st.qBott, st.dzBott) == DownTo(downLaws, k + 1, qHead, wHead).value
        && SliceTBModel.FaceRelations(SliceTBModel.MechOf(mesh[k]), mesh[k].TauFn(), SliceTBModel.TopToBottom, st.qTop, st.dzTop, st)
    {
      StoredDownHolds(|mesh|, k, qHead, wHead);
      var above := DownTo(downLaws, k, qHead, wHead).value;
      assert downLaws[k] == DownLawOf(mesh[k]);
      DownRelations(mesh[k], above);
    }

    /** Slice k of `propagate_top_down`. */
    method PropagateSliceDown(k: int, qHead: real, wHead: real, face: (real, real)) returns (r: Result<(real, real), Fault>)
      requires Valid() && 0 <= k < |mesh|
      requires DownTo(downLaws, k, qHead, wHead) == Success(face)
      requires StoredDown(k, qHead, wHead)
      modifies slicesTb[k]
      ensures r == DownTo(downLaws, k + 1, qHead, wHead)
      ensures r.Success? ==> StoredDown(k + 1, qHead, wHead)
    {
      assert downLaws[k] == DownLawOf(slicesTb[k].Geom()) by {
        assert downLaws[k] == DownLawOf(mesh[k]);
      }
      DownStepIsPropagate(slicesTb[k].Geom(), face);
      r := slicesTb[k].Propagate("top_to_bottom", face.0, face.1);
      DownStepNext(downLaws, k, qHead, wHead, face, r);
    }

    /** `propagate_top_down(w_head)`: (Q, w) from the head through every
        `SliceTB`, top to bottom; each slice keeps the state it was left in. */
    method PropagateTopDown(qHead: real, wHead: real) returns (r: Result<(real, real), Fault>)
      requires Valid()
      modifies slicesTb
      ensures r == DownTo(downLaws, |downLaws|, qHead, wHead)
      ensures r.Success? ==> StoredDown(|mesh|, qHead, wHead)
    {
      var face := (qHead, wHead);
      for k := 0 to |slicesTb|
        invariant DownTo(downLaws, k, qHead, wHead) == Success(face)
        invariant StoredDown(k, qHead, wHead)
      {
        var e := PropagateSliceDown(k, qHead, wHead, face);
        if e.Failure? {
          DownFailurePersists(downLaws, k + 1, |downLaws|, qHead, wHead);
          return e;
        }
        face := e.value;
      }
      return Success(face);
    }

    /** `equilibre_top_down_Qtete(Q_head, ...)`: the shooting search on the
        head displacement, then the propagation from the displacement found,
        which leaves every `SliceTB` in its state for that displacement. */
    method EquilibreTopDownQTete(qHead: real, wHeadGuess: real := 0.0, wHeadMax: real := 0.20,
                                 nBracket: int := 40, nBisect: int := 70, tolQ: Option<real> := None)
      returns (r: Result<(real, (real, real)), Fault>)
      requires Valid()
      modifies slicesTb
      ensures r == TopDownSpec(qHead, wHeadGuess, wHeadMax, nBracket, nBisect, tolQ)
      ensures r.Success? ==> StoredDown(|mesh|, qHead, r.value.0)
    {
      var tol := TolQ(qHead, tolQ);
      var kp := KpUtil();
      if kp.Failure? {
        return Failure(kp.error);
      }
      var qb := Qb(kp.value);
      var ab := SectionPointe();
      var kq := KqTip();
      if kq.Failure? {
        return Failure(kq.error);
      }
      var traction := qHead < 0.0;
      var iv := ShootingSearch.Interval(traction, wHeadMax);
      var w := ShootingSearch.Search(ResiduFn(downLaws, ab, traction, qb, kq.value, qHead), tol, iv.0, iv.1, wHeadGuess, nBracket, nBisect);
      if w.Failure? {
        return Failure(w.error);
      }
      var base := PropagateTopDown(qHead, w.value);
      if base.Failure? {
        return Failure(base.error);
      }
      return Success((w.value, base.value));
    }

    /** The head displacement found lies on the side of the load: in
        [-|w_max|, 0] when Q_head pulls and in [0, |w_max|] otherwise; and
        with a non-negative tolerance it is a displacement whose residual is
        within tolerance, or the best point of a scan that found no sign
        change, or the midpoint of a bisected bracket. The base face is the
        propagation's from it. */
    lemma TopDownOutcome(qHead: real, wHeadGuess: real, wHeadMax: real, nBracket: int, nBisect: int, tolQ: Option<real>)
      requires TopDownSpec(qHead, wHeadGuess, wHeadMax, nBracket, nBisect, tolQ).Success?
      ensures var (w, base) := TopDownSpec(qHead, wHeadGuess, wHeadMax, nBracket, nBisect, tolQ).value;
        && (qHead < 0.0 ==> -Abs(wHeadMax) <= w <= 0.0)
        && (qHead >= 0.0 ==> 0.0 <= w <= Abs(wHeadMax))
        && DownTo(downLaws, |downLaws|, qHead, w) == Success(base)
      ensures KpUtil().Success? && KqTip().Success?
      ensures var (w, base) := TopDownSpec(qHead, wHeadGuess, wHeadMax, nBracket, nBisect, tolQ).value;
        var traction := qHead < 0.0;
        var iv := ShootingSearch.Interval(traction, wHeadMax);
        var res := ResiduFn(downLaws, SectionPointe(), traction, Qb(KpUtil().value), KqTip().value, qHead);
        var tol := TolQ(qHead, tolQ);
        tol >= 0.0 ==>
          || (res(w).Success? && Abs(res(w).value) <= tol)
          || ShootingSearch.ScanBest(res, ShootingSearch.Clamp(wHeadGuess, iv.0, iv.1), iv.0, iv.1, nBracket, w)
          || ShootingSearch.Bisected(res, iv.0, iv.1, nBisect, w)
    {
      var traction := qHead < 0.0;
      var iv := ShootingSearch.Interval(traction, wHeadMax);
      var res := ResiduFn(downLaws, SectionPointe(), traction, Qb(KpUtil().value), KqTip().value, qHead);
      var tol := TolQ(qHead, tolQ);
      ShootingSearch.SearchInInterval(res, tol, iv.0, iv.1, wHeadGuess, nBracket, nBisect);
      if tol >= 0.0 {
        ShootingSearch.SearchOutcome(res, tol, iv.0, iv.1, wHeadGuess, nBracket, nBisect);
      }
    }
    /** A point of the settlement curve: the head displacement of the
        top-down equilibrium under a head load, with its default search
        settings. */
    function HeadPoint(q: real): Result<real, Fault>
    {
      var e := TopDownSpec(q, 0.0, 0.20, 40, 70, None);
      if e.Failure? then Failure(e.error) else Success(e.value.0)
    }

    function HeadSettlement(): CurvePoint {
      (q: real) => HeadPoint(q)
    }

    /** `point` computes the points of this pile's settlement curve. */
    ghost predicate PointsOf(point: CurvePoint) {
      forall q {:trigger HeadPoint(q)} :: point(q) == HeadPoint(q)
    }

    /** What `settlement_curve(Qmin, Qmax, nb_pas)` returns. */
    function SettlementSpec(qMin: Option<real>, qMax: Option<real>, nbPas: Option<real>): Result<(seq<real>, seq<real>), Fault> {
      CurveSpec(HeadSettlement(), TotalResistance(), SkinResistance(mesh), qMin, qMax, nbPas)
    }

    /** The settlement curve's displacements are the top-down equilibrium's
        head displacements under its loads, and its loads have the shape
        `CurveShape` states. */
    lemma SettlementPoints(qMin: Option<real>, qMax: Option<real>, nbPas: Option<real>)
      requires SettlementSpec(qMin, qMax, nbPas).Success?
      ensures var (dz, loads) := SettlementSpec(qMin, qMax, nbPas).value;
        && |dz| == |loads|
        && forall k :: 0 <= k < |loads| ==>
             && TopDownSpec(loads[k], 0.0, 0.20, 40, 70, None).Success?
             && dz[k] == TopDownSpec(loads[k], 0.0, 0.20, 40, 70, None).value.0
    {
      CurveShape(HeadSettlement(), TotalResistance(), SkinResistance(mesh), qMin, qMax, nbPas);
    }

    /** The slices hold the top-down propagation of the last point of a
        curve: its load at the head and its head displacement. */
    ghost predicate LastPointStored(dz: seq<real>, loads: seq<real>)
      requires Valid()
      reads set j | 0 <= j < |mesh| :: slicesTb[j]
    {
      |dz| == |loads| && (|dz| > 0 ==> StoredDown(|mesh|, loads[|loads| - 1], dz[|dz| - 1]))
    }

    /** One point of the curve: the top-down equilibrium under qi, which
        leaves the slices in the state of the point appended to the curve
        computed so far. */
    method SettlementPoint(ghost point: CurvePoint, qi: real, ghost dzAcc: seq<real>, ghost effortAcc: seq<real>)
      returns (e: Result<real, Fault>)
      requires Valid() && PointsOf(point) && |dzAcc| == |effortAcc|
      modifies slicesTb
      ensures e == point(qi)
      ensures e.Success? ==> StoredDown(|mesh|, qi, e.value)
      ensures e.Success? ==> LastPointStored(dzAcc + [e.value], effortAcc + [qi])
    {
      assert point(qi) == HeadPoint(qi);
      var equilibre := EquilibreTopDownQTete(qi);
      if equilibre.Failure? {
        return Failure(equilibre.error);
      }
      return Success(equilibre.value.0);
    }

    /** The load range `settlement_curve` computes first. */
    method SettlementRange(qMin: Option<real>, qMax: Option<real>) returns (r: Result<(real, real), Fault>)
      requires Valid()
      ensures r == CurveRange(TotalResistance(), SkinResistance(mesh), qMin, qMax)
    {
      var hi: real;
      if qMax.None? {
        var tot := ResistanceTotale();
        if tot.Failure? {
          return Failure(tot.error);
        }
        hi := 0.99 * tot.value;
      } else {
        hi := qMax.value;
      }
      var lo: real;
      if qMin.None? {
        var rs := ResistanceSkinFriction();
        if rs.Failure? {
          return Failure(rs.error);
        }
        lo := -0.99 * rs.value;
      } else {
        lo := qMin.value;
      }
      if lo > hi {
        return Failure(ValueError);
      }
      return Success((lo, hi));
    }

    /** The loop of `settlement_curve`: one top-down equilibrium per load,
        each leaving the `SliceTB` objects in its state, so that after the
        sweep they hold the last point's propagation. The source's
        `== None` test never holds (the equilibrium returns a tuple), so
        every computed point is kept. */
    method SettlementRun(ghost point: CurvePoint, lo: real, hi: real, nb: real) returns (r: Result<(seq<real>, seq<real>), Fault>)
      requires Valid() && PointsOf(point)
      modifies slicesTb
      ensures r == CurveRun(point, lo, hi, nb)
      ensures r.Success? ==> LastPointStored(r.value.0, r.value.1)
    {
      var qi := lo;
      var dzAcc: seq<real> := [];
      var effortAcc: seq<real> := [];
      var i := 0;
      while (i as real) <= nb
        invariant 0 <= i && (i == 0 || nb > 0.0)
        invariant i > 0 ==> ((i - 1) as real) <= nb && i <= nb.Floor + 1 && (!((i as real) <= nb) ==> i == nb.Floor + 1)
        invariant i == 0 ==> qi == lo
        invariant nb != 0.0 ==> qi == Load(lo, hi, nb, i)
        invariant nb != 0.0 ==> CurveUpTo(point, lo, hi, nb, i) == Success((dzAcc, effortAcc))
        invariant LastPointStored(dzAcc, effortAcc)
        decreases nb.Floor + 1 - i
      {
        var e := SettlementPoint(point, qi, dzAcc, effortAcc);
        if e.Failure? {
          if nb != 0.0 {
            CurveFailurePersists(point, lo, hi, nb, i + 1, nb.Floor + 1);
          }
          return Failure(e.error);
        }
        dzAcc := dzAcc + [e.value];
        effortAcc := effortAcc + [qi];
        i := i + 1;
        if nb == 0.0 {
          return Failure(ZeroDivisionError);
        }
        qi := Load(lo, hi, nb, i);
        FloorCount(nb, i);
      }
      return Success((dzAcc, effortAcc));
    }

    /** `settlement_curve(Qmin, Qmax, nb_pas)`. */
    method SettlementCurve(qMin: Option<real> := None, qMax: Option<real> := None, nbPas: Option<real> := None)
      returns (r: Result<(seq<real>, seq<real>), Fault>)
      requires Valid()
      modifies slicesTb
      ensures r == SettlementSpec(qMin, qMax, nbPas)
      ensures r.Success? ==> LastPointStored(r.value.0, r.value.1)
    {
      var range := SettlementRange(qMin, qMax);
      if range.Failure? {
        return Failure(range.error);
      }
      assert PointsOf(HeadSettlement());
      r := SettlementRun(HeadSettlement(), range.value.0, range.value.1, if nbPas.None? then 20.0 else nbPas.value);
    }
  }
}
