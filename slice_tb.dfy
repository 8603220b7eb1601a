/** The slice used by the top-down search (geotech_module/slice_tb.py): it
    carries (Q, w) from one face to the other through the midpoint of the
    slice, where the friction is mobilised, and keeps the seven values of
    the last crossing. The crossing is written over the three numbers it
    uses (dh, EA, half) and the friction law as a function, so that its
    algebra does not depend on the soil tables. */
module SliceTBModel {
  import opened Common
  import opened SliceLaws
  import Solver

  datatype Direction = BottomToTop | TopToBottom

  /** `direction`: the two accepted spellings. */
  function DirectionOf(direction: string): Option<Direction>
  {
    if direction == "bottom_to_top" then Some(BottomToTop)
    else if direction == "top_to_bottom" then Some(TopToBottom)
    else None
  }

  /** The numbers a crossing reads: dh, EA = Eb . A and half = 0.5 . P . dh. */
  datatype Mech = Mech(dh: real, ea: real, half: real)

  function MechOf(g: SliceGeom): Mech {
    Mech(g.deltaH, g.EA(), 0.5 * g.Perimeter() * g.deltaH)
  }

  /** The midpoint equation `F(wm)` for the input face (qIn, wIn):
      bottom_to_top: wb + dh/(2EA) . (Qb + half . tau(wm)) - wm;
      top_to_bottom: wt - dh/(2EA) . (Qt - half . tau(wm)) - wm.
      `dh / (2 * EA)` is evaluated before tau. */
  function ResidualAt(m: Mech, tau: Solver.Target, dir: Direction, qIn: real, wIn: real, wm: real): (r: Result<real, Fault>)
    ensures m.ea == 0.0 ==> r == Failure(ZeroDivisionError)
    ensures m.ea != 0.0 && tau(wm).Failure? ==> r == Failure(tau(wm).error)
  {
    if 2.0 * m.ea == 0.0 then Failure(ZeroDivisionError)
    else
      var t :- tau(wm);
      Success(MidResidual(m, dir, qIn, wIn, t, wm))
  }

  /** The residual once the friction t at wm is known. */
  function MidResidual(m: Mech, dir: Direction, qIn: real, wIn: real, t: real, wm: real): real
    requires m.ea != 0.0
  {
    var c := m.dh / (2.0 * m.ea);
    match dir
    case BottomToTop => wIn + c * (qIn + m.half * t) - wm
    case TopToBottom => wIn - c * (qIn - m.half * t) - wm
  }

  /** The closure `F` handed to the solver. */
  function Residual(m: Mech, tau: Solver.Target, dir: Direction, qIn: real, wIn: real): Solver.Target {
    (wm: real) => ResidualAt(m, tau, dir, qIn, wIn, wm)
  }

  /** The seven stored values. */
  datatype FaceState = FaceState(qTop: real, qBott: real, qMiddle: real, dzTop: real, dzBott: real, dzMiddle: real, qs: real)

  /** The state written once the midpoint wm and its friction t are known:
      the input face is stored as given, the midpoint force is
      Qm = Qin +/- half . t and the output face is one more half step. */
  function CrossSlice(m: Mech, dir: Direction, qIn: real, wIn: real, wm: real, t: real): (s: FaceState)
    requires m.ea != 0.0
    ensures s.qTop - s.qBott == 2.0 * m.half * t
    ensures s.dzTop - s.dzBott == (m.dh / m.ea) * s.qMiddle
    ensures s.qMiddle == (s.qTop + s.qBott) / 2.0
    ensures s.dzMiddle == wm && s.qs == t
    ensures dir == BottomToTop ==> s.qBott == qIn && s.dzBott == wIn
    ensures dir == TopToBottom ==> s.qTop == qIn && s.dzTop == wIn
  {
    var k := m.dh / m.ea;
    match dir
    case BottomToTop =>
      var qm := qIn + m.half * t;
      FaceState(qm + m.half * t, qIn, qm, wIn + k * qm, wIn, wm, t)
    case TopToBottom =>
      var qm := qIn - m.half * t;
      FaceState(qIn, qm - m.half * t, qm, wIn, wIn - k * qm, wm, t)
  }

  /** The face `propagate` returns: the top face going up, the bottom face
      going down. */
  function OutputFace(s: FaceState, dir: Direction): (real, real) {
    match dir
    case BottomToTop => (s.qTop, s.dzTop)
    case TopToBottom => (s.qBott, s.dzBott)
  }

  /** What follows the solve: apply tau at the returned root (the `[0.0]`
      sentinel raises `sentinel`), evaluate `dh / EA` last, and store. */
  function CrossFrom(m: Mech, tau: Solver.Target, sentinel: Fault, dir: Direction, qIn: real, wIn: real, res: Solver.SolverResult): (r: Result<FaceState, Fault>)
    ensures res.finalRoot.ZeroList? ==> r == Failure(sentinel)
    ensures r.Success? ==> res.finalRoot.Num? && tau(res.finalRoot.x) == Success(r.value.qs) && r.value.dzMiddle == res.finalRoot.x
  {
    var t :- TauOfValue(tau, sentinel, res.finalRoot);
    match res.finalRoot
    case ZeroList => Failure(sentinel)
    case Num(wm) =>
      if m.ea == 0.0 then Failure(ZeroDivisionError)
      else Success(CrossSlice(m, dir, qIn, wIn, wm, t))
  }

  /** One crossing from a midpoint guess: solve F(wm) = 0 from the guess,
      then store. */
  function Cross(m: Mech, tau: Solver.Target, sentinel: Fault, dir: Direction, qIn: real, wIn: real, guess: real): Result<FaceState, Fault>
  {
    var res :- Solver.Newton(Residual(m, tau, dir, qIn, wIn), [0.0], [guess]);
    CrossFrom(m, tau, sentinel, dir, qIn, wIn, res)
  }

  /** `propagate(direction, Q_in, w_in, wmid_guess)` on the values of a
      slice: the new state, or the exception raised. An unknown direction
      raises ValueError; the midpoint guess defaults to w_in. */
  function PropagateSpec(g: SliceGeom, direction: string, qIn: real, wIn: real, wmidGuess: Option<real>): Result<FaceState, Fault>
  {
    match DirectionOf(direction)
    case None => Failure(ValueError)
    case Some(dir) =>
      var guess := if wmidGuess.None? then wIn else wmidGuess.value;
      Cross(MechOf(g), g.TauFn(), g.SentinelFault(), dir, qIn, wIn, guess)
  }

  /** What `propagate` returns. */
  function Propagated(g: SliceGeom, direction: string, qIn: real, wIn: real, wmidGuess: Option<real>): Result<(real, real), Fault> {
    var s :- PropagateSpec(g, direction, qIn, wIn, wmidGuess);
    match DirectionOf(direction)
    case None => Failure(ValueError)
    case Some(dir) => Success(OutputFace(s, dir))
  }

  /** `propagate` on a slice step by step: the solve, then tau at the
      returned root, then `dh / EA`, then the store. */
  lemma PropagateSteps(g: SliceGeom, direction: string, qIn: real, wIn: real, wmidGuess: Option<real>)
    requires DirectionOf(direction).Some?
    ensures var dir := DirectionOf(direction).value;
      var m := MechOf(g);
      var n := Solver.Newton(Residual(m, g.TauFn(), dir, qIn, wIn), [0.0], [if wmidGuess.None? then wIn else wmidGuess.value]);
      var p := Propagated(g, direction, qIn, wIn, wmidGuess);
      && (n.Failure? ==> p == Failure(n.error))
      && (n.Success? ==>
            var t := TauOfValue(g.TauFn(), g.SentinelFault(), n.value.finalRoot);
            && (t.Failure? ==> p == Failure(t.error))
            && (t.Success? && m.ea == 0.0 ==> p == Failure(ZeroDivisionError))
            && (t.Success? && m.ea != 0.0 ==>
                  var st := CrossSlice(m, dir, qIn, wIn, n.value.finalRoot.x, t.value);
                  PropagateSpec(g, direction, qIn, wIn, wmidGuess) == Success(st) && p == Success(OutputFace(st, dir))))
  {
    var dir := DirectionOf(direction).value;
    CrossUnfold(MechOf(g), g.TauFn(), g.SentinelFault(), dir, qIn, wIn, if wmidGuess.None? then wIn else wmidGuess.value);
  }

  class SliceTB {
    const zTop: real
    const deltaH: real
    const soil: SoilModel.Soil
    const dataPieu: PileData

    var qTop: real
    var qBott: real
    var qMiddle: real
    var dzTop: real
    var dzBott: real
    var dzMiddle: real
    var qs: real

    /** The four constructor fields as one value. */
    function Geom(): SliceGeom { SliceGeom(zTop, deltaH, soil, dataPieu) }

    function State(): FaceState
      reads this
    {
      FaceState(qTop, qBott, qMiddle, dzTop, dzBott, dzMiddle, qs)
    }

    /** The dataclass constructor: the state fields start at 0. */
    constructor (zTop: real, deltaH: real, soil: SoilModel.Soil, dataPieu: PileData)
      ensures Geom() == SliceGeom(zTop, deltaH, soil, dataPieu)
      ensures State() == FaceState(0.0, 0.0, 0.0, 0.0, 0.0, 0.0, 0.0)
    {
      this.zTop := zTop;
      this.deltaH := deltaH;
      this.soil := soil;
      this.dataPieu := dataPieu;
      qTop, qBott, qMiddle := 0.0, 0.0, 0.0;
      dzTop, dzBott, dzMiddle := 0.0, 0.0, 0.0;
      qs := 0.0;
    }

    /** `propagate`: solves the midpoint equation, then writes the seven
        fields and returns the output face. Every exception is raised
        before the first write. */
    method Propagate(direction: string, qIn: real, wIn: real, wmidGuess: Option<real> := None) returns (r: Result<(real, real), Fault>)
      modifies this
      ensures r == Propagated(Geom(), direction, qIn, wIn, wmidGuess)
      ensures r.Success? ==> State() == PropagateSpec(Geom(), direction, qIn, wIn, wmidGuess).value
      ensures r.Failure? ==> unchanged(this)
    {
      var dir := DirectionOf(direction);
      if dir.None? {
        return Failure(ValueError);
      }
      PropagateSteps(Geom(), direction, qIn, wIn, wmidGuess);
      var guess := if wmidGuess.None? then wIn else wmidGuess.value;
      var m := MechOf(Geom());
      var tau := Geom().TauFn();
      var sentinel := Geom().SentinelFault();
      var created := Solver.NewtonRaphson11.Create(Residual(m, tau, dir.value, qIn, wIn), [0.0], [guess]);
      if created.Failure? {
        return Failure(created.error);
      }
      var solver := created.value;
      var root := solver.FinalRoots();
      assert Solver.Newton(Residual(m, tau, dir.value, qIn, wIn), [0.0], [guess]) == Success(solver.result);
      var tauM := TauOfValue(tau, sentinel, root);
      if tauM.Failure? {
        return Failure(tauM.error);
      }
      if m.ea == 0.0 {
        return Failure(ZeroDivisionError);
      }
      var st := CrossSlice(m, dir.value, qIn, wIn, root.x, tauM.value);
      Store(st);
      r := Success(OutputFace(st, dir.value));
    }

    /** The seven assignments that end `propagate`. */
    method Store(st: FaceState)
      modifies this
      ensures State() == st
    {
      qTop, qBott, qMiddle := st.qTop, st.qBott, st.qMiddle;
      dzTop, dzBott, dzMiddle := st.dzTop, st.dzBott, st.dzMiddle;
      qs := st.qs;
    }
  }

  /** The face relations of a slice after a crossing from (qIn, wIn):
      Q_top - Q_bott = P . dh . qs, dz_top - dz_bott = (dh / EA) . Q_middle,
      Q_middle is the mean of the face forces, qs = tau(dz_middle), and the
      input face is stored as given. */
  predicate FaceRelations(m: Mech, tau: Solver.Target, dir: Direction, qIn: real, wIn: real, s: FaceState) {
    && m.ea != 0.0
    && s.qTop - s.qBott == 2.0 * m.half * s.qs
    && s.dzTop - s.dzBott == (m.dh / m.ea) * s.qMiddle
    && s.qMiddle == (s.qTop + s.qBott) / 2.0
    && tau(s.dzMiddle) == Success(s.qs)
    && (dir == BottomToTop ==> s.qBott == qIn && s.dzBott == wIn)
    && (dir == TopToBottom ==> s.qTop == qIn && s.dzTop == wIn)
  }

  /** Whatever the solve returned, storing it keeps the face relations. */
  lemma CrossFromRelations(m: Mech, tau: Solver.Target, sentinel: Fault, dir: Direction, qIn: real, wIn: real, res: Solver.SolverResult)
    requires CrossFrom(m, tau, sentinel, dir, qIn, wIn, res).Success?
    ensures FaceRelations(m, tau, dir, qIn, wIn, CrossFrom(m, tau, sentinel, dir, qIn, wIn, res).value)
  {
  }

  /** A crossing is the solve followed by the store. */
  lemma CrossUnfold(m: Mech, tau: Solver.Target, sentinel: Fault, dir: Direction, qIn: real, wIn: real, guess: real)
    ensures var n := Solver.Newton(Residual(m, tau, dir, qIn, wIn), [0.0], [guess]);
      && (n.Failure? ==> Cross(m, tau, sentinel, dir, qIn, wIn, guess) == Failure(n.error))
      && (n.Success? ==> Cross(m, tau, sentinel, dir, qIn, wIn, guess) == CrossFrom(m, tau, sentinel, dir, qIn, wIn, n.value))
  {
  }

  /** A successful crossing keeps the face relations of the slice, whatever
      midpoint the solver returned: the relations do not require the
      midpoint equation to hold exactly. */
  lemma CrossRelations(m: Mech, tau: Solver.Target, sentinel: Fault, dir: Direction, qIn: real, wIn: real, guess: real)
    requires Cross(m, tau, sentinel, dir, qIn, wIn, guess).Success?
    ensures FaceRelations(m, tau, dir, qIn, wIn, Cross(m, tau, sentinel, dir, qIn, wIn, guess).value)
  {
    CrossUnfold(m, tau, sentinel, dir, qIn, wIn, guess);
    var res := Solver.Newton(Residual(m, tau, dir, qIn, wIn), [0.0], [guess]).value;
    CrossFromRelations(m, tau, sentinel, dir, qIn, wIn, res);
  }

  /** The same relations for `propagate` on a slice (with dh, EA and half
      as `MechOf` states them, and the slice's own `tau`), and the returned
      pair is the stored output face: (Q_top, dz_top) going up, (Q_bott,
      dz_bott) going down. */
  lemma PropagateRelations(g: SliceGeom, direction: string, qIn: real, wIn: real, wmidGuess: Option<real>)
    requires PropagateSpec(g, direction, qIn, wIn, wmidGuess).Success?
    ensures DirectionOf(direction).Some?
    ensures FaceRelations(MechOf(g), g.TauFn(), DirectionOf(direction).value, qIn, wIn, PropagateSpec(g, direction, qIn, wIn, wmidGuess).value)
    ensures Propagated(g, direction, qIn, wIn, wmidGuess)
              == Success(OutputFace(PropagateSpec(g, direction, qIn, wIn, wmidGuess).value, DirectionOf(direction).value))
  {
    var dir := DirectionOf(direction).value;
    var guess := if wmidGuess.None? then wIn else wmidGuess.value;
    CrossRelations(MechOf(g), g.TauFn(), g.SentinelFault(), dir, qIn, wIn, guess);
  }

  /** The solver's failure sentinel cannot be crossed: when the solve does
      not converge, the crossing raises `sentinel` (for a slice: TypeError
      unless computing the friction law already raised). */
  lemma CrossUnconverged(m: Mech, tau: Solver.Target, sentinel: Fault, dir: Direction, qIn: real, wIn: real, guess: real)
    requires Solver.Newton(Residual(m, tau, dir, qIn, wIn), [0.0], [guess]).Success?
    requires !Solver.Newton(Residual(m, tau, dir, qIn, wIn), [0.0], [guess]).value.converged
    ensures Cross(m, tau, sentinel, dir, qIn, wIn, guess) == Failure(sentinel)
  {
    Solver.NewtonShape(Residual(m, tau, dir, qIn, wIn), [0.0], [guess]);
  }

  /** The identity behind the round trip: with Qm = Qb + h.t0, Qt = Qm + h.t0
      and wt = wb + k.Qm where k = 2c, the top-down residual from (Qt, wt)
      equals the bottom-up one from (Qb, wb), for every friction t. */
  lemma CrossAlgebra(c: real, k: real, h: real, qb: real, wb: real, t0: real, t: real, w: real)
    requires k == 2.0 * c
    ensures var qm := qb + h * t0;
      (wb + k * qm) - c * ((qm + h * t0) - h * t) - w == wb + c * (qb + h * t) - w
  {
    var qm := qb + h * t0;
    calc {
      (wb + k * qm) - c * ((qm + h * t0) - h * t);
      wb + 2.0 * c * qm - c * qm - c * h * t0 + c * h * t;
      wb + c * (qm - h * t0) + c * h * t;
      wb + c * (qb + h * t);
    }
  }

  /** The two midpoint equations are the same function once the top face is
      the one produced from the bottom face: a midpoint is a root of one
      exactly when it is a root of the other. */
  lemma ResidualsAgree(m: Mech, tau: Solver.Target, qb: real, wb: real, wm: real, t0: real, w: real)
    requires m.ea != 0.0
    ensures var s := CrossSlice(m, BottomToTop, qb, wb, wm, t0);
      ResidualAt(m, tau, TopToBottom, s.qTop, s.dzTop, w) == ResidualAt(m, tau, BottomToTop, qb, wb, w)
  {
    var s := CrossSlice(m, BottomToTop, qb, wb, wm, t0);
    var c := m.dh / (2.0 * m.ea);
    var k := m.dh / m.ea;
    assert k == 2.0 * c;
    var qm := qb + m.half * t0;
    assert s.qTop == qm + m.half * t0 && s.dzTop == wb + k * qm;
    if tau(w).Success? {
      var t := tau(w).value;
      CrossAlgebra(c, k, m.half, qb, wb, t0, t, w);
      assert MidResidual(m, TopToBottom, s.qTop, s.dzTop, t, w) == MidResidual(m, BottomToTop, qb, wb, t, w);
    }
  }

  /** Storing the same solver result top-down from the face a bottom-up
      store produced gives back the same seven values. */
  lemma CrossFromRoundTrip(m: Mech, tau: Solver.Target, sentinel: Fault, qb: real, wb: real, res: Solver.SolverResult)
    requires CrossFrom(m, tau, sentinel, BottomToTop, qb, wb, res).Success?
    ensures var s := CrossFrom(m, tau, sentinel, BottomToTop, qb, wb, res).value;
      CrossFrom(m, tau, sentinel, TopToBottom, s.qTop, s.dzTop, res) == Success(s)
  {
    var s := CrossFrom(m, tau, sentinel, BottomToTop, qb, wb, res).value;
    var wm := res.finalRoot.x;
    var t0 := tau(wm).value;
    assert s == CrossSlice(m, BottomToTop, qb, wb, wm, t0);
    var s' := CrossSlice(m, TopToBottom, s.qTop, s.dzTop, wm, t0);
    assert s'.qMiddle == s.qMiddle;
    assert s' == s;
  }

  /** Round trip of one crossing: bottom-up from (Qb, wb), then top-down
      from the face produced with the same guess, gives back (Qb, wb) and
      exactly the same seven values. */
  lemma CrossRoundTrip(m: Mech, tau: Solver.Target, sentinel: Fault, qb: real, wb: real, guess: real)
    requires Cross(m, tau, sentinel, BottomToTop, qb, wb, guess).Success?
    ensures var s := Cross(m, tau, sentinel, BottomToTop, qb, wb, guess).value;
      && Cross(m, tau, sentinel, TopToBottom, s.qTop, s.dzTop, guess) == Success(s)
      && s.qBott == qb && s.dzBott == wb
  {
    var s := Cross(m, tau, sentinel, BottomToTop, qb, wb, guess).value;
    var up := Residual(m, tau, BottomToTop, qb, wb);
    var down := Residual(m, tau, TopToBottom, s.qTop, s.dzTop);
    CrossUnfold(m, tau, sentinel, BottomToTop, qb, wb, guess);
    var res := Solver.Newton(up, [0.0], [guess]).value;
    CrossFromRelations(m, tau, sentinel, BottomToTop, qb, wb, res);
    var wm := res.finalRoot.x;
    var t0 := tau(wm).value;
    assert s == CrossSlice(m, BottomToTop, qb, wb, wm, t0);
    forall w: real
      ensures down(w) == up(w)
    {
      ResidualsAgree(m, tau, qb, wb, wm, t0, w);
    }
    Solver.NewtonCongruent(down, up, [0.0], [guess]);
    CrossUnfold(m, tau, sentinel, TopToBottom, s.qTop, s.dzTop, guess);
    CrossFromRoundTrip(m, tau, sentinel, qb, wb, res);
  }

  /** Round trip of `propagate` on a slice: going up from (Q_bott, w_bott)
      and then down from the produced (Q_top, w_top) with the same midpoint
      guess returns (Q_bott, w_bott). */
  lemma PropagateRoundTrip(g: SliceGeom, qb: real, wb: real, guess: real)
    requires PropagateSpec(g, "bottom_to_top", qb, wb, Some(guess)).Success?
    ensures var s := PropagateSpec(g, "bottom_to_top", qb, wb, Some(guess)).value;
      && PropagateSpec(g, "top_to_bottom", s.qTop, s.dzTop, Some(guess)) == Success(s)
      && Propagated(g, "top_to_bottom", s.qTop, s.dzTop, Some(guess)) == Success((qb, wb))
  {
    CrossRoundTrip(MechOf(g), g.TauFn(), g.SentinelFault(), qb, wb, guess);
  }
}
