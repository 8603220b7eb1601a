/** Soil layers and their pressuremeter coefficients (geotech_module/soil.py):
    validity checks, the NF P94-262 tables F.4.2.1, F.5.2.1 and F.5.2.3,
    the linear moduli kt and kq, and the level/depth conversions of a
    pressuremeter log. */
module SoilModel {
  import opened Common

  // ---------------------------------------------------------------------
  // Strings
  // ---------------------------------------------------------------------

  /** `str.upper` restricted to ASCII: a-z are raised, every other
      character (non-ASCII letters included) is kept as it is. */
  function Upper(s: string): string {
    if s == [] then [] else [UpperChar(s[0])] + Upper(s[1..])
  }

  function UpperChar(c: char): char {
    if 'a' <= c <= 'z' then (c as int - 32) as char else c
  }

  /** This ASCII upper-casing keeps the length and maps each character on
      its own; Python's `str.upper` need not (the German sharp s becomes "SS"). */
  lemma {:induction false} UpperPointwise(s: string)
    ensures |Upper(s)| == |s|
    ensures forall k :: 0 <= k < |s| ==> Upper(s)[k] == UpperChar(s[k])
  {
    if s != [] {
      UpperPointwise(s[1..]);
      assert forall k :: 1 <= k < |s| ==> Upper(s)[k] == Upper(s[1..])[k - 1];
    }
  }

  // ---------------------------------------------------------------------
  // Tables
  // ---------------------------------------------------------------------

  /** The friction curves that head the columns of the tables. */
  datatype Curve = Q1 | Q12 | Q2 | Q3 | Q4 | Q5

  /** The column a curve name selects: its upper-cased spelling must be a header. */
  function CurveOf(name: string): Option<Curve> {
    var u := Upper(name);
    if u == "Q1" then Some(Q1)
    else if u == "Q12" then Some(Q12)
    else if u == "Q2" then Some(Q2)
    else if u == "Q3" then Some(Q3)
    else if u == "Q4" then Some(Q4)
    else if u == "Q5" then Some(Q5)
    else None
  }

  const CurveNames: seq<string> := ["Q1", "Q12", "Q2", "Q3", "Q4", "Q5"]

  /** A curve name is recognised exactly when its upper-cased spelling is a
      header. */
  lemma CurveOfNames(name: string)
    ensures CurveOf(name).Some? <==> Upper(name) in CurveNames
  {
  }

  /** One row of a table: a value per curve. */
  datatype Row<T> = Row(q1: T, q12: T, q2: T, q3: T, q4: T, q5: T) {
    function At(c: Curve): T {
      match c
      case Q1 => q1
      case Q12 => q12
      case Q2 => q2
      case Q3 => q3
      case Q4 => q4
      case Q5 => q5
    }
  }

  /** A table entry: a number, or the string '-' for "not applicable". */
  datatype Cell = Val(v: real) | Dash

  /** The tables are keyed by the strings "1", "2", ...: row k of a table is
      its element k - 1. */
  predicate HasRow<T>(table: seq<Row<T>>, key: int) {
    1 <= key <= |table|
  }

  /** Table F.4.2.1: kp_max by pile class. */
  const TAB_F421: seq<Row<real>> := [
    Row(1.15, 1.10, 1.10, 1.45, 1.45, 1.45),
    Row(1.30, 1.65, 1.65, 1.60, 1.60, 2.00),
    Row(1.55, 3.20, 3.20, 2.35, 2.10, 2.10),
    Row(1.35, 3.10, 3.10, 2.30, 2.30, 2.30),
    Row(1.00, 1.90, 1.90, 1.40, 1.40, 1.20),
    Row(1.20, 3.10, 3.10, 1.70, 2.20, 1.50),
    Row(1.00, 1.00, 1.00, 1.00, 1.00, 1.20),
    Row(1.15, 1.10, 1.10, 1.45, 1.45, 1.45)
  ]

  /** Table F.5.2.1: alpha_pieu_sol by pile category. */
  const TAB_F521: seq<Row<Cell>> := [
    Row(Val(1.10), Val(1.0), Val(1.0), Val(1.8), Val(1.5), Val(1.6)),
    Row(Val(1.25), Val(1.4), Val(1.4), Val(1.8), Val(1.5), Val(1.6)),
    Row(Val(0.70), Val(0.6), Val(0.6), Val(0.5), Val(0.9), Dash),
    Row(Val(1.25), Val(1.4), Val(1.4), Val(1.7), Val(1.4), Dash),
    Row(Val(1.30), Dash, Dash, Dash, Dash, Dash),
    Row(Val(1.50), Val(1.8), Val(1.8), Val(2.1), Val(1.6), Val(1.6)),
    Row(Val(1.90), Val(2.1), Val(2.1), Val(1.7), Val(1.7), Dash),
    Row(Val(0.60), Val(0.6), Val(0.6), Val(1.0), Val(0.7), Dash),
    Row(Val(1.10), Val(1.4), Val(1.4), Val(1.0), Val(0.9), Dash),
    Row(Val(2.00), Val(2.1), Val(2.1), Val(1.9), Val(1.6), Dash),
    Row(Val(1.20), Val(1.4), Val(1.4), Val(2.1), Val(1.0), Dash),
    Row(Val(0.80), Val(1.2), Val(1.2), Val(0.4), Val(0.9), Dash),
    Row(Val(1.20), Val(0.7), Val(0.7), Val(0.5), Val(1.0), Val(1.0)),
    Row(Val(1.10), Val(1.0), Val(1.0), Val(0.4), Val(1.0), Val(0.9)),
    Row(Val(2.70), Val(2.9), Val(2.9), Val(2.4), Val(2.4), Val(2.4)),
    Row(Val(0.90), Val(0.8), Val(0.8), Val(0.4), Val(1.2), Val(1.2)),
    Row(Dash, Dash, Dash, Dash, Dash, Dash),
    Row(Dash, Dash, Dash, Dash, Dash, Dash),
    Row(Val(2.70), Val(2.9), Val(2.9), Val(2.4), Val(2.4), Val(2.4)),
    Row(Val(3.40), Val(3.8), Val(3.8), Val(3.1), Val(3.1), Val(3.1))
  ]

  /** Table F.5.2.3: qs_max in kPa by pile category. */
  const TAB_F523: seq<Row<Cell>> := [
    Row(Val(90.0), Val(90.0), Val(90.0), Val(200.0), Val(170.0), Val(200.0)),
    Row(Val(90.0), Val(90.0), Val(90.0), Val(200.0), Val(170.0), Val(200.0)),
    Row(Val(50.0), Val(50.0), Val(50.0), Val(50.0), Val(90.0), Dash),
    Row(Val(90.0), Val(90.0), Val(90.0), Val(170.0), Val(170.0), Dash),
    Row(Val(90.0), Val(90.0), Dash, Dash, Dash, Dash),
    Row(Val(90.0), Val(90.0), Val(170.0), Val(200.0), Val(200.0), Val(200.0)),
    Row(Val(130.0), Val(130.0), Val(200.0), Val(170.0), Val(170.0), Dash),
    Row(Val(50.0), Val(50.0), Val(90.0), Val(90.0), Val(90.0), Dash),
    Row(Val(130.0), Val(130.0), Val(130.0), Val(90.0), Val(90.0), Dash),
    Row(Val(170.0), Val(170.0), Val(260.0), Val(200.0), Val(200.0), Dash),
    Row(Val(90.0), Val(90.0), Val(130.0), Val(260.0), Val(200.0), Dash),
    Row(Val(90.0), Val(90.0), Val(90.0), Val(50.0), Val(90.0), Dash),
    Row(Val(90.0), Val(90.0), Val(50.0), Val(50.0), Val(90.0), Val(90.0)),
    Row(Val(90.0), Val(90.0), Val(130.0), Val(50.0), Val(90.0), Val(90.0)),
    Row(Val(200.0), Val(200.0), Val(380.0), Val(320.0), Val(320.0), Val(320.0)),
    Row(Val(90.0), Val(90.0), Val(50.0), Val(50.0), Val(90.0), Val(90.0)),
    Row(Dash, Dash, Dash, Dash, Dash, Dash),
    Row(Dash, Dash, Dash, Dash, Dash, Dash),
    Row(Val(200.0), Val(200.0), Val(380.0), Val(320.0), Val(320.0), Val(320.0)),
    Row(Val(200.0), Val(200.0), Val(440.0), Val(440.0), Val(440.0), Val(500.0))
  ]

  /** `TABLE[str(key)][curve.upper()]`: KeyError when the row or the column is missing. */
  function Lookup<T>(table: seq<Row<T>>, key: int, curve: string): (r: Result<T, Fault>)
    ensures r.Success? <==> HasRow(table, key) && CurveOf(curve).Some?
    ensures r.Failure? ==> r.error == KeyError
    ensures r.Success? ==> r.value == table[key - 1].At(CurveOf(curve).value)
  {
    if !HasRow(table, key) then Failure(KeyError)
    else match CurveOf(curve)
      case None => Failure(KeyError)
      case Some(c) => Success(table[key - 1].At(c))
  }

  // ---------------------------------------------------------------------
  // Soil layer
  // ---------------------------------------------------------------------

  /** A soil layer. `fsol` is the value of `fonction_fsol`, an exponential
      law of pl that the model takes as given. */
  datatype Soil = Soil(
    name: string,
    levelSup: real,
    levelInf: real,
    courbeFrottement: string,
    pf: real,
    pl: real,
    em: real,
    alpha: real,
    soilType: string,
    fsol: real)

  /** The default `soil_type`. */
  const Granulaire: string := "granulaire"
  const Fin: string := "fin"

  /** `check_courbe_frottement` */
  predicate CheckCourbeFrottement(s: Soil) {
    Upper(s.courbeFrottement) in CurveNames
  }

  /** `check_soil_type` */
  predicate CheckSoilType(s: Soil) {
    s.soilType in [Fin, Granulaire]
  }

  /** `alpha_pieu_sol` */
  function AlphaPieuSol(s: Soil, categoriePieu: int): Result<Cell, Fault> {
    Lookup(TAB_F521, categoriePieu, s.courbeFrottement)
  }

  /** `kp_max` */
  function KpMax(s: Soil, classePieu: int): Result<real, Fault> {
    Lookup(TAB_F421, classePieu, s.courbeFrottement)
  }

  /** `frottement_maxi`: the F.5.2.3 entry converted to MPa; a '-' entry makes
      the division raise TypeError, which is caught and gives 0. A missing
      key is not caught. */
  function FrottementMaxi(s: Soil, categoriePieu: int): (r: Result<real, Fault>)
    ensures r.Failure? <==> Lookup(TAB_F523, categoriePieu, s.courbeFrottement).Failure?
    ensures r.Failure? ==> r.error == KeyError
    ensures r.Success? && Lookup(TAB_F523, categoriePieu, s.courbeFrottement).value.Dash? ==> r.value == 0.0
    ensures r.Success? && Lookup(TAB_F523, categoriePieu, s.courbeFrottement).value.Val? ==>
              r.value * 1000.0 == Lookup(TAB_F523, categoriePieu, s.courbeFrottement).value.v
  {
    var cell :- Lookup(TAB_F523, categoriePieu, s.courbeFrottement);
    match cell
    case Val(v) => Success(v / 1000.0)
    case Dash => Success(0.0)
  }

  /** `module_kt`: 2.0 Em / B for a fine soil, 0.8 Em / B for a granular
      one, None for any other soil type; B = 0 raises ZeroDivisionError. */
  function ModuleKt(s: Soil, b: real): (r: Result<Option<real>, Fault>)
    ensures !CheckSoilType(s) ==> r == Success(None)
    ensures CheckSoilType(s) && b == 0.0 ==> r == Failure(ZeroDivisionError)
    ensures CheckSoilType(s) && b != 0.0 ==> r.Success? && r.value.Some?
    ensures s.soilType == Fin && b != 0.0 ==> r.value.value * b == 2.0 * s.em
    ensures s.soilType == Granulaire && b != 0.0 ==> r.value.value * b == 0.8 * s.em
  {
    if s.soilType == Fin then (if b == 0.0 then Failure(ZeroDivisionError) else Success(Some(2.0 * s.em / b)))
    else if s.soilType == Granulaire then (if b == 0.0 then Failure(ZeroDivisionError) else Success(Some(0.8 * s.em / b)))
    else Success(None)
  }

  /** `module_kq`: 11 Em / B for a fine soil, 4.8 Em / B for a granular one. */
  function ModuleKq(s: Soil, b: real): (r: Result<Option<real>, Fault>)
    ensures !CheckSoilType(s) ==> r == Success(None)
    ensures CheckSoilType(s) && b == 0.0 ==> r == Failure(ZeroDivisionError)
    ensures CheckSoilType(s) && b != 0.0 ==> r.Success? && r.value.Some?
    ensures s.soilType == Fin && b != 0.0 ==> r.value.value * b == 11.0 * s.em
    ensures s.soilType == Granulaire && b != 0.0 ==> r.value.value * b == 4.8 * s.em
  {
    if s.soilType == Fin then (if b == 0.0 then Failure(ZeroDivisionError) else Success(Some(11.0 * s.em / b)))
    else if s.soilType == Granulaire then (if b == 0.0 then Failure(ZeroDivisionError) else Success(Some(4.8 * s.em / b)))
    else Success(None)
  }

  /** The curve check is exactly the condition under which the tables can
      be read for that layer: a valid curve finds its column in every row,
      an invalid one raises KeyError whatever the row. */
  lemma CurveCheckMatchesLookups(s: Soil, key: int)
    ensures CheckCourbeFrottement(s) <==> CurveOf(s.courbeFrottement).Some?
    ensures CheckCourbeFrottement(s) && HasRow(TAB_F521, key) ==> AlphaPieuSol(s, key).Success?
    ensures CheckCourbeFrottement(s) && HasRow(TAB_F421, key) ==> KpMax(s, key).Success?
    ensures CheckCourbeFrottement(s) && HasRow(TAB_F523, key) ==> FrottementMaxi(s, key).Success?
    ensures !CheckCourbeFrottement(s) ==>
              AlphaPieuSol(s, key) == Failure(KeyError) && KpMax(s, key) == Failure(KeyError)
              && FrottementMaxi(s, key) == Failure(KeyError)
  {
    CurveOfNames(s.courbeFrottement);
  }

  /** For a recognised soil type and positive Em and B, both moduli are
      positive and their ratio is fixed by the soil type: 5.5 for fine,
      6 for granular soils. */
  lemma ModuliRatio(s: Soil, b: real)
    requires CheckSoilType(s) && s.em > 0.0 && b > 0.0
    ensures ModuleKt(s, b).value.value > 0.0 && ModuleKq(s, b).value.value > 0.0
    ensures s.soilType == Fin ==> ModuleKq(s, b).value.value == 5.5 * ModuleKt(s, b).value.value
    ensures s.soilType == Granulaire ==> ModuleKq(s, b).value.value == 6.0 * ModuleKt(s, b).value.value
  {
    var kt := ModuleKt(s, b).value.value;
    var kq := ModuleKq(s, b).value.value;
    if s.soilType == Fin {
      assert kt * b == 2.0 * s.em && kq * b == 11.0 * s.em;
      assert kq * b == 5.5 * kt * b;
    } else {
      assert kt * b == 0.8 * s.em && kq * b == 4.8 * s.em;
      assert kq * b == 6.0 * kt * b;
    }
  }

  /** Every qs_max of the table is non-negative. */
  lemma FrottementMaxiNonNegative(s: Soil, categoriePieu: int)
    requires FrottementMaxi(s, categoriePieu).Success?
    ensures FrottementMaxi(s, categoriePieu).value >= 0.0
  {
    var c := CurveOf(s.courbeFrottement).value;
    var k := categoriePieu;
    assert 1 <= k <= 20;
    assert TAB_F523[k - 1].At(c).Dash? || TAB_F523[k - 1].At(c).v >= 0.0;
  }

  /** The four layers of the tests. */
  const Sol1: Soil := Soil("Remblais", 0.0, -1.0, "Q1", 0.0, 0.0, 5.0, 2.0 / 3.0, Fin, 0.0)
  const Sol2: Soil := Soil("Argiles", -1.0, -8.0, "Q2", 0.8, 1.2, 8.0, 2.0 / 3.0, Fin, 0.0)
  const Sol3: Soil := Soil("Argiles d'alterations", -8.0, -12.0, "Q3", 0.6, 0.8, 6.0, 2.0 / 3.0, Granulaire, 0.0)
  const Sol4: Soil := Soil("Argiles carbonatees", -12.0, -20.0, "Q4", 1.3, 1.8, 10.0, 2.0 / 3.0, Granulaire, 0.0)

  /** The four test layers pass the curve check. */
  lemma SoilCheckSamples()
    ensures CheckCourbeFrottement(Sol1) && CheckCourbeFrottement(Sol2) && CheckCourbeFrottement(Sol3) && CheckCourbeFrottement(Sol4)
  {
    CurveSamples();
    CurveOfNames("Q1");
    CurveOfNames("Q2");
    CurveOfNames("Q3");
    CurveOfNames("Q4");
  }

  /** The tested alpha and kp_max of these layers. */
  lemma SoilSamples()
    ensures AlphaPieuSol(Sol1, 19) == Success(Val(2.7)) && AlphaPieuSol(Sol2, 19) == Success(Val(2.9))
    ensures AlphaPieuSol(Sol3, 19) == Success(Val(2.4)) && AlphaPieuSol(Sol4, 19) == Success(Val(2.4))
    ensures KpMax(Sol1, 8) == Success(1.15) && KpMax(Sol2, 8) == Success(1.10)
    ensures KpMax(Sol3, 8) == Success(1.45) && KpMax(Sol4, 8) == Success(1.45)
  {
    CurveSamples();
    RowSamples();
  }

  /** The tested qs_max of these layers. */
  lemma SoilFrictionSamples()
    ensures FrottementMaxi(Sol1, 19) == Success(0.2) && FrottementMaxi(Sol2, 19) == Success(0.38)
    ensures FrottementMaxi(Sol3, 19) == Success(0.32) && FrottementMaxi(Sol4, 19) == Success(0.32)
  {
    CurveSamples();
    RowSamples();
  }

  /** The tested kt and kq of these layers. */
  lemma SoilModuleSamples()
    ensures ModuleKt(Sol1, 0.25) == Success(Some(40.0)) && ModuleKt(Sol2, 0.25) == Success(Some(64.0))
    ensures ModuleKt(Sol3, 0.25) == Success(Some(19.2)) && ModuleKt(Sol4, 0.25) == Success(Some(32.0))
    ensures ModuleKq(Sol1, 0.25) == Success(Some(220.0)) && ModuleKq(Sol2, 0.25) == Success(Some(352.0))
    ensures ModuleKq(Sol3, 0.25) == Success(Some(115.2)) && ModuleKq(Sol4, 0.25) == Success(Some(192.0))
  {
    CurveSamples();
    RowSamples();
  }

  lemma RowSamples()
    ensures |TAB_F421| == 8 && TAB_F421[7] == Row(1.15, 1.10, 1.10, 1.45, 1.45, 1.45)
    ensures |TAB_F521| == 20 && TAB_F521[18] == Row(Val(2.70), Val(2.9), Val(2.9), Val(2.4), Val(2.4), Val(2.4))
    ensures |TAB_F523| == 20 && TAB_F523[18] == Row(Val(200.0), Val(200.0), Val(380.0), Val(320.0), Val(320.0), Val(320.0))
  {
  }

  lemma CurveSamples()
    ensures CurveOf("Q1") == Some(Q1) && CurveOf("Q2") == Some(Q2) && CurveOf("Q3") == Some(Q3) && CurveOf("Q4") == Some(Q4)
  {
    assert Upper("Q1") == "Q1";
    assert Upper("Q2") == "Q2";
    assert Upper("Q3") == "Q3";
    assert Upper("Q4") == "Q4";
  }

  /** Lower-case curve names are accepted; unknown ones are not. */
  lemma CurveNameSamples()
    ensures CurveOf("q12") == Some(Q12)
    ensures CurveOf("Q6") == None
    ensures CurveOf("") == None
  {
    assert Upper("q12") == "Q12";
    assert Upper("Q6") == "Q6";
  }

  // ---------------------------------------------------------------------
  // Pressuremeter log
  // ---------------------------------------------------------------------

  /** `depth_to_level` */
  function DepthToLevel(depth: real, topLevel: real): real { topLevel - depth }

  /** `level_to_depth` */
  function LevelToDepth(level: real, topLevel: real): real { topLevel - level }

  /** For a fixed top level the two conversions undo each other. */
  lemma LevelDepthInverse(level: real, depth: real, topLevel: real)
    ensures DepthToLevel(LevelToDepth(level, topLevel), topLevel) == level
    ensures LevelToDepth(DepthToLevel(depth, topLevel), topLevel) == depth
  {
  }

  /** A Menard pressuremeter log: test levels and the pf, pl, Em records. */
  class LogPressio {
    const levelsNgf: seq<real>
    const cbPf: seq<real>
    const cbPl: seq<real>
    const cbEm: seq<real>
    var depths: seq<real>

    /** `top_level`: the highest level; `max` of an empty list raises ValueError. */
    function TopLevel(): (r: Result<real, Fault>)
      ensures levelsNgf == [] <==> r == Failure(ValueError)
      ensures r.Success? ==> r.value in levelsNgf && forall k :: 0 <= k < |levelsNgf| ==> levelsNgf[k] <= r.value
    {
      if levelsNgf == [] then Failure(ValueError) else Success(MaxOf(levelsNgf))
    }

    /** Depths from the top level, one per recorded level, in order. */
    ghost predicate DepthsOf(d: seq<real>) {
      |d| == |levelsNgf|
      && forall k :: 0 <= k < |d| ==> d[k] == LevelToDepth(levelsNgf[k], TopLevel().value)
    }

    /** `__post_init__` stores `get_depths()`. */
    constructor (levels: seq<real>, pf: seq<real>, pl: seq<real>, em: seq<real>)
      ensures levelsNgf == levels && cbPf == pf && cbPl == pl && cbEm == em
      ensures DepthsOf(depths)
    {
      levelsNgf := levels;
      cbPf := pf;
      cbPl := pl;
      cbEm := em;
      new;
      depths := GetDepths();
    }

    /** `get_depths`: the depth of each level below the top level, all
        non-negative; an empty log gives an empty list without raising. */
    method GetDepths() returns (depthAcc: seq<real>)
      ensures DepthsOf(depthAcc)
      ensures forall k :: 0 <= k < |depthAcc| ==> depthAcc[k] >= 0.0
    {
      depthAcc := [];
      for i := 0 to |levelsNgf|
        invariant |depthAcc| == i
        invariant forall k :: 0 <= k < i ==> depthAcc[k] == LevelToDepth(levelsNgf[k], TopLevel().value)
        invariant forall k :: 0 <= k < i ==> depthAcc[k] >= 0.0
      {
        var top := TopLevel();
        var depth := LevelToDepth(levelsNgf[i], top.value);
        depthAcc := depthAcc + [depth];
      }
    }
  }

  /** Python's `max` of a non-empty list. */
  function MaxOf(xs: seq<real>): (m: real)
    requires xs != []
    ensures m in xs && forall k :: 0 <= k < |xs| ==> xs[k] <= m
  {
    if |xs| == 1 then xs[0] else Max(xs[0], MaxOf(xs[1..]))
  }

  /** The log of the module: the top level is 97 and the depths start at 0. */
  lemma LogSample()
    ensures MaxOf([97.0, 95.5, 94.0, 92.5, 91.0, 89.5, 88.0, 86.5, 85.0, 83.5, 82.0, 80.5]) == 97.0
  {
    var xs := [97.0, 95.5, 94.0, 92.5, 91.0, 89.5, 88.0, 86.5, 85.0, 83.5, 82.0, 80.5];
    assert 97.0 in xs;
    assert forall k :: 0 <= k < |xs| ==> xs[k] <= 97.0;
  }
}
