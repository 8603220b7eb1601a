/** The lithology of the application script pile_app.py: the row validator
    `validate_soils_df`, the loop that turns the applied table into the
    `couches_sols` list of `Soil` layers, and `ensure_origin` of the load
    curve display. */
module PileApp {
  import opened Common
  import opened SoilModel
  import PileMesh

  // ---------------------------------------------------------------------
  // The lithology table
  // ---------------------------------------------------------------------

  /** A row of the lithology table once normalised: `zinf` is missing when
      the cell is empty (NaN), the other cells have their defaults. */
  datatype SoilRow = SoilRow(
    name: string,
    zinf: Option<real>,
    curve: string,
    pf: real,
    pl: real,
    em: real,
    alpha: real,
    typeFrot: string,
    typePointe: string)

  /** The messages of `validate_soils_df`, by kind; `line` is the row number
      counted from 1. */
  datatype LithologyError =
    | EmptyLithology
    | MissingZinf(line: int)
    | NonPositiveThickness(line: int, zinf: real, zSup: real)
    | AlphaOutOfRange(line: int, alpha: real)

  /** The row a message is about (0 for the empty table). */
  function LineOf(e: LithologyError): int {
    if e.EmptyLithology? then 0 else e.line
  }

  predicate AlphaInRange(a: real) {
    0.0 <= a <= 1.0
  }

  // ---------------------------------------------------------------------
  // validate_soils_df
  // ---------------------------------------------------------------------

  /** The messages for one row checked against the running bound zPrev: a
      missing zinf stops the row there; otherwise zinf >= zPrev, then an
      alpha outside [0, 1]. */
  function RowErrors(row: SoilRow, line: int, zPrev: real): (r: seq<LithologyError>)
    ensures forall e :: e in r ==> LineOf(e) == line
  {
    if row.zinf.None? then [MissingZinf(line)]
    else
      (if row.zinf.value >= zPrev then [NonPositiveThickness(line, row.zinf.value, zPrev)] else [])
      + (if !AlphaInRange(row.alpha) then [AlphaOutOfRange(line, row.alpha)] else [])
  }

  /** The bound after a row: its zinf, whether or not the row erred; a
      missing zinf leaves it unchanged. */
  function NextBound(row: SoilRow, zPrev: real): real {
    if row.zinf.None? then zPrev else row.zinf.value
  }

  /** The running bound after the first k rows. */
  function BoundAfter(rows: seq<SoilRow>, z1Sup: real, k: int): real
    requires 0 <= k <= |rows|
    decreases k
  {
    if k == 0 then z1Sup else NextBound(rows[k - 1], BoundAfter(rows, z1Sup, k - 1))
  }

  /** The messages for the first k rows. */
  function ErrorsUpTo(rows: seq<SoilRow>, z1Sup: real, k: int): seq<LithologyError>
    requires 0 <= k <= |rows|
    decreases k
  {
    if k == 0 then []
    else ErrorsUpTo(rows, z1Sup, k - 1) + RowErrors(rows[k - 1], k, BoundAfter(rows, z1Sup, k - 1))
  }

  /** What `validate_soils_df(df, z1_sup)` returns. */
  function ValidationErrors(rows: seq<SoilRow>, z1Sup: real): seq<LithologyError> {
    if |rows| == 0 then [EmptyLithology] else ErrorsUpTo(rows, z1Sup, |rows|)
  }

  /** `validate_soils_df`: an empty table gives its one message at once;
      otherwise each row is checked against the running bound. */
  method ValidateSoilsDf(rows: seq<SoilRow>, z1Sup: real) returns (errors: seq<LithologyError>)
    ensures errors == ValidationErrors(rows, z1Sup)
  {
    errors := [];
    if |rows| == 0 {
      errors := errors + [EmptyLithology];
      return;
    }
    var zPrev := z1Sup;
    for i := 0 to |rows|
      invariant zPrev == BoundAfter(rows, z1Sup, i)
      invariant errors == ErrorsUpTo(rows, z1Sup, i)
    {
      var row := rows[i];
      if row.zinf.None? {
        assert RowErrors(row, i + 1, zPrev) == [MissingZinf(i + 1)];
        errors := errors + [MissingZinf(i + 1)];
        continue;
      }
      var zi := row.zinf.value;
      var rowErrors: seq<LithologyError> := [];
      if zi >= zPrev {
        rowErrors := rowErrors + [NonPositiveThickness(i + 1, zi, zPrev)];
      }
      var a := row.alpha;
      if !(0.0 <= a <= 1.0) {
        rowErrors := rowErrors + [AlphaOutOfRange(i + 1, a)];
      }
      assert rowErrors == RowErrors(row, i + 1, zPrev);
      errors := errors + rowErrors;
      zPrev := zi;
    }
  }

  /** An empty table gives exactly one message. */
  lemma EmptyTable(z1Sup: real)
    ensures ValidationErrors([], z1Sup) == [EmptyLithology]
  {
  }

  /** The messages of the first k rows are about rows 1 .. k. */
  lemma {:induction false} ErrorLines(rows: seq<SoilRow>, z1Sup: real, k: int)
    requires 0 <= k <= |rows|
    ensures forall e :: e in ErrorsUpTo(rows, z1Sup, k) ==> 1 <= LineOf(e) <= k
    decreases k
  {
    if k > 0 {
      ErrorLines(rows, z1Sup, k - 1);
      var prev := ErrorsUpTo(rows, z1Sup, k - 1);
      var last := RowErrors(rows[k - 1], k, BoundAfter(rows, z1Sup, k - 1));
      assert ErrorsUpTo(rows, z1Sup, k) == prev + last;
      forall e | e in prev + last
        ensures 1 <= LineOf(e) <= k
      {
        if e !in prev {
          assert e in last;
        }
      }
    }
  }

  /** The messages about row k + 1 are those of that row, checked against
      the bound left by the rows above it. */
  lemma {:induction false} ErrorsOfRow(rows: seq<SoilRow>, z1Sup: real, n: int, k: int)
    requires 0 <= k < n <= |rows|
    ensures forall e :: LineOf(e) == k + 1 ==>
      (e in ErrorsUpTo(rows, z1Sup, n) <==> e in RowErrors(rows[k], k + 1, BoundAfter(rows, z1Sup, k)))
    decreases n
  {
    if n == k + 1 {
      ErrorLines(rows, z1Sup, k);
    } else {
      ErrorsOfRow(rows, z1Sup, n - 1, k);
    }
  }

  /** The running bound is the last zinf present above row k + 1, or z1_sup
      when there is none. */
  lemma {:induction false} BoundIsLastZinf(rows: seq<SoilRow>, z1Sup: real, k: int)
    requires 0 <= k <= |rows|
    ensures (forall i :: 0 <= i < k ==> rows[i].zinf.None?) ==> BoundAfter(rows, z1Sup, k) == z1Sup
    ensures forall j :: 0 <= j < k && rows[j].zinf.Some? && (forall i :: j < i < k ==> rows[i].zinf.None?) ==>
      BoundAfter(rows, z1Sup, k) == rows[j].zinf.value
    decreases k
  {
    if k > 0 {
      BoundIsLastZinf(rows, z1Sup, k - 1);
    }
  }

  /** Row k + 1 is reported as missing its zinf exactly when it is; when
      zinf is present it is reported too thick exactly when zinf is not
      below the running bound, and its alpha exactly when alpha is outside
      [0, 1]; a row without zinf has neither of the two other messages. */
  lemma RowChecks(rows: seq<SoilRow>, z1Sup: real, k: int)
    requires 0 <= k < |rows|
    ensures var errs := ValidationErrors(rows, z1Sup);
      var zPrev := BoundAfter(rows, z1Sup, k);
      && (MissingZinf(k + 1) in errs <==> rows[k].zinf.None?)
      && (rows[k].zinf.Some? ==>
            (NonPositiveThickness(k + 1, rows[k].zinf.value, zPrev) in errs <==> rows[k].zinf.value >= zPrev))
      && (rows[k].zinf.Some? ==>
            (AlphaOutOfRange(k + 1, rows[k].alpha) in errs <==> !AlphaInRange(rows[k].alpha)))
      && (rows[k].zinf.None? ==>
            forall e :: e in errs && LineOf(e) == k + 1 ==> e == MissingZinf(k + 1))
  {
    ErrorsOfRow(rows, z1Sup, |rows|, k);
    var errs := ValidationErrors(rows, z1Sup);
    var zPrev := BoundAfter(rows, z1Sup, k);
    assert LineOf(MissingZinf(k + 1)) == k + 1;
    if rows[k].zinf.Some? {
      assert LineOf(NonPositiveThickness(k + 1, rows[k].zinf.value, zPrev)) == k + 1;
      assert LineOf(AlphaOutOfRange(k + 1, rows[k].alpha)) == k + 1;
    }
  }

  /** The first k rows all have a zinf, strictly falling from below z1_sup,
      and an alpha in [0, 1]. */
  ghost predicate AcceptedUpTo(rows: seq<SoilRow>, z1Sup: real, k: int)
    requires 0 <= k <= |rows|
  {
    && (forall i :: 0 <= i < k ==> rows[i].zinf.Some? && AlphaInRange(rows[i].alpha))
    && (k > 0 ==> rows[0].zinf.value < z1Sup)
    && (forall i :: 0 < i < k ==> rows[i].zinf.value < rows[i - 1].zinf.value)
  }

  lemma {:induction false} NoErrorsUpTo(rows: seq<SoilRow>, z1Sup: real, k: int)
    requires 0 <= k <= |rows|
    ensures ErrorsUpTo(rows, z1Sup, k) == [] <==> AcceptedUpTo(rows, z1Sup, k)
    ensures AcceptedUpTo(rows, z1Sup, k) && k > 0 ==> BoundAfter(rows, z1Sup, k) == rows[k - 1].zinf.value
    decreases k
  {
    if k > 0 {
      NoErrorsUpTo(rows, z1Sup, k - 1);
      var pre := ErrorsUpTo(rows, z1Sup, k - 1);
      var own := RowErrors(rows[k - 1], k, BoundAfter(rows, z1Sup, k - 1));
      assert ErrorsUpTo(rows, z1Sup, k) == pre + own;
      assert |pre + own| == |pre| + |own|;
      if AcceptedUpTo(rows, z1Sup, k) {
        assert AcceptedUpTo(rows, z1Sup, k - 1);
      }
    }
  }

  /** The table is accepted (no message) exactly when it is not empty,
      every zinf is present and falls strictly from below z1_sup, and every
      alpha is in [0, 1]. */
  lemma ValidIff(rows: seq<SoilRow>, z1Sup: real)
    ensures ValidationErrors(rows, z1Sup) == [] <==> |rows| > 0 && AcceptedUpTo(rows, z1Sup, |rows|)
  {
    if |rows| > 0 {
      NoErrorsUpTo(rows, z1Sup, |rows|);
    }
  }

  // ---------------------------------------------------------------------
  // The couches_sols loop
  // ---------------------------------------------------------------------

  /** A layer from a row whose top is zSup: `soil_type` keeps its default
      and `fsol`, an exponential law of the friction curve and pl, is
      given. */
  function LayerOf(row: SoilRow, zSup: real, fsol: (string, real) -> real): Soil
    requires row.zinf.Some?
  {
    Soil(row.name, zSup, row.zinf.value, row.curve, row.pf, row.pl, row.em, row.alpha,
         Granulaire, fsol(row.curve, row.pl))
  }

  /** Every row has its zinf, as in an applied table. */
  predicate AllZinf(rows: seq<SoilRow>) {
    forall i :: 0 <= i < |rows| ==> rows[i].zinf.Some?
  }

  /** The top of layer k: z1_sup for the first, the zinf of the row above
      for the others. */
  function TopOf(rows: seq<SoilRow>, z1Sup: real, k: int): real
    requires AllZinf(rows) && 0 <= k < |rows|
  {
    if k == 0 then z1Sup else rows[k - 1].zinf.value
  }

  /** The layers the loop builds from the first k rows. */
  function LayersUpTo(rows: seq<SoilRow>, z1Sup: real, fsol: (string, real) -> real, k: int): (r: seq<Soil>)
    requires AllZinf(rows) && 0 <= k <= |rows|
    ensures |r| == k
    decreases k
  {
    if k == 0 then []
    else LayersUpTo(rows, z1Sup, fsol, k - 1) + [LayerOf(rows[k - 1], TopOf(rows, z1Sup, k - 1), fsol)]
  }

  /** The loop building `couches_sols` over the applied table: each layer
      starts at the running level z, which then moves to its zinf. */
  method BuildLayers(rows: seq<SoilRow>, z1Sup: real, fsol: (string, real) -> real) returns (couches: seq<Soil>)
    requires AllZinf(rows)
    ensures couches == LayersUpTo(rows, z1Sup, fsol, |rows|)
  {
    couches := [];
    var z := z1Sup;
    for k := 0 to |rows|
      invariant couches == LayersUpTo(rows, z1Sup, fsol, k)
      invariant k < |rows| ==> z == TopOf(rows, z1Sup, k)
    {
      var row := rows[k];
      var sol := LayerOf(row, z, fsol);
      couches := couches + [sol];
      z := row.zinf.value;
    }
  }

  /** The layers: one per row, in order, with the row's data, the first
      starting at z1_sup and each later one at the zinf of the row above;
      so they always pass `check_stratigraphy`. */
  lemma {:induction false} LayersShape(rows: seq<SoilRow>, z1Sup: real, fsol: (string, real) -> real, k: int)
    requires AllZinf(rows) && 0 <= k <= |rows|
    ensures var ls := LayersUpTo(rows, z1Sup, fsol, k);
      && |ls| == k
      && (k > 0 ==> ls[0].levelSup == z1Sup)
      && (forall i :: 0 <= i < k ==>
            && ls[i].name == rows[i].name && ls[i].levelInf == rows[i].zinf.value
            && ls[i].courbeFrottement == rows[i].curve && ls[i].alpha == rows[i].alpha
            && ls[i].pf == rows[i].pf && ls[i].pl == rows[i].pl && ls[i].em == rows[i].em)
      && (forall i :: 0 < i < k ==> ls[i].levelSup == rows[i - 1].zinf.value)
      && PileMesh.Contiguous(ls)
    decreases k
  {
    if k > 0 {
      LayersShape(rows, z1Sup, fsol, k - 1);
    }
  }

  /** Built from a table the validator accepts, every layer has a positive
      thickness (level_inf < level_sup). */
  lemma AcceptedLayersHaveThickness(rows: seq<SoilRow>, z1Sup: real, fsol: (string, real) -> real)
    requires ValidationErrors(rows, z1Sup) == []
    ensures AllZinf(rows)
    ensures forall i :: 0 <= i < |rows| ==>
      LayersUpTo(rows, z1Sup, fsol, |rows|)[i].levelInf < LayersUpTo(rows, z1Sup, fsol, |rows|)[i].levelSup
  {
    ValidIff(rows, z1Sup);
    LayersShape(rows, z1Sup, fsol, |rows|);
  }

  /** The loop as written: `Soil` is called with the keywords
      `friction_type` and `end_type`, which the dataclass does not declare,
      so the first row already raises TypeError. */
  function BuildLayersAsWritten(rows: seq<SoilRow>, z1Sup: real): (r: Result<seq<Soil>, Fault>)
    ensures |rows| == 0 <==> r == Success([])
    ensures |rows| > 0 <==> r == Failure(TypeError)
  {
    if |rows| == 0 then Success([]) else Failure(TypeError)
  }

  /** The application's default table (two layers of marl down to -5 and
      -12 below z1_sup = 0). */
  const DefaultRows: seq<SoilRow> := [
    SoilRow("Marnes", Some(-5.0), "Q4", 0.7, 1.0, 5.0, 2.0 / 3.0, "granulaire", "fin"),
    SoilRow("Marnes", Some(-12.0), "Q4", 2.5, 5.0, 20.0, 0.5, "granulaire", "fin")]

  /** The default table passes the validator, yet the loop as written
      cannot build a single layer from it, while the corrected loop builds
      two contiguous layers. */
  lemma DefaultTableFailsAsWritten(fsol: (string, real) -> real)
    ensures ValidationErrors(DefaultRows, 0.0) == []
    ensures BuildLayersAsWritten(DefaultRows, 0.0) == Failure(TypeError)
    ensures var ls := LayersUpTo(DefaultRows, 0.0, fsol, 2);
      |ls| == 2 && ls[0].levelSup == 0.0 && ls[0].levelInf == -5.0 && ls[1].levelSup == -5.0
      && ls[1].levelInf == -12.0 && PileMesh.Contiguous(ls)
  {
    ValidIff(DefaultRows, 0.0);
    LayersShape(DefaultRows, 0.0, fsol, 2);
  }

  // ---------------------------------------------------------------------
  // ensure_origin
  // ---------------------------------------------------------------------

  /** The point lies within 1e-12 of the origin in both coordinates. */
  predicate NearOrigin(p: (real, real)) {
    Abs(p.0) < 0.000000000001 && Abs(p.1) < 0.000000000001
  }

  predicate HasOrigin(pts: seq<(real, real)>) {
    exists i :: 0 <= i < |pts| && NearOrigin(pts[i])
  }

  /** `ensure_origin`: (0, 0) is appended unless a point already lies
      within 1e-12 of the origin. */
  function EnsureOrigin(pts: seq<(real, real)>): (r: seq<(real, real)>)
    ensures HasOrigin(r)
    ensures pts <= r && |r| <= |pts| + 1
    ensures r == pts <==> HasOrigin(pts)
    ensures !HasOrigin(pts) ==> r == pts + [(0.0, 0.0)]
  {
    if HasOrigin(pts) then pts
    else
      var r := pts + [(0.0, 0.0)];
      assert NearOrigin(r[|pts|]);
      r
  }

  /** Applying `ensure_origin` twice is applying it once. */
  lemma EnsureOriginIdempotent(pts: seq<(real, real)>)
    ensures EnsureOrigin(EnsureOrigin(pts)) == EnsureOrigin(pts)
  {
  }
}
