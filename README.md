# Axial pile load transfer (NF P94-262, t-z / q-z method)

This project models the axial load-transfer engine of the `geotech_module`
package and the lithology handling of its `pile_app.py` front end. A single
pile under a vertical head load is cut into slices, one soil layer at a
time. Each slice carries skin friction along its shaft through a tri-linear
t-z law; the tip carries end bearing through a q-z law. The engine does two
things:

- it chains the slice equilibria from an imposed tip displacement up to the
  head, solving each slice's midpoint displacement with a 1 x 1
  Newton-Raphson solver;
- it runs a shooting search from the head down to the tip: it clamps a
  guess, scans for a sign change of the base residual, and otherwise
  falls back to the best sample or bisects.

The settlement curve sweeps head loads between -0.99 Rs and 0.99 R.

Layout, one Dafny module per source file:

| file | module | source |
|---|---|---|
| common.dfy | `Common` | Python exceptions as `Fault`, `Option`, `Result`, π |
| utils.dfy | `Utils` | `geotech_module/utils.py` |
| tolerance.dfy | `Tolerance` | `geotech_module/tolerance.py` |
| solver.dfy | `Solver` | `geotech_module/solver.py` |
| soil.dfy | `SoilModel` | `geotech_module/soil.py` |
| slice_laws.dfy | `SliceLaws` | the slice attributes shared by `SliceTB` and `SlicePile` |
| slice_tb.dfy | `SliceTBModel` | `geotech_module/slice_tb.py` |
| slice_pile.dfy | `SlicePileModel` | `SlicePile` in `geotech_module/pieu.py` |
| pile_mesh.dfy | `PileMesh` | stratigraphy and meshing of `Pile` |
| search.dfy | `ShootingSearch` | the bracket scan and bisection of `equilibre_top_down_Qtete` |
| pile.dfy | `PileModel` | `Pile` in `geotech_module/pieu.py` |
| pile_app.dfy | `PileApp` | `validate_soils_df`, the `couches_sols` loop and `ensure_origin` of `pile_app.py` |

How the model handles the source's non-value behaviour:

- **Exceptions.** A Python exception is a `Failure(fault)`. The error path
  taken is the one the code takes: a division by zero, `abs` of a list, a
  missing dictionary key, an attribute of `None`.
- **Arithmetic.** Arithmetic is exact `real` arithmetic.
- **Mutable objects.** Objects the source mutates are classes: the solver,
  `SliceTB`, `SlicePile`, `LogPressio` and `Pile`. Loops that append or
  accumulate are methods with loop invariants. Each such method is proved
  equal to a specification function, and the properties are proved about
  that function.
- **Functions passed in.** The function the solver drives, the residual of
  the shooting search and the head-settlement function of the sweep are
  function values. That includes numpy's broadcasting where it decides a
  branch.

Where the code and its documentation disagree, the model follows the code.

- **Non-convergence.** A slice solve that does not converge leaves the
  sentinel `[0.0]` as the midpoint displacement. `tau([0.0])` then raises
  `TypeError` (`abs` of a list). `SliceTB.propagate` and
  `SlicePile.equilibre` therefore fail on non-convergence. The face
  relations hold only on the success path.
- **Exact zero root.** `equilibre_Q_top` compares the root with `[0.]`. That
  comparison is also true for a converged root equal to exactly `0.0`, so the
  method returns `None` there too.
- **Rising curve.** The docstring of `rising_curve` promises a check that the
  list increases, but the code compares every element with the first one only.
  `Utils.RisingCurve` follows the code. The two readings agree on the
  descending level lists the pressuremeter log produces, whose later levels
  lie below the first.

## Model

| member | source | states |
|---|---|---|
| Common.IsCloseToZeroIsExact | geotech_module/tolerance.py:12 | `math.isclose(x, 0)` with a zero absolute tolerance holds exactly when x is 0 |
| Utils.TriLinearLaw | geotech_module/utils.py:143-176 | fails exactly when k1 = 0, or k2 is given and is 0 or q2 is missing. Both zero divisions are `ZeroDivisionError`. Every s <= 0 gives 0 |
| Utils.TriLinearLawFailsBeforeReadingS | geotech_module/utils.py:155-167 | whether the law fails, and with which error, does not depend on s: both divisions happen before s is read |
| Utils.TriLinearBreakpoints | geotech_module/utils.py:164-176 | the law equals q1 at s1 and q2 at s2, so the branches join continuously |
| Utils.TriLinearMonotone | geotech_module/utils.py:169-176 | with positive slopes and 0 <= q1 <= q2 the law is non-decreasing and stays within [0, q2] |
| Utils.TriLinearBounded | geotech_module/utils.py:169-176 | the law is non-negative, at most q1 up to s1, at least q1 beyond s1, and never above q2 |
| Utils.BiLinearPlateau | geotech_module/utils.py:160-162 | without k2 the law is the constant q1 beyond s1, whatever q2 was passed |
| Utils.SkinFrictionLaw | geotech_module/utils.py:121-129 | fails with `ZeroDivisionError` exactly when ks = 0. Otherwise it is the odd extension of the positive-side law |
| Utils.SkinFrictionOdd | geotech_module/utils.py:126-129 | f(-s) = -f(s) and f(0) = 0 |
| Utils.SkinFrictionBounded | geotech_module/utils.py:121-129 | with qs >= 0 and ks > 0, \|f(s)\| <= qs for every s |
| Utils.SkinFrictionSamples | geotech_module/test_utils.py:36-42 | at qs 0.2, Kt 4 the tested values 0.05, 0.15 and 0.2; at s = -0.01 the odd law gives -0.04, not the 0 the test expects |
| Utils.SkinFrictionSamplesLarge | geotech_module/test_utils.py:54-58 | at qs 200, ks 5000 the tested values 50, 150 and 200; at s = -0.01 the odd law gives -50, not the 0 the test expects |
| Utils.EndBearingLaw | geotech_module/utils.py:132-140 | fails with `ZeroDivisionError` exactly when kp = 0. Otherwise it is the tri-linear law with s1 = qp/(2kp) and s2 = 3qp/kp |
| Utils.EndBearingShape | geotech_module/utils.py:132-140 | 0 for every s <= 0, and qp for every s >= 3qp/kp |
| Utils.EndBearingSamples | geotech_module/test_utils.py:45-65 | the tested points for qp 0.2, kp 4 and qp 200, kp 5000 |
| Utils.MaxList | geotech_module/utils.py:6-13 | -inf on the empty list. Otherwise an element of the list that bounds every element from above |
| Utils.MinList | geotech_module/utils.py:16-23 | +inf on the empty list. Otherwise an element of the list that bounds every element from below |
| Utils.RisingCurve | geotech_module/utils.py:67-78 | `IndexError` on the empty list. Otherwise true exactly when every element is >= the first one, because the reference element is never advanced |
| Utils.ReverseAt | geotech_module/utils.py:81-88 | element k of the reversal is element \|xs\|-1-k |
| Utils.ReverseInvolution | geotech_module/utils.py:81-88 | reversing twice gives the list back |
| Utils.InvertList | geotech_module/utils.py:81-88 | the appending loop yields the reversed list, element by element |
| Tolerance.NonZeroValuesExact | geotech_module/tolerance.py:9-14 | a value is kept exactly when it is in the list and is not 0 |
| Tolerance.ListOfValues | geotech_module/tolerance.py:9-14 | the filtering loop keeps exactly the non-zero values, in order |
| Tolerance.MinOf | geotech_module/tolerance.py:19 | `min` of a non-empty list is an element that bounds every element from below |
| Tolerance.Value | geotech_module/tolerance.py:16-32 | always strictly positive. It is 1e-5 without a non-zero value, and \|min of the non-zero values\| / 10000 otherwise |
| Tolerance.ValueIgnoresLargerValues | geotech_module/tolerance.py:23-32 | appending a value at least the current minimum leaves the tolerance unchanged, because `_big` also takes the minimum |
| Tolerance.NonZeroValuesAppend | geotech_module/tolerance.py:9-14 | filtering distributes over appending one value |
| Tolerance.MinOfAppend | geotech_module/tolerance.py:19 | appending a value at least the minimum keeps the minimum |
| Tolerance.MinOfLower | geotech_module/tolerance.py:19 | appending a value at most the minimum makes it the minimum |
| Tolerance.ValueSamples | geotech_module/tolerance.py:30-32 | the tolerance of [0], [3] and [-2, 0, 5] |
| Solver.OperatorPhi11Affine | geotech_module/solver.py:48-60 | on an affine function the central difference is the exact slope |
| Solver.NewtonUpdate | geotech_module/solver.py:85-87 | the Newton step x' satisfies (x' - x) f'(x) = T - f(x) |
| Solver.NewtonFromRaises | geotech_module/solver.py:75-84 | a fault of f or of the slope at the current x is the solve's fault |
| Solver.NewtonFromStep | geotech_module/solver.py:80-94 | a zero slope stops unconverged with the sentinels. Closeness at the pre-update x stops converged, returning the updated x and f(x). Otherwise the next pass starts from the updated x |
| Solver.NewtonFromShape | geotech_module/solver.py:62-103 | the iteration count lies in i+1..21. The flag is true exactly when root and target are numbers; when false both are the sentinel `[0.0]` |
| Solver.NewtonShape | geotech_module/solver.py:62-103 | for the whole solve, the count lies in 1..21. A converged result is one Newton step past a point whose value was within tolerance of the target. An unconverged result carries the two sentinels |
| Solver.NewtonZeroSlope | geotech_module/solver.py:80-81 | a zero slope at the guess breaks at pass 1, unconverged |
| Solver.NewtonFromCongruent | geotech_module/solver.py:62-103 | the iteration depends only on the values of f |
| Solver.NewtonCongruent | geotech_module/solver.py:62-103 | the solve depends only on the values of f |
| Solver.MinusTwoSlope | geotech_module/test_solver.py:7-16 | the slope of x - 2 is 1 everywhere |
| Solver.NewtonSamples | geotech_module/test_solver.py:7-16 | x - 2 with target 3 from guess 0: converged after 2 passes, root 5 |
| Solver.NewtonRaphson11.Create | geotech_module/solver.py:13-26 | `ValueError` unless target and guess each have one element. Otherwise the result is stored, or the fault of the solve is raised |
| Solver.NewtonRaphson11.Solve | geotech_module/solver.py:62-103 | the loop computes the solve's specification function |
| Solver.NewtonRaphson11.AccessorContract | geotech_module/solver.py:32-46 | on a built solver, 1 <= iterations <= 21. The flag is true exactly when the final root, and exactly when the final target, is not the sentinel |
| SoilModel.UpperPointwise | geotech_module/soil.py:94 | the model's upper-casing, which raises only the ASCII letters a-z, keeps the length and maps each character on its own |
| SoilModel.CurveOfNames | geotech_module/soil.py:90-96 | a curve name is recognised exactly when its upper-cased form is Q1, Q12, Q2, Q3, Q4 or Q5 |
| SoilModel.Lookup | geotech_module/soil.py:106-116 | a table lookup succeeds exactly when the row key exists and the curve is recognised, and returns that cell. Otherwise it raises `KeyError` |
| SoilModel.FrottementMaxi | geotech_module/soil.py:147-154 | the F.5.2.3 cell / 1000, or 0 for a '-' cell (the TypeError is caught). A missing key still raises `KeyError` |
| SoilModel.ModuleKt | geotech_module/soil.py:156-166 | kt·B = 2·Em for 'fin' and 0.8·Em for 'granulaire'. None for another soil type, and `ZeroDivisionError` for B = 0 |
| SoilModel.ModuleKq | geotech_module/soil.py:168-178 | kq·B = 11·Em for 'fin' and 4.8·Em for 'granulaire'. None for another soil type, and `ZeroDivisionError` for B = 0 |
| SoilModel.CurveCheckMatchesLookups | geotech_module/soil.py:90-116 | `check_courbe_frottement` holds exactly when the curve is recognised. A valid curve with an existing row makes every lookup succeed; an invalid one makes them raise `KeyError` |
| SoilModel.ModuliRatio | geotech_module/soil.py:156-178 | with Em, B > 0 both moduli are positive and kq/kt is 5.5 ('fin') or 6 ('granulaire') |
| SoilModel.FrottementMaxiNonNegative | geotech_module/soil.py:147-154 | qs_max is never negative |
| SoilModel.SoilCheckSamples | geotech_module/test_soil.py:17-27 | the four test soils pass `check_courbe_frottement` |
| SoilModel.SoilSamples | geotech_module/test_soil.py:29-39 | the tested alpha (category 19) and kp_max (class 8) of the four test soils |
| SoilModel.SoilFrictionSamples | geotech_module/test_soil.py:62-66 | the tested qs_max (category 19) of the four test soils |
| SoilModel.SoilModuleSamples | geotech_module/test_soil.py:68-78 | the tested kt and kq (B = 0.25) of the four test soils |
| SoilModel.CurveNameSamples | geotech_module/soil.py:90-96 | 'q12' is recognised as Q12; 'Q6' and '' are rejected |
| SoilModel.RowSamples | geotech_module/soil.py:8-72 | tables F.4.2.1, F.5.2.1 and F.5.2.3 have 8, 20 and 20 rows. Class 8 of F.4.2.1 and category 19 of F.5.2.1 and F.5.2.3 hold the source's entries |
| SoilModel.CurveSamples | geotech_module/soil.py:90-96 | "Q1", "Q2", "Q3" and "Q4" each name their curve |
| SoilModel.LevelDepthInverse | geotech_module/soil.py:216-220 | `level_to_depth` and `depth_to_level` are mutual inverses for a fixed top level |
| SoilModel.LogPressio.TopLevel | geotech_module/soil.py:202-204 | `ValueError` on no level. Otherwise the maximum level, which is one of the levels |
| SoilModel.LogPressio.constructor | geotech_module/soil.py:193-207 | stores the four lists, and its depths are `get_depths`'s |
| SoilModel.LogPressio.GetDepths | geotech_module/soil.py:209-214 | one depth per level, each top level minus that level, all non-negative |
| SoilModel.MaxOf | geotech_module/soil.py:204 | `max` of a non-empty list is an element that bounds every element from above |
| SoilModel.LogSample | geotech_module/soil.py:301-311 | the top level of the sample log is 97 |
| SliceLaws.QsLim | geotech_module/slice_tb.py:44-48 | min(qs, qs_max): at most both operands, equal to one of them. It fails exactly when one of them fails, qs's fault first |
| SliceLaws.FrictionLaw | geotech_module/slice_tb.py:50-55 | on success the law's parameters are qs_lim and a non-zero kt |
| SliceLaws.Tau | geotech_module/slice_tb.py:54-55 | the skin-friction law at w with qs_lim and kt, or the fault of either |
| SliceLaws.SentinelFault | geotech_module/pieu.py:228-232 | the fault `tau` raises on the sentinel |
| SliceLaws.QZ | geotech_module/pieu.py:234-238 | the end-bearing law with qb and kq. A missing kq raises `TypeError` |
| SliceLaws.TauAtIsTauOfValue | geotech_module/pieu.py:228-232 | a slice's `tau` is the abstract dispatch over its own law |
| SliceLaws.SliceLevels | geotech_module/pieu.py:124-136 | z_bottom < z_middle < z_top, with the middle halfway |
| SliceLaws.TauFailsUniformly | geotech_module/slice_tb.py:54-55 | `tau` fails at one displacement exactly when it fails at every other, with the same fault |
| SliceLaws.TauBounded | geotech_module/slice_tb.py:44-55 | qs_lim <= qs_max, and \|tau(w)\| <= qs_lim when qs_lim >= 0 and kt > 0 |
| SliceTBModel.ResidualAt | geotech_module/slice_tb.py:83-91 | the midpoint residual raises `ZeroDivisionError` for EA = 0, and tau's fault at the midpoint |
| SliceTBModel.CrossSlice | geotech_module/slice_tb.py:81-128 | the seven face fields for a midpoint: Q_top - Q_bott = P·dh·tau, dz_top - dz_bott = (dh/EA)·Q_mid, Q_mid the mean of the faces, and the input face equal to the inputs in either direction |
| SliceTBModel.CrossFrom | geotech_module/slice_tb.py:94-104 | the sentinel root fails with tau's fault. A success stores the root as dz_middle and qs = tau(root) |
| SliceTBModel.PropagateSteps | geotech_module/slice_tb.py:72-128 | the propagation is the solver's result carried through the slice in the chosen direction |
| SliceTBModel.SliceTB.constructor | geotech_module/slice_tb.py:10-23 | the four attributes, with all seven state fields 0 |
| SliceTBModel.SliceTB.Propagate | geotech_module/slice_tb.py:57-128 | returns the output face. On success the seven fields hold the propagated state; a failure writes nothing |
| SliceTBModel.SliceTB.Store | geotech_module/slice_tb.py:99-102 | the seven state fields hold the given values after the call. These are the stores that end either branch (also geotech_module/slice_tb.py:123-126) |
| SliceTBModel.CrossFromRelations | geotech_module/slice_tb.py:94-128 | every successful cross satisfies the two face relations, the mean, qs = tau(dz_middle) and the input face |
| SliceTBModel.CrossUnfold | geotech_module/slice_tb.py:88-104 | a cross is the solve followed by the face computation; a solver fault is the cross's fault |
| SliceTBModel.CrossRelations | geotech_module/slice_tb.py:81-128 | the face relations of a successful cross, from any guess |
| SliceTBModel.PropagateRelations | geotech_module/slice_tb.py:57-128 | a successful `propagate` has a valid direction, the face relations, and returns its stored output face |
| SliceTBModel.CrossUnconverged | geotech_module/slice_tb.py:88-97 | an unconverged solve makes the cross fail with the sentinel's fault |
| SliceTBModel.CrossAlgebra | geotech_module/slice_tb.py:85-121 | the two midpoint equations differ only by the face the force is counted from |
| SliceTBModel.ResidualsAgree | geotech_module/slice_tb.py:88-89 | a midpoint's bottom-to-top residual equals its top-to-bottom residual from the produced top face |
| SliceTBModel.CrossFromRoundTrip | geotech_module/slice_tb.py:81-128 | the face computation from the produced top face gives back the bottom-to-top state |
| SliceTBModel.CrossRoundTrip | geotech_module/slice_tb.py:81-128 | crossing bottom to top, then top to bottom from the produced top face with the same guess, gives the same state |
| SliceTBModel.PropagateRoundTrip | geotech_module/slice_tb.py:57-128 | `propagate('top_to_bottom')` from a `propagate('bottom_to_top')` result, with the same guess, returns the original bottom face |
| SlicePileModel.KsiAValue | geotech_module/pieu.py:214-219 | ksi_a·π·Dp²·Eb = 2·Q_bott·dh, and `ZeroDivisionError` exactly when π·Dp²·Eb = 0 |
| SlicePileModel.KsiBValue | geotech_module/pieu.py:221-226 | ksi_b·2·Dp²·Eb = Ds·dh², and `ZeroDivisionError` exactly when the divisor is 0 |
| SlicePileModel.KsiFailTogether | geotech_module/pieu.py:214-226 | ksi_a and ksi_b fail together, exactly when Dp or Eb is 0 |
| SlicePileModel.QTopValue | geotech_module/pieu.py:247-252 | Q_middle is the mean of Q_top and Q_bott, and Q_top fails exactly when Q_middle does |
| SlicePileModel.DzTopValue | geotech_module/pieu.py:254-259 | (dz_top - dz_bott)·π·Dp²·Eb = 4·Q_middle·dh, or `ZeroDivisionError` |
| SlicePileModel.FValue | geotech_module/pieu.py:265-271 | F(z) = dz_bott + ksi_a + ksi_b·tau(z) - z, or the first fault |
| SlicePileModel.OutputsRelations | geotech_module/pieu.py:247-280 | the sentinel root fails with its fault. A success returns Q_top and dz_top satisfying the slice relations |
| SlicePileModel.MidpointAlgebra | geotech_module/pieu.py:214-271 | the algebra behind a root of F |
| SlicePileModel.RootIsHalfSliceShortening | geotech_module/pieu.py:214-271 | at an exact root z of F, (z - dz_bott)·EA' = dh·(Q_bott + Q_middle): the half-slice shortens under the mean of its end forces |
| SlicePileModel.UnconvergedStoresSentinel | geotech_module/pieu.py:273-280 | an unconverged solve stores the sentinel as dz_middle |
| SlicePileModel.SampleSliceValues | geotech_module/test_pieu.py:60-75 | the tested slice: its tip section is 0.0176715 to seven decimals and its perimeter 0.785398 to six. Its ksi_b is computed, and is close to 2.77777777778e-6 under `math.isclose`'s default tolerance |
| SlicePileModel.SlicePile.constructor | geotech_module/pieu.py:87-104 | the four attributes, with Q_bott = dz_bott = dz_middle = 0 |
| SlicePileModel.SlicePile.SetQBott | geotech_module/pieu.py:106-110 | sets Q_bott and nothing else |
| SlicePileModel.SlicePile.SetDzBott | geotech_module/pieu.py:112-116 | sets dz_bott and nothing else |
| SlicePileModel.SlicePile.SetDzMiddle | geotech_module/pieu.py:118-122 | sets dz_middle and nothing else |
| SlicePileModel.SlicePile.Equilibre | geotech_module/pieu.py:273-280 | solves F from the guess and stores the root. It returns (Q_top, dz_top) or the fault; Q_bott and dz_bott are unchanged |
| PileMesh.CheckStratigraphy | geotech_module/pieu.py:590-602 | true exactly when each layer's level_sup equals the previous layer's level_inf. It does not compare a layer's own bounds |
| PileMesh.SoilAt | geotech_module/pieu.py:604-611 | a found soil is in the lithology and holds the level. None exactly when no layer holds it |
| PileMesh.SoilAtIsFirst | geotech_module/pieu.py:608-610 | the result is the first layer that holds the level |
| PileMesh.SharedBoundaryGoesUp | geotech_module/pieu.py:604-611 | in contiguous stratigraphy a shared boundary belongs to the upper layer |
| PileMesh.LevelsDescend | geotech_module/pieu.py:590-602 | in contiguous stratigraphy of positive thicknesses the lower bounds strictly descend |
| PileMesh.GetSoilFromLevel | geotech_module/pieu.py:604-611 | the loop returns the first layer holding the level, or None |
| PileMesh.Ceil | geotech_module/pieu.py:636 | `math.ceil`: (n-1) < x <= n |
| PileMesh.JoinNil | geotech_module/pieu.py:669-677 | concatenating onto no slice is the identity |
| PileMesh.JoinStep | geotech_module/pieu.py:646-661 | one turn of `create_slices` adds the slice whose soil is found at its middle level |
| PileMesh.CreateSlices | geotech_module/pieu.py:631-663 | the loop computes the specification of `create_slices`, including the `AttributeError` of a middle level outside the lithology |
| PileMesh.SlicesFromShape | geotech_module/pieu.py:646-661 | count slices of the same height, slice k at z_top - k·dh, with the soil at its middle |
| PileMesh.Stacked | geotech_module/pieu.py:646-661 | slices stacked top-down tile [z - h, z] with no gap |
| PileMesh.StackedAt | geotech_module/pieu.py:658 | slice k has z_top = z - k·dh |
| PileMesh.Spread | geotech_module/pieu.py:646-661 | k·dh and k·dh + dh stay within [0, h] |
| PileMesh.TileShape | geotech_module/pieu.py:646-661 | slices of one height dh <= thickness, stacked from z down with their midpoints in their layers, end at z - h with no gap. Each is at most the thickness high |
| PileMesh.EvenSplit | geotech_module/pieu.py:637 | n slices of height h / n add up to h |
| PileMesh.SlicesTile | geotech_module/pieu.py:631-663 | ceil((max - min)/thickness) slices, each at most thickness high, tiling [min, max] top-down, the first at max and the last ending at min |
| PileMesh.HeightWithinThickness | geotech_module/pieu.py:636-637 | n = ceil(h/t) >= 1 and 0 < h/n <= t |
| PileMesh.MaillagePieu | geotech_module/pieu.py:665-678 | the loop computes the per-layer meshing clipped to the pile, skipping layers without positive overlap |
| PileMesh.MeshFailurePersists | geotech_module/pieu.py:665-678 | a meshing failure at one layer is the final result |
| PileMesh.MeshWithinPile | geotech_module/pieu.py:665-678 | every slice of the mesh lies within [level_bott, level_top] and has positive height at most thickness |
| PileMesh.MeshSample | geotech_module/test_soil.py:17-20 | a model-side sample on the four test layers (no test of the source checks these): they pass `check_stratigraphy` (geotech_module/pieu.py:590-602); `get_soil_from_level` (geotech_module/pieu.py:604-611) gives level -1.0 to the upper layer, -1.5 to the second, and no layer to -25.0; and three values of `math.ceil` as `create_slices` uses it (geotech_module/pieu.py:636) |
| ShootingSearch.Clamp | geotech_module/pieu.py:804-806 | the clamped guess lies in the interval; it is the guess when inside and the nearer bound otherwise |
| ShootingSearch.Interval | geotech_module/pieu.py:798-802 | [-\|w_max\|, 0] in traction, otherwise [0, \|w_max\|] |
| ShootingSearch.SampleBounds | geotech_module/pieu.py:815-817 | the samples w_lo + (w_hi - w_lo)·i/n stay in the interval, from w_lo at 0 to w_hi at n |
| ShootingSearch.PointInInterval | geotech_module/pieu.py:804-817 | the initial point and every sample are in the interval |
| ShootingSearch.ScanBracket | geotech_module/pieu.py:811-830 | a bracket found by the scan is two consecutive candidates with a strict sign change, and no earlier consecutive pair had one |
| ShootingSearch.ScanNoBracket | geotech_module/pieu.py:811-834 | without a bracket, no consecutive pair changes sign, and the result is the first candidate of least absolute residual, the initial point included |
| ShootingSearch.FirstBracketBack | geotech_module/pieu.py:817-828 | a first sign change found from sample i + 1 is still the first one from sample i when samples i - 1 and i keep their sign |
| ShootingSearch.BestSoFarStep | geotech_module/pieu.py:817-822 | taking sample i into account keeps the first point of least absolute residual. The best point moves to sample i exactly when its absolute residual is strictly smaller |
| ShootingSearch.ScanNoBracketStep | geotech_module/pieu.py:817-828 | a scan that ends without a bracket computed sample i's residual, found it of the same sign as the previous one, and went on from sample i + 1 |
| ShootingSearch.ScanNoBracketKept | geotech_module/pieu.py:811-833 | a scan with no bracket computed every residual, and no two consecutive samples change sign strictly |
| ShootingSearch.ScanNoBracketBest | geotech_module/pieu.py:811-833 | a scan with no bracket returns the first point of least absolute residual among the guess and the samples |
| ShootingSearch.Pow2 | geotech_module/pieu.py:836-855 | the halving factor is at least 1 |
| ShootingSearch.SignSplit | geotech_module/pieu.py:845-853 | a non-zero midpoint residual keeps a sign change on one side |
| ShootingSearch.MidpointBetween | geotech_module/pieu.py:838-853 | the midpoint lies in the interval and halves it |
| ShootingSearch.OutcomeOfHalf | geotech_module/pieu.py:836-855 | the outcome stated on a half interval carries over to the whole one |
| ShootingSearch.BisectKeepsBracket | geotech_module/pieu.py:836-855 | the bisection returns a midpoint within tolerance, or the midpoint of a final interval that still brackets a sign change and is 2^-n of the original |
| ShootingSearch.Search | geotech_module/pieu.py:804-855 | the search loops compute the search's specification function |
| ShootingSearch.BisectInside | geotech_module/pieu.py:836-855 | the bisection's result lies in its starting interval |
| ShootingSearch.SearchInInterval | geotech_module/pieu.py:798-855 | the displacement returned lies in the search interval |
| ShootingSearch.BisectFromBracket | geotech_module/pieu.py:836-855 | from a scanned bracket, the result is within tolerance or is the midpoint of a halved sign-change interval |
| ShootingSearch.SearchOutcome | geotech_module/pieu.py:804-855 | the result is within tolerance, or the scan's best sample, or a bisected sign-change midpoint |
| PileModel.PileClasse | geotech_module/pieu.py:365-370 | categories 1..20 map to classes 1..8. Any other category raises `KeyError` |
| PileModel.KpMaxAtTip | geotech_module/pieu.py:530-535 | kp_max of the soil at the tip level, `AttributeError` when none holds it. An unknown category raises `KeyError` |
| PileModel.KpUtilValue | geotech_module/pieu.py:520-528 | `ZeroDivisionError` for Ds = 0, kp_max's fault otherwise. Success is the piecewise law of Def/Ds |
| PileModel.KpBranchIsRatio | geotech_module/pieu.py:525-528 | the lower branch, written with 5·Ds, is the law of the ratio Def/Ds |
| PileModel.KpBranchesMeet | geotech_module/pieu.py:525-528 | the lower branch 1 + (kp_max - 1)·h_e/(5·Ds) equals kp_max at h_e = 5·Ds, so the two branches agree at the switch point |
| PileModel.KpOfRatioShape | geotech_module/pieu.py:520-528 | with kp_max >= 1, kp_util lies in [1, kp_max], does not decrease with the ratio and is 1 at 0 |
| PileModel.ALongueur | geotech_module/pieu.py:576-581 | a = max(Dp/2, 0.5) |
| PileModel.BLength | geotech_module/pieu.py:583-588 | b = min(a, height) |
| PileModel.SkinTerms | geotech_module/pieu.py:487-489 | one term per slice |
| PileModel.SumUpToFailure | geotech_module/pieu.py:487-490 | the sum fails exactly when a term fails, with the first failing term's fault |
| PileModel.SumFailurePersists | geotech_module/pieu.py:487-490 | once the sum fails it stays failed |
| PileModel.SumNonNegative | geotech_module/pieu.py:487-490 | non-negative terms give a non-negative sum |
| PileModel.SumStep | geotech_module/pieu.py:489 | one accumulation step |
| PileModel.ShaftForceNonNegative | geotech_module/pieu.py:489 | perimeter·qs_lim·dh >= 0 for non-negative factors |
| PileModel.SkinTermNonNegative | geotech_module/pieu.py:489 | a slice with non-negative Ds, dh and qs_lim contributes a non-negative force |
| PileModel.SkinResistanceNonNegative | geotech_module/pieu.py:483-490 | Rs >= 0 when every slice has non-negative Ds, dh and qs_lim |
| PileModel.ChainStep | geotech_module/pieu.py:702-707 | one turn of the bottom-up loop: the slice above takes the face below as input |
| PileModel.ChainFailurePersists | geotech_module/pieu.py:702-707 | a failing slice's fault is the chain's fault |
| PileModel.StepRelations | geotech_module/pieu.py:703-707 | a successful slice step has a root, and its output face satisfies the slice relations with the input face |
| PileModel.OutputsFaces | geotech_module/pieu.py:247-280 | the pair a slice returns, from any root it stored, satisfies the face relations: the root is a number, Q_top - Q_bott = pi·Ds·dh·tau(root), and (dz_top - dz_bott)·pi·Dp²·Eb = 4·Q_middle·dh |
| PileModel.ChainRelations | geotech_module/pieu.py:701-708 | each slice's output face is the input face of the slice above |
| PileModel.SolveSlice | geotech_module/pieu.py:703-707 | sets the input face, solves the slice and returns its step; on success the slice holds the faces |
| PileModel.DownStepIsPropagate | geotech_module/pieu.py:776-781 | the top-down chain's step is `propagate('top_to_bottom')` from the default guess |
| PileModel.DownStepNext | geotech_module/pieu.py:776-781 | one turn of the top-down propagation |
| PileModel.DownFailurePersists | geotech_module/pieu.py:776-781 | a failing slice's fault is the propagation's fault |
| PileModel.DownRelations | geotech_module/pieu.py:776-781 | each propagated slice satisfies the face relations with the face above |
| PileModel.TipReaction | geotech_module/pieu.py:765-773 | 0 in traction or when w_base <= 0. Otherwise Ab times the end-bearing law; a missing kq raises `TypeError` and kq = 0 raises `ZeroDivisionError` |
| PileModel.ResiduIsBaseMinusTip | geotech_module/pieu.py:783-796 | the residual is the base force of the top-down propagation minus the tip reaction at the base displacement |
| PileModel.FloorCount | geotech_module/pieu.py:928 | a loop `while i <= nb` entered at i - 1 ends at floor(nb) + 1 |
| PileModel.LoadsRise | geotech_module/pieu.py:924-940 | the loads Qmin + i·(Qmax - Qmin)/nb start at Qmin, do not decrease, stay at most Qmax for i <= nb and reach Qmax at nb |
| PileModel.CurveRange | geotech_module/pieu.py:916-921 | a missing Qmax becomes 0.99·R and a missing Qmin -0.99·Rs; given bounds are kept. R's fault comes first, then Rs's. Given both bounds, the range succeeds exactly when Qmin <= Qmax. Any other failure is `ValueError`, and a range has lo <= hi |
| PileModel.CurveFailurePersists | geotech_module/pieu.py:928-940 | a failing point ends the sweep with its fault |
| PileModel.CurvePoints | geotech_module/pieu.py:928-940 | after m points both lists have m entries, load k is Qmin + k·(Qmax - Qmin)/nb, and settlement k is the head settlement at load k |
| PileModel.CurveShape | geotech_module/pieu.py:905-941 | the lists have equal length. There are none for nb < 0 and floor(nb) + 1 otherwise (nb + 1 for a whole nb). Loads rise within [lo, hi] from lo, end at hi for a whole nb, and each settlement is the head point of its load |
| PileModel.Pile.Init | geotech_module/pieu.py:328-351 | stores the attributes, the mesh and the slice lists, with one law per slice |
| PileModel.Pile.Create | geotech_module/pieu.py:328-351 | meshes the pile (a meshing fault is raised) and builds both slice lists, one fresh object per slice |
| PileModel.Pile.MakeSlices | geotech_module/pieu.py:651-657 | one fresh, distinct `SlicePile` per mesh slice, with its attributes |
| PileModel.Pile.MakeSlicesTb | geotech_module/pieu.py:680-692 | one fresh, distinct `SliceTB` per mesh slice, with its attributes |
| PileModel.Pile.ResistanceSkinFriction | geotech_module/pieu.py:482-490 | the accumulating loop computes Σ perimeter·qs_lim·dh over the slices |
| PileModel.Pile.TotalResistanceAtLeastTip | geotech_module/pieu.py:476-480 | when every slice has Ds >= 0, delta_h >= 0 and qs_lim >= 0, R is computed exactly when Rb is, and R >= Rb |
| PileModel.Pile.ResistanceTotale | geotech_module/pieu.py:476-480 | the property computes R = Rb + Rs, Rb's fault first and then Rs's |
| PileModel.Pile.SolveSliceAt | geotech_module/pieu.py:702-707 | slice k's step, stored in slice k |
| PileModel.Pile.StepSlice | geotech_module/pieu.py:702-707 | one turn of the loop extends the chain and the stored faces by slice lo |
| PileModel.Pile.ChainSlices | geotech_module/pieu.py:701-708 | the bottom-up loop returns the chained head face; on success every slice holds the faces the chain gave it |
| PileModel.Pile.EquilibreDzPointe | geotech_module/pieu.py:694-709 | the tip load from qb = kp_util·ple*, chained up to (Q_head, dz_pointe, dz_head), with every slice's stored faces |
| PileModel.Pile.EquilibreQTop | geotech_module/pieu.py:718-725 | solves the head load for the tip displacement. `None` when the root compares equal to `[0.]`; otherwise the equilibrium at the root, whose head load is that function's value |
| PileModel.Pile.QTopNone | geotech_module/pieu.py:721-724 | `None` exactly when the solver's root is the sentinel or the number 0 |
| PileModel.Pile.QTopSome | geotech_module/pieu.py:721-725 | a returned equilibrium comes from a converged solve, and its head load is the function's value at the returned root |
| PileModel.Pile.TolQ | geotech_module/pieu.py:753-755 | the default tolerance is positive |
| PileModel.Pile.StoredDownHolds | geotech_module/pieu.py:776-781 | the stored state of a slice persists while the slices below are propagated |
| PileModel.Pile.StoredDownRelations | geotech_module/pieu.py:776-781 | after a full propagation slice k's stored faces are the chain's faces k and k + 1 |
| PileModel.Pile.PropagateSliceDown | geotech_module/pieu.py:778-780 | one turn of `propagate_top_down` on the slice objects |
| PileModel.Pile.PropagateTopDown | geotech_module/pieu.py:776-781 | `propagate_top_down` returns the base face, with every slice's state stored |
| PileModel.Pile.EquilibreTopDownQTete | geotech_module/pieu.py:727-855 | computes the top-down equilibrium's specification, and the slices hold the states of the returned head displacement |
| PileModel.Pile.TopDownOutcome | geotech_module/pieu.py:727-855 | the head displacement lies in [-\|w_max\|, 0] under traction and [0, \|w_max\|] otherwise. The returned base face is the propagation at it. It is within tolerance, or the scan's best sample, or a bisected sign-change midpoint |
| PileModel.Pile.SettlementPoints | geotech_module/pieu.py:905-941 | settlement k of the curve is the head displacement of the top-down equilibrium at load k |
| PileModel.Pile.SettlementPoint | geotech_module/pieu.py:929-936 | one equilibrium of the sweep returns the head point and leaves the `SliceTB` objects propagated from that load and displacement |
| PileModel.Pile.SettlementRange | geotech_module/pieu.py:916-921 | the defaults and the `ValueError` of the load range |
| PileModel.Pile.SettlementRun | geotech_module/pieu.py:922-941 | the sweep loop returns the curve of the range, with as many loads as displacements, and leaves the `SliceTB` objects in the state of the last point's propagation |
| PileModel.Pile.SettlementCurve | geotech_module/pieu.py:905-941 | `settlement_curve` computes its specification and leaves the `SliceTB` objects in the state of the last point's propagation |
| PileApp.RowErrors | pile_app.py:269-286 | a row's errors all name its line. A missing zinf gives only that error; otherwise the thickness error when zinf >= the bound, then the alpha error |
| PileApp.ValidateSoilsDf | pile_app.py:260-288 | the loop computes the validator's error list |
| PileApp.EmptyTable | pile_app.py:264-266 | an empty table gives exactly the one empty-lithology error |
| PileApp.ErrorLines | pile_app.py:268-286 | every error names one of the rows seen |
| PileApp.ErrorsOfRow | pile_app.py:268-286 | errors naming line k + 1 are exactly row k's |
| PileApp.BoundIsLastZinf | pile_app.py:268-286 | the bound is z1_sup until a zinf is seen, then the last zinf, even for a row in error |
| PileApp.RowChecks | pile_app.py:270-284 | row k gets a missing-zinf error exactly when its zinf is missing. It gets a thickness error exactly when zinf >= its bound, and an alpha error exactly when alpha is outside [0, 1]; both only when zinf is present |
| PileApp.NoErrorsUpTo | pile_app.py:268-286 | no error up to row k exactly when those rows have every zinf, strictly decreasing from below z1_sup, and every alpha in [0, 1] |
| PileApp.ValidIff | pile_app.py:260-288 | the table is accepted exactly when it is non-empty with every zinf present, strictly decreasing from below z1_sup, and every alpha in [0, 1] |
| PileApp.LayersUpTo | pile_app.py:376-393 | one layer per row seen |
| PileApp.BuildLayers | pile_app.py:376-393 | the loop builds the specification's layers |
| PileApp.LayersShape | pile_app.py:376-393 | layer k takes row k's data. The first level_sup is z1_sup and each later one the previous zinf, so the layers pass `check_stratigraphy` |
| PileApp.AcceptedLayersHaveThickness | pile_app.py:260-393 | an accepted table has every zinf and builds layers of positive thickness |
| PileApp.BuildLayersAsWritten | pile_app.py:380-391 | as written, any row raises `TypeError`; only an empty table builds (no layers) |
| PileApp.DefaultTableFailsAsWritten | pile_app.py:81-91 | the default table validates, the loop as written raises `TypeError`, and the corrected loop builds 2 contiguous layers 0 → -5 → -12 |
| PileApp.EnsureOrigin | pile_app.py:533-536 | the result contains a point within 1e-12 of the origin and extends the input by at most one point. It is the input exactly when one was present, else (0, 0) is appended |
| PileApp.EnsureOriginIdempotent | pile_app.py:533-536 | applying it twice is applying it once |

Some functions are plain definitions, with no contract of their own; the
lemmas and methods about them carry the properties:

- `Utils.TriLinear`, `Utils.SkinFriction` and `Utils.EndBearing`
  (geotech_module/utils.py:121-176). These are the laws on a non-zero slope.
  They are covered by `Utils.TriLinearLaw`, `Utils.TriLinearBreakpoints`,
  `Utils.TriLinearMonotone`, `Utils.TriLinearBounded`, `Utils.SkinFrictionLaw`,
  `Utils.SkinFrictionOdd`, `Utils.SkinFrictionBounded`, `Utils.EndBearingLaw`
  and `Utils.EndBearingShape`.
- `Tolerance.NonZeroValues` (geotech_module/tolerance.py:9-14), and
  `Tolerance.Small` and `Tolerance.Big` (geotech_module/tolerance.py:16-28).
  These are covered by `Tolerance.NonZeroValuesExact`,
  `Tolerance.ListOfValues`, `Tolerance.Value` and
  `Tolerance.ValueIgnoresLargerValues`.
- `Solver.NewtonFrom` and `Solver.Newton` (geotech_module/solver.py:62-103).
  These are the specification of `solve`. They are covered by
  `Solver.NewtonFromStep`, `Solver.NewtonFromShape`, `Solver.NewtonShape`,
  `Solver.NewtonFromRaises`, `Solver.NewtonCongruent` and
  `Solver.NewtonRaphson11.Solve`.
- `SoilModel.CheckSoilType` (geotech_module/soil.py:98-104). This is covered
  by `SoilModel.ModuleKt`, `SoilModel.ModuleKq` and `SoilModel.ModuliRatio`.
- `SoilModel.AlphaPieuSol` and `SoilModel.KpMax`
  (geotech_module/soil.py:106-116). These are covered by `SoilModel.Lookup`,
  `SoilModel.CurveCheckMatchesLookups` and `SoilModel.SoilSamples`.
- `PileMesh.SlicesSpec` (geotech_module/pieu.py:631-663) and `PileMesh.Mesh`
  (geotech_module/pieu.py:665-678). These are the specifications of
  `create_slices` and `maillage_pieu`. They are covered by
  `PileMesh.CreateSlices`, `PileMesh.SlicesFromShape`, `PileMesh.SlicesTile`,
  `PileMesh.MaillagePieu`, `PileMesh.MeshFailurePersists` and
  `PileMesh.MeshWithinPile`.
- `ShootingSearch.Scan` (geotech_module/pieu.py:811-830),
  `ShootingSearch.Bisect` (geotech_module/pieu.py:836-855) and
  `ShootingSearch.SearchSpec` (geotech_module/pieu.py:804-855). These are
  covered by `ShootingSearch.ScanBracket`, `ShootingSearch.ScanNoBracket`,
  `ShootingSearch.BisectKeepsBracket`, `ShootingSearch.BisectInside`,
  `ShootingSearch.SearchInInterval`, `ShootingSearch.SearchOutcome` and
  `ShootingSearch.Search`.
- `PileModel.CurveUpTo`, `PileModel.CurveRun` and `PileModel.CurveSpec`
  (geotech_module/pieu.py:905-941). These are the specification of
  `settlement_curve` over a point function. They are covered by
  `PileModel.CurveRange`, `PileModel.CurvePoints`, `PileModel.CurveShape`,
  `PileModel.CurveFailurePersists` and `PileModel.Pile.SettlementRun`.
- `PileModel.Pile.Data` (geotech_module/pieu.py:353-362),
  `PileModel.Pile.HeightPile` (geotech_module/pieu.py:386-391) and
  `PileModel.Pile.SectionPointe` (geotech_module/pieu.py:393-398). `Data` is
  the pile data that `PileModel.Pile.Create` passes to the meshing.
  `SectionPointe` is the area factor of R_b in `PileModel.Pile.ResistanceTotale`
  and the tip area of the residual in `PileModel.Pile.TopDownOutcome`.
  `HeightPile` is the height that `b_length` bounds b by; `PileModel.BLength`
  takes it as an argument, because ple* is a given value.
- `PileModel.Pile.KpUtil` (geotech_module/pieu.py:520-528) and
  `PileModel.Pile.ResistancePointe` (geotech_module/pieu.py:506-511). These
  are covered by `PileModel.KpUtilValue`, `PileModel.KpOfRatioShape`,
  `PileModel.KpBranchesMeet`, `PileModel.Pile.TotalResistanceAtLeastTip` and
  `PileModel.Pile.ResistanceTotale`.
- `PileModel.Pile.DzPointeSpec` (geotech_module/pieu.py:694-709) and
  `PileModel.Pile.HeadLoad` (geotech_module/pieu.py:711-716). These are
  covered by `PileModel.Pile.EquilibreDzPointe`, `PileModel.ChainRelations`
  and `PileModel.Pile.QTopSome`.
- `PileModel.Pile.QTopSpec` (geotech_module/pieu.py:718-725). This is covered
  by `PileModel.Pile.EquilibreQTop`, `PileModel.Pile.QTopNone` and
  `PileModel.Pile.QTopSome`.
- `PileModel.Pile.TopDownSpec` (geotech_module/pieu.py:727-855). This is
  covered by `PileModel.Pile.EquilibreTopDownQTete` and
  `PileModel.Pile.TopDownOutcome`.
- `SliceLaws.Alpha` and `SliceLaws.Qs` (geotech_module/slice_tb.py:46-47), and
  `SliceLaws.TauAt` and `SliceLaws.TauOfValue` (geotech_module/pieu.py:228-232).
  These are covered by `SliceLaws.QsLim`, `SliceLaws.SentinelFault`,
  `SliceLaws.TauAtIsTauOfValue`, `SliceLaws.TauFailsUniformly` and
  `SliceLaws.TauBounded`.
- `SlicePileModel.QMiddleValue` and `SlicePileModel.RootOf`
  (geotech_module/pieu.py:240-280). These are covered by
  `SlicePileModel.QTopValue`, `SlicePileModel.DzTopValue`,
  `SlicePileModel.OutputsRelations` and
  `SlicePileModel.UnconvergedStoresSentinel`.
- `SliceTBModel.DirectionOf` and `SliceTBModel.PropagateSpec`
  (geotech_module/slice_tb.py:57-128). These are covered by
  `SliceTBModel.PropagateRelations`, `SliceTBModel.PropagateRoundTrip` and
  `SliceTBModel.SliceTB.Propagate`.
- `Solver.OperatorPhi11` (geotech_module/solver.py:48-60). This is covered by
  `Solver.OperatorPhi11Affine` and `Solver.NewtonFromStep`.
- `PileModel.Pile.TotalResistance` (geotech_module/pieu.py:476-480). This is
  covered by `PileModel.Pile.TotalResistanceAtLeastTip` and
  `PileModel.Pile.ResistanceTotale`.
- `PileModel.Pile.HeadPoint` (geotech_module/pieu.py:929-936). This is covered
  by `PileModel.Pile.SettlementPoints` and `PileModel.Pile.SettlementPoint`.
- `Common.Abs`, `Common.Min` and `Common.Max` are Python's `abs`, `min` and
  `max` on reals. `Common.Sign` is `np.sign` (geotech_module/utils.py:129) and
  is covered by `Utils.SkinFrictionOdd`. `IsFailure`, `PropagateFailure` and
  `Extract` let `Common.Result` work with Dafny's `:-`, so that a raised
  exception propagates.
- `Utils.S1` and `Utils.S2` (geotech_module/utils.py:155-167) are the two
  breakpoints of `tri_linear_law`. They are covered by `Utils.TriLinearLaw`,
  `Utils.TriLinearLawFailsBeforeReadingS` and `Utils.TriLinearBreakpoints`.
- `Utils.ExtMax` and `Utils.ExtMin` (geotech_module/utils.py:6-23) are one
  step of the `max_list` and `min_list` accumulators, which start at -inf and
  +inf. They are covered by `Utils.MaxList` and `Utils.MinList`.
- `Utils.Reverse` (geotech_module/utils.py:81-88) is the list that
  `invert_list` builds. It is covered by `Utils.ReverseAt`,
  `Utils.ReverseInvolution` and `Utils.InvertList`.
- `Solver.ConvergedAt` (geotech_module/solver.py:80-94) says that a pass met
  the tolerance and that the result holds one more Newton step. It is covered
  by `Solver.NewtonFromShape`, `Solver.NewtonShape` and
  `PileModel.Pile.QTopSome`.
- `Solver.NewtonRaphson11.TargetValueLength` (geotech_module/solver.py:25-26)
  is covered by `Solver.NewtonRaphson11.Create`.
  `Solver.NewtonRaphson11.Valid` is the object invariant: the stored result is
  the one `solve` computes. `Solver.NewtonRaphson11.Init` stores the three
  arguments (geotech_module/solver.py:13-16) and is called by `Create`.
- `Solver.NewtonRaphson11.Convergence`, `NumberOfIterations`, `FinalRoots` and
  `FinalTargets` (geotech_module/solver.py:32-46) are the four accessors. They
  are covered by `Solver.NewtonRaphson11.AccessorContract`.
- `Solver.MinusTwo` (geotech_module/test_solver.py:7-8) is the tested
  function x - 2. It is covered by `Solver.MinusTwoSlope` and
  `Solver.NewtonSamples`.
- `SoilModel.UpperChar` (geotech_module/soil.py:94) upper-cases one
  character. It is covered by `SoilModel.UpperPointwise`.
- `SoilModel.CurveOf` (geotech_module/soil.py:90-96) is the column that a
  curve name selects. It is covered by `SoilModel.CurveOfNames`,
  `SoilModel.CurveCheckMatchesLookups`, `SoilModel.CurveNameSamples` and
  `SoilModel.CurveSamples`.
- `SoilModel.At` (of a table row) and `SoilModel.HasRow` (geotech_module/soil.py:110, 116
  and 152) are the lookup `TAB[str(k)][curve]`. They are covered by
  `SoilModel.Lookup`, `SoilModel.CurveCheckMatchesLookups` and
  `SoilModel.RowSamples`.
- `SoilModel.CheckCourbeFrottement` (geotech_module/soil.py:90-96) is covered
  by `SoilModel.CurveOfNames`, `SoilModel.CurveCheckMatchesLookups` and
  `SoilModel.SoilCheckSamples`.
- `SoilModel.DepthToLevel` and `SoilModel.LevelToDepth`
  (geotech_module/soil.py:216-220) are covered by
  `SoilModel.LevelDepthInverse` and `SoilModel.LogPressio.GetDepths`.
- `SoilModel.LogPressio.DepthsOf` (geotech_module/soil.py:209-214) is what
  `get_depths` returns. It is stated by `SoilModel.LogPressio.GetDepths` and
  `SoilModel.LogPressio.constructor`.
- `SliceLaws.Section`, `SliceLaws.Perimeter` and `SliceLaws.EA`
  (geotech_module/pieu.py:200-212 and geotech_module/slice_tb.py:34-39) are
  covered by `SlicePileModel.SampleSliceValues`,
  `PileModel.Pile.ResistanceTotale`, `PileModel.Pile.TopDownOutcome` and
  `SliceTBModel.CrossRelations`.
- `SliceLaws.QsMax` (geotech_module/pieu.py:166-172 and
  geotech_module/slice_tb.py:41-42) is covered by `SliceLaws.QsLim`,
  `SliceLaws.TauBounded` and `SoilModel.FrottementMaxi`.
- `SliceLaws.Kt` and `SliceLaws.Kq` (geotech_module/pieu.py:184-199; kt also
  in geotech_module/slice_tb.py:50-52) are covered by `SliceLaws.FrictionLaw`,
  `SliceLaws.QZ`, `SoilModel.ModuleKt` and `SoilModel.ModuleKq`.
- `SliceLaws.ZMiddle` and `SliceLaws.ZBottom` (geotech_module/pieu.py:124-136)
  are covered by `SliceLaws.SliceLevels` and `PileMesh.TileShape`.
- `SliceLaws.TauFn` (geotech_module/pieu.py:228-232 and
  geotech_module/slice_tb.py:54-55) is the bound method `self.tau` that the
  solver closures call. It is covered by `SliceLaws.Tau` and
  `SliceLaws.TauAtIsTauOfValue`.
- `SlicePileModel.DimsOf`, `SlicePileModel.Stiffness` and
  `SlicePileModel.HalfShaft` (geotech_module/pieu.py:214-259) are the numbers
  and the two products that the slice formulas read. They are covered by
  `SlicePileModel.KsiAValue`, `SlicePileModel.QTopValue`,
  `SlicePileModel.DzTopValue` and `SlicePileModel.OutputsRelations`.
- `SlicePileModel.FFn` (geotech_module/pieu.py:265-271) and
  `SlicePileModel.EquilibreRoot` (geotech_module/pieu.py:273-280) are the
  solve of `equilibre`. They are covered by
  `SlicePileModel.RootIsHalfSliceShortening`,
  `SlicePileModel.UnconvergedStoresSentinel`,
  `SlicePileModel.SlicePile.Equilibre` and `PileModel.Pile.SolveSliceAt`.
- `SlicePileModel.Outputs` (geotech_module/pieu.py:273-280) is the pair that
  `equilibre` returns. It is covered by `SlicePileModel.OutputsRelations`,
  `PileModel.OutputsFaces` and `SlicePileModel.SlicePile.Equilibre`.
- `SlicePileModel.SlicePile.Geom`, `QMiddle`, `QTop` and `DzTop`
  (geotech_module/pieu.py:240-259) read the object's fields into
  `QMiddleValue`, `QTopValue` and `DzTopValue`. They are covered by
  `SlicePileModel.QTopValue` and `SlicePileModel.DzTopValue`.
- `SliceTBModel.MechOf` (geotech_module/slice_tb.py:75-78) holds the
  parameters of the midpoint equation F. `SliceTBModel.MidResidual` and
  `SliceTBModel.Residual` (geotech_module/slice_tb.py:85-89 and 110-114) are
  F itself. They are covered by `SliceTBModel.ResidualAt`,
  `SliceTBModel.ResidualsAgree` and `SliceTBModel.CrossAlgebra`.
- `SliceTBModel.Cross` (geotech_module/slice_tb.py:81-128) is one crossing
  from a midpoint guess. It is covered by `SliceTBModel.CrossRelations`,
  `SliceTBModel.CrossRoundTrip`, `SliceTBModel.CrossUnconverged` and
  `SliceTBModel.CrossSlice`.
- `SliceTBModel.OutputFace` (geotech_module/slice_tb.py:103 and 127) and
  `SliceTBModel.Propagated` (geotech_module/slice_tb.py:57-128) are what
  `propagate` returns. They are covered by `SliceTBModel.PropagateRelations`,
  `SliceTBModel.PropagateRoundTrip` and `PileModel.DownStepIsPropagate`.
- `SliceTBModel.SliceTB.Geom` and `SliceTBModel.SliceTB.State`
  (geotech_module/slice_tb.py:10-23) are the object's fields as values. They
  are covered by `SliceTBModel.SliceTB.Propagate` and
  `SliceTBModel.SliceTB.Store`.
- `SliceTBModel.FaceRelations` (geotech_module/slice_tb.py:94-128) is what a
  crossing's stored state satisfies. It is stated by
  `SliceTBModel.CrossFromRelations`, `SliceTBModel.CrossRelations` and
  `SliceTBModel.PropagateRelations`.
- `PileMesh.Contiguous` (geotech_module/pieu.py:590-602) is covered by
  `PileMesh.CheckStratigraphy`, `PileMesh.LevelsDescend` and
  `PileMesh.MeshSample`.
- `PileMesh.Holds` (geotech_module/pieu.py:609) is covered by
  `PileMesh.SoilAt`, `PileMesh.SoilAtIsFirst` and
  `PileMesh.SharedBoundaryGoesUp`.
- `PileMesh.SlicesFrom` (geotech_module/pieu.py:646-661) is the loop of
  `create_slices`. It is covered by `PileMesh.SlicesFromShape`,
  `PileMesh.Stacked`, `PileMesh.StackedAt`, `PileMesh.Spread`,
  `PileMesh.SlicesTile` and `PileMesh.CreateSlices`.
- `PileMesh.Join` (geotech_module/pieu.py:676) is the concatenation
  `slices_acc + slice`. It is covered by `PileMesh.JoinNil` and
  `PileMesh.JoinStep`.
- `PileMesh.Overlap` and `PileMesh.MeshUpTo` (geotech_module/pieu.py:669-677)
  are the loop of `maillage_pieu`. They are covered by
  `PileMesh.MaillagePieu`, `PileMesh.MeshFailurePersists`,
  `PileMesh.MeshWithinPile` and `PileMesh.JoinStep`.
- `PileModel.KpOfRatio` and `PileModel.KpLower`
  (geotech_module/pieu.py:525-528) are covered by `PileModel.KpUtilValue`,
  `PileModel.KpBranchIsRatio`, `PileModel.KpBranchesMeet` and
  `PileModel.KpOfRatioShape`.
- `PileModel.ShaftForce`, `PileModel.SkinTerm`, `PileModel.SumUpTo` and
  `PileModel.SkinResistance` (geotech_module/pieu.py:483-490) are
  `resistance_skin_friction`. They are covered by `PileModel.SkinTerms`,
  `PileModel.SumUpToFailure`, `PileModel.SumFailurePersists`,
  `PileModel.SumNonNegative`, `PileModel.SumStep`,
  `PileModel.ShaftForceNonNegative`, `PileModel.SkinTermNonNegative`,
  `PileModel.SkinResistanceNonNegative` and
  `PileModel.Pile.ResistanceSkinFriction`.
- `PileModel.LawOf` (geotech_module/pieu.py:214-280) is a slice's formulas as
  one value. `PileModel.ChainFrom` (geotech_module/pieu.py:701-708) is the
  chaining of `equilibre_dz_pointe`. They are covered by
  `PileModel.ChainStep`, `PileModel.ChainRelations`,
  `PileModel.ChainFailurePersists` and `PileModel.Pile.ChainSlices`.
- `PileModel.Step` (geotech_module/pieu.py:703-707) is one slice of the
  chaining. It is covered by `PileModel.StepRelations`,
  `PileModel.ChainStep` and `PileModel.Pile.StepSlice`.
- `PileModel.FaceRelations` (geotech_module/pieu.py:247-280) is what a
  slice's returned pair satisfies. It is stated by `PileModel.OutputsFaces`,
  `PileModel.StepRelations` and `PileModel.ChainRelations`.
- `PileModel.TipLoad`, `PileModel.Pile.Qb` and `PileModel.Pile.TipStart`
  (geotech_module/pieu.py:698-699) are the load that enters the chaining from
  the tip. They are covered by `PileModel.Pile.EquilibreDzPointe`.
- `PileModel.Stored`, `PileModel.Pile.StoredFrom` and
  `PileModel.Pile.StoredAt` (geotech_module/pieu.py:702-707) are what the
  chaining leaves in the `SlicePile` objects. They are covered by
  `PileModel.Pile.StepSlice`, `PileModel.Pile.ChainSlices` and
  `PileModel.Pile.EquilibreDzPointe`.
- `PileModel.DownLawOf`, `PileModel.DownCross` and `PileModel.DownTo`
  (geotech_module/pieu.py:776-781) are `propagate_top_down`. They are covered
  by `PileModel.DownStepIsPropagate`, `PileModel.DownStepNext`,
  `PileModel.DownFailurePersists`, `PileModel.DownRelations` and
  `PileModel.Pile.PropagateTopDown`.
- `PileModel.DownStep` (geotech_module/pieu.py:778-779) is one slice of the
  propagation. It is covered by `PileModel.DownStepIsPropagate`,
  `PileModel.DownStepNext` and `PileModel.Pile.PropagateSliceDown`.
- `PileModel.Pile.StoredDown` and `PileModel.Pile.StoredDownAt`
  (geotech_module/pieu.py:776-781) are what the propagation leaves in the
  `SliceTB` objects. They are covered by
  `PileModel.Pile.StoredDownHolds` and `PileModel.Pile.StoredDownRelations`.
- `PileModel.Residu` and `PileModel.ResiduFn`
  (geotech_module/pieu.py:783-796) are covered by
  `PileModel.ResiduIsBaseMinusTip` and `PileModel.Pile.TopDownOutcome`.
- `PileModel.Load` (geotech_module/pieu.py:934) is covered by
  `PileModel.LoadsRise` and `PileModel.CurvePoints`.
- `PileModel.Pile.Meshed` and `PileModel.Pile.Valid`
  (geotech_module/pieu.py:349-351) are the object invariant: the two slice
  lists are those of `maillage_pieu` and `make_slices_tb`. They are
  established by `PileModel.Pile.Create`.
- `PileModel.Pile.HeadLoadFn` (geotech_module/pieu.py:711-716) and
  `PileModel.Pile.HeadSolve` (geotech_module/pieu.py:720-721) are the solve of
  `equilibre_Q_top`. They are covered by `PileModel.Pile.EquilibreQTop`,
  `PileModel.Pile.QTopNone` and `PileModel.Pile.QTopSome`.
- `PileModel.Pile.KqTip` (geotech_module/pieu.py:760-761) is covered by
  `PileModel.Pile.TopDownOutcome` and `PileModel.Pile.EquilibreTopDownQTete`.
- `PileModel.Pile.HeadSettlement` and `PileModel.Pile.PointsOf`
  (geotech_module/pieu.py:929-936) are the point function of the curve. They
  are covered by `PileModel.Pile.SettlementPoints`.
- `PileModel.Pile.SettlementSpec` (geotech_module/pieu.py:905-941) is covered
  by `PileModel.Pile.SettlementCurve`, `PileModel.Pile.SettlementPoints` and
  `PileModel.CurveShape`.
- `PileModel.Pile.LastPointStored` (geotech_module/pieu.py:929) is covered by
  `PileModel.Pile.SettlementPoint`, `PileModel.Pile.SettlementRun` and
  `PileModel.Pile.SettlementCurve`.
- `PileApp.LineOf`, `PileApp.AlphaInRange`, `PileApp.NextBound`,
  `PileApp.BoundAfter`, `PileApp.ErrorsUpTo` and `PileApp.ValidationErrors`
  (pile_app.py:260-288) are `validate_soils_df` and its running bound
  `z_prev`. They are covered by `PileApp.ValidateSoilsDf`,
  `PileApp.EmptyTable`, `PileApp.ErrorLines`, `PileApp.ErrorsOfRow`,
  `PileApp.BoundIsLastZinf`, `PileApp.RowChecks`, `PileApp.NoErrorsUpTo` and
  `PileApp.ValidIff`.
- `PileApp.AcceptedUpTo` (pile_app.py:268-286) is covered by
  `PileApp.ValidIff` and `PileApp.AcceptedLayersHaveThickness`.
- `PileApp.LayerOf`, `PileApp.AllZinf` and `PileApp.TopOf`
  (pile_app.py:376-393) are covered by `PileApp.LayersUpTo`,
  `PileApp.BuildLayers` and `PileApp.LayersShape`.
- `PileApp.NearOrigin` and `PileApp.HasOrigin` (pile_app.py:533-536) are
  covered by `PileApp.EnsureOrigin` and `PileApp.EnsureOriginIdempotent`.
- `ShootingSearch.Sample` (geotech_module/pieu.py:818) and
  `ShootingSearch.Point` (geotech_module/pieu.py:805-818) are the points at
  which the scan evaluates the residual. They are covered by
  `ShootingSearch.SampleBounds` and `ShootingSearch.PointInInterval`.
- `ShootingSearch.SignKept`, `KeptBetween`, `LeastFirst`, `FirstBracket`,
  `BestSoFar`, `LeastAt` and `ScanBest` (geotech_module/pieu.py:811-833) are
  the terms in which the scan's contracts are written.
  `ShootingSearch.Between`, `Straddles`, `BisectPoint`, `BisectOutcome` and
  `Bisected` (geotech_module/pieu.py:836-855) are those of the bisection's
  contracts. They are stated by the `ShootingSearch` rows above.
- `SlicePileModel.ProductZero` and `PileModel.MulLeft` are facts of real
  arithmetic that the proofs use. They model nothing in the source.

## Left out

- π is the decimal constant 3.141592653589793.
- `fonction_fsol` (uses `math.exp`) is a field of each soil. `LayerOf` takes it as a function of the curve and pl.
- `module_kf` (a real power) is not modelled.
- `ple_etoile` and `hauteur_encastrement_effective` are given values of the pile. They integrate the pressuremeter log with numpy (`trapezoidal_integration`, `mean_value`, `LogPressio.*_at_*`, `*_moyen*`), which is not modelled.
- Floating point is not modelled: arithmetic is exact. `math.isclose` is modelled with its default `rel_tol` of 1e-9 and the `abs_tol` each call passes, over exact reals (`Common.IsClose`).
- SoilModel.UpperPointwise, SoilModel.Upper: the model raises only the ASCII letters a-z and keeps every other character, so the result has the input's length. Python's `str.upper` also raises non-ASCII letters, and it can lengthen a string (`'ß'.upper()` is `'SS'`). Curve names outside ASCII are therefore not modelled.
- PileModel.KpUtilValue, PileModel.TipReaction, PileModel.CurveRun, PileModel.Pile.SettlementRun: numpy scalars are not modelled. In the source, ple* normally comes out of `np.trapz` (geotech_module/utils.py:56) as a numpy float. One branch differs: when niveau_bas lies below the last level of the log, `ple_etoile` returns the Python float `0.` (geotech_module/pieu.py:543-544). Even then, h_e = trapezoidal_integration(...) / ple* (geotech_module/pieu.py:557) divides a numpy float, so it is a numpy inf or nan and nothing is raised. The model takes ple* and h_e as given reals, so this branch has no counterpart in it. h_e is a numpy float on every branch, and so are qb = kp_util·ple*, R and the default Qmax = 0.99·R. Dividing a numpy float by zero gives inf or nan without raising. So in the source, h_e / Ds with Ds = 0 (geotech_module/pieu.py:525) does not raise. `end_bearing_law` with kq = 0 gives a tip reaction of 0, and nb_pas = 0 under the default Qmax gives a one-point curve (geotech_module/pieu.py:938-940). The model raises `ZeroDivisionError` in all three cases, as for Python floats. Since ple* and h_e are given values, an empty lithology makes `kp_util` fail with kp_max's `AttributeError`. In the source, computing h_e first reaches `rising_curve([])` (geotech_module/utils.py:72, from geotech_module/pieu.py:553-557), which raises `IndexError`. The same difference holds for `resistance_pointe` and the three equilibria that read `kp_util`.
- PileModel.Pile.EquilibreQTop: each Newton trial of the source runs `equilibre_dz_pointe`, so the slices are left in the state of the last trial. The model computes the trials as values and states the slices' state only when an equilibrium is returned. On the `None` path nothing is said of the `SlicePile` objects.
- Solver.NewtonShape: does not state numerical convergence of Newton's method, only the loop's structure and result shape.
- The lateral PyNite model is not modelled: `build_pile`, `get_model_curves`, `get_soil_pressure`, `model_length`, `get_fe_model`, `data_for_fe_model`, `horizontal_soil_pressure_spring` and `linear_spring`. It is a foreign finite-element library.
- The design wrappers and the reporting code are not modelled: the `gamma_*`, `portance_*`, `traction_*`, `Rsk_*` and `Rbk` one-liners, the `__str__` methods, `pile_description` and `capacites_portantes`.
- Other `Pile` members are not modelled: `abreviation_pieu`, `description` and the `get_pf/pl/Em_from_level` readers. `create_slices` reads the last three but does not use them.
- The tables are fixed sequences holding only the columns the engine reads. Category k is at index k - 1 (`str(k)` is injective on the integers).
- PileModel.Pile.EquilibreTopDownQTete: the trial propagations of the scan and of the bisection write the slice objects in the source. The model does not track those intermediate writes. It computes those residuals as values and states only the final re-propagation at the returned displacement.
- The commented-out earlier version of `equilibre_top_down_Qtete` at geotech_module/pieu.py:857-903 is not modelled.
- PileModel.Pile.SettlementCurve: `nb_pas` is a real. The `equilibre == None` branch (geotech_module/pieu.py:930-933) is dead, because the equilibrium always returns a tuple or raises. The model has no such branch.
- PileApp.BuildLayers: requires every zinf to be present, as in a table the validator accepted. The layers keep `Soil`'s default soil type 'granulaire', because the row's friction and end types have no counterpart in `Soil` (see Findings).
- The Streamlit interface, plotly, persistence and JSON handling are not modelled. That covers `ui_sections.py`, `persistence.py` and the rest of `pile_app.py`. The validator copy at ui_sections.py:112-138 is the same check as `validate_soils_df`.
- The error messages' text is not modelled. Each message is modelled as a `LithologyError` value carrying its line and its numbers.
- Two negative skin-friction assertions in geotech_module/test_utils.py:39,55 disagree with the code's odd symmetry. The model follows the code (`Utils.SkinFrictionOdd`).
- geotech_module/test_solver.py:4 imports `solver_2`. solver_2 is not part of this model.
- Partial object states left behind when an exception escapes midway are not modelled. `SliceTB.propagate` writes nothing before it can fail. When `SlicePile.equilibre` or the chaining fails, the model states nothing about the slices.

## Findings

| source | as written | input that shows it | evidently intended | confidence | as-written member | corrected member |
|---|---|---|---|---|---|---|
| pile_app.py:380-391 | `Soil(...)` is called with `friction_type=` and `end_type=`. The `Soil` dataclass (geotech_module/soil.py:75-88) declares no such fields, so the call raises `TypeError` for every row | the default table of pile_app.py:81-91 | build one contiguous `Soil` per row, `level_sup` from the previous zinf | not executed | PileApp.BuildLayersAsWritten, PileApp.DefaultTableFailsAsWritten | PileApp.BuildLayers |
