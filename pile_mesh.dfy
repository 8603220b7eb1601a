/** The discretisation of a pile and its stratigraphy (`Pile.check_stratigraphy`,
    `get_soil_from_level`, `create_slices` and `maillage_pieu` in
    geotech_module/pieu.py). The slices are described by their four
    constructor attributes (a `SliceGeom`); the pile turns them into slice
    objects. */
module PileMesh {
  import opened Common
  import opened SoilModel
  import opened SliceLaws

  // ---------------------------------------------------------------------
  // Stratigraphy
  // ---------------------------------------------------------------------

  /** Each layer starts where the previous one ends. */
  predicate Contiguous(lith: seq<Soil>) {
    forall i :: 0 < i < |lith| ==> lith[i].levelSup == lith[i - 1].levelInf
  }

  /** `check_stratigraphy`: multiplies a flag by "this layer's level_sup is
      the previous layer's level_inf" (the first layer is compared with
      itself). The order within a layer is not checked. */
  method CheckStratigraphy(lith: seq<Soil>) returns (r: bool)
    ensures r <==> Contiguous(lith)
  {
    var test := 1;
    for idx := 0 to |lith|
      invariant test == 0 || test == 1
      invariant test == 1 <==> Contiguous(lith[..idx])
    {
      var levelInfPrec := if idx == 0 then lith[idx].levelSup else lith[idx - 1].levelInf;
      test := test * (if levelInfPrec == lith[idx].levelSup then 1 else 0);
    }
    assert lith[..|lith|] == lith;
    r := test == 1;
  }

  /** The layer range [level_inf, level_sup] holds the level. */
  predicate Holds(s: Soil, level: real) {
    s.levelInf <= level <= s.levelSup
  }

  /** The first layer holding the level, if any. */
  function SoilAt(lith: seq<Soil>, level: real): (r: Option<Soil>)
    ensures r.Some? ==> r.value in lith && Holds(r.value, level)
    ensures r.None? <==> forall i :: 0 <= i < |lith| ==> !Holds(lith[i], level)
  {
    if |lith| == 0 then None
    else if Holds(lith[0], level) then Some(lith[0])
    else
      var r := SoilAt(lith[1..], level);
      assert forall i :: 1 <= i < |lith| ==> lith[i] == lith[1..][i - 1];
      r
  }

  /** SoilAt picks the first layer that holds the level, so a boundary shared
      by two layers belongs to the upper one. */
  lemma {:induction false} SoilAtIsFirst(lith: seq<Soil>, level: real, i: int)
    requires 0 <= i < |lith| && Holds(lith[i], level)
    requires forall j :: 0 <= j < i ==> !Holds(lith[j], level)
    ensures SoilAt(lith, level) == Some(lith[i])
  {
    if i > 0 {
      assert forall j :: 0 <= j < i - 1 ==> lith[1..][j] == lith[j + 1];
      SoilAtIsFirst(lith[1..], level, i - 1);
    }
  }

  /** On a contiguous stratigraphy whose layers are ordered, the level where
      layer i ends and layer i + 1 begins belongs to layer i. */
  lemma SharedBoundaryGoesUp(lith: seq<Soil>, i: int)
    requires Contiguous(lith)
    requires forall j :: 0 <= j < |lith| ==> lith[j].levelInf <= lith[j].levelSup
    requires 0 <= i < |lith| - 1
    requires forall j :: 0 < j <= i ==> lith[j].levelInf < lith[j].levelSup
    ensures SoilAt(lith, lith[i].levelInf) == Some(lith[i])
    ensures lith[i].levelInf == lith[i + 1].levelSup
  {
    forall j | 0 <= j < i
      ensures !Holds(lith[j], lith[i].levelInf)
    {
      LevelsDescend(lith, j, i);
    }
    SoilAtIsFirst(lith, lith[i].levelInf, i);
  }

  /** Down a contiguous stratigraphy, a layer ends at or above where any later
      layer ends; strictly above when the later layers have positive height. */
  lemma {:induction false} LevelsDescend(lith: seq<Soil>, j: int, i: int)
    requires Contiguous(lith)
    requires 0 <= j < i < |lith|
    requires forall k :: 0 < k <= i ==> lith[k].levelInf < lith[k].levelSup
    ensures lith[i].levelInf < lith[j].levelInf
    decreases i - j
  {
    if j + 1 < i {
      LevelsDescend(lith, j + 1, i);
    }
  }

  /** `get_soil_from_level`: scans the layers and returns the first one
      holding the level, else None. */
  method GetSoilFromLevel(lith: seq<Soil>, level: real) returns (r: Option<Soil>)
    ensures r == SoilAt(lith, level)
  {
    for idx := 0 to |lith|
      invariant SoilAt(lith, level) == SoilAt(lith[idx..], level)
    {
      assert lith[idx..][1..] == lith[idx + 1..];
      if Holds(lith[idx], level) {
        return Some(lith[idx]);
      }
    }
    return None;
  }

  // ---------------------------------------------------------------------
  // Slices of one interval
  // ---------------------------------------------------------------------

  /** `math.ceil` */
  function Ceil(x: real): (n: int)
    ensures ((n - 1) as real) < x <= n as real
  {
    -((-x).Floor)
  }

  /** The `count` slices `create_slices` appends from level z down, each
      delta_h high and in the layer holding its midpoint; the first midpoint
      outside every layer makes `get_pf_from_level` raise AttributeError. */
  function SlicesFrom(lith: seq<Soil>, data: PileData, z: real, dh: real, count: int): Result<seq<SliceGeom>, Fault>
    decreases count
  {
    if count <= 0 then Success([])
    else
      var soil := SoilAt(lith, (z + (z - dh)) / 2.0);
      if soil.None? then Failure(AttributeError)
      else
        var rest :- SlicesFrom(lith, data, z - dh, dh, count - 1);
        Success([SliceGeom(z, dh, soil.value, data)] + rest)
  }

  /** What `create_slices(thickness, level_max, level_min)` returns:
      n = ceil((max - min) / thickness) slices of height (max - min) / n from
      max down. A zero thickness or a zero count raises ZeroDivisionError; a
      negative count gives no slice. */
  function SlicesSpec(lith: seq<Soil>, data: PileData, thickness: real, levelMax: real, levelMin: real): Result<seq<SliceGeom>, Fault> {
    if thickness == 0.0 then Failure(ZeroDivisionError)
    else
      var n := Ceil((levelMax - levelMin) / thickness);
      if n == 0 then Failure(ZeroDivisionError)
      else SlicesFrom(lith, data, levelMax, (levelMax - levelMin) / n as real, n)
  }

  /** `acc` followed by what `rest` produced, or the exception it raised. */
  function Join(acc: seq<SliceGeom>, rest: Result<seq<SliceGeom>, Fault>): Result<seq<SliceGeom>, Fault> {
    if rest.Failure? then rest else Success(acc + rest.value)
  }

  lemma JoinNil(r: Result<seq<SliceGeom>, Fault>)
    ensures Join([], r) == r
  {
    if r.Success? {
      assert [] + r.value == r.value;
    }
  }

  /** One step of `create_slices`: the slice at z joins the accumulator. */
  lemma JoinStep(lith: seq<Soil>, data: PileData, acc: seq<SliceGeom>, z: real, dh: real, mid: real, count: int,
                 zNext: real, next: int)
    requires count > 0 && next == count - 1 && zNext == z - dh && mid == (z + (z - dh)) / 2.0 && SoilAt(lith, mid).Some?
    ensures var slice := SliceGeom(z, dh, SoilAt(lith, mid).value, data);
      Join(acc, SlicesFrom(lith, data, z, dh, count)) == Join(acc + [slice], SlicesFrom(lith, data, zNext, dh, next))
  {
    var rest := SlicesFrom(lith, data, zNext, dh, next);
    var slice := SliceGeom(z, dh, SoilAt(lith, mid).value, data);
    if rest.Success? {
      assert acc + ([slice] + rest.value) == (acc + [slice]) + rest.value;
    }
  }

  /** `create_slices`: a while loop lowering the three levels by delta_h and
      appending one slice per step. */
  method CreateSlices(lith: seq<Soil>, data: PileData, thickness: real, levelMax: real, levelMin: real) returns (r: Result<seq<SliceGeom>, Fault>)
    ensures r == SlicesSpec(lith, data, thickness, levelMax, levelMin)
  {
    if thickness == 0.0 {
      return Failure(ZeroDivisionError);
    }
    var nSlices := Ceil((levelMax - levelMin) / thickness);
    if nSlices == 0 {
      return Failure(ZeroDivisionError);
    }
    var deltaH := (levelMax - levelMin) / nSlices as real;
    var levelTop := levelMax;
    var levelBott := levelTop - deltaH;
    var levelMiddle := (levelTop + levelBott) / 2.0;
    var acc: seq<SliceGeom> := [];
    var i := 0;
    ghost var spec := SlicesSpec(lith, data, thickness, levelMax, levelMin);
    JoinNil(SlicesFrom(lith, data, levelTop, deltaH, nSlices));
    while i < nSlices
      invariant 0 <= i && (nSlices > 0 ==> i <= nSlices)
      invariant levelBott == levelTop - deltaH && levelMiddle == (levelTop + levelBott) / 2.0
      invariant spec == Join(acc, SlicesFrom(lith, data, levelTop, deltaH, nSlices - i))
    {
      var soil := GetSoilFromLevel(lith, levelMiddle);
      if soil.None? {
        return Failure(AttributeError);
      }
      ghost var acc0, top0, middle0, left0 := acc, levelTop, levelMiddle, nSlices - i;
      acc := acc + [SliceGeom(levelTop, deltaH, soil.value, data)];
      levelTop := levelTop - deltaH;
      levelBott := levelBott - deltaH;
      levelMiddle := levelMiddle - deltaH;
      i := i + 1;
      JoinStep(lith, data, acc0, top0, deltaH, middle0, left0, levelTop, nSlices - i);
    }
    assert acc + [] == acc;
    r := Success(acc);
  }

  /** The slices from z down: `count` of them, the first starting at z, each
      starting dh below the previous one, all dh high, each in the layer
      holding its midpoint. */
  lemma {:induction false} SlicesFromShape(lith: seq<Soil>, data: PileData, z: real, dh: real, count: int)
    requires count >= 0 && SlicesFrom(lith, data, z, dh, count).Success?
    ensures var s := SlicesFrom(lith, data, z, dh, count).value;
      && |s| == count
      && (count > 0 ==> s[0].zTop == z)
      && (forall k :: 0 <= k < count ==> s[k].deltaH == dh && s[k].data == data && Holds(s[k].soil, s[k].ZMiddle()))
      && (forall k :: 0 <= k < count - 1 ==> s[k + 1].zTop == s[k].zTop - dh)
    decreases count
  {
    if count > 0 {
      var s := SlicesFrom(lith, data, z, dh, count).value;
      SlicesFromShape(lith, data, z - dh, dh, count - 1);
      var rest := SlicesFrom(lith, data, z - dh, dh, count - 1).value;
      assert s == [s[0]] + rest;
      assert forall k :: 1 <= k < count ==> s[k] == rest[k - 1];
    }
  }

  /** Slices laid dh apart from z, n of them with n . dh = h and dh > 0, tile
      [z - h, z]. */
  lemma Stacked(s: seq<SliceGeom>, z: real, dh: real, h: real)
    requires |s| >= 1 && dh > 0.0 && (|s| as real) * dh == h
    requires s[0].zTop == z
    requires forall k :: 0 <= k < |s| ==> s[k].deltaH == dh
    requires forall k :: 0 <= k < |s| - 1 ==> s[k + 1].zTop == s[k].zTop - dh
    ensures s[|s| - 1].ZBottom() == z - h
    ensures forall k :: 0 <= k < |s| - 1 ==> s[k].ZBottom() == s[k + 1].zTop
    ensures forall k :: 0 <= k < |s| ==> z - h <= s[k].ZBottom() < s[k].zTop <= z
  {
    forall k | 0 <= k < |s|
      ensures z - h <= s[k].ZBottom() < s[k].zTop <= z
    {
      StackedAt(s, z, dh, k);
      Spread(dh, k, |s|, h);
      assert s[k].ZBottom() == z - ((k as real) * dh + dh);
    }
    StackedAt(s, z, dh, |s| - 1);
  }

  /** The k-th slice starts k . dh below z. */
  lemma {:induction false} StackedAt(s: seq<SliceGeom>, z: real, dh: real, k: int)
    requires 0 <= k < |s| && s[0].zTop == z
    requires forall j :: 0 <= j < |s| - 1 ==> s[j + 1].zTop == s[j].zTop - dh
    ensures s[k].zTop == z - (k as real) * dh
  {
    if k > 0 {
      StackedAt(s, z, dh, k - 1);
      assert ((k - 1) as real) * dh + dh == (k as real) * dh;
    }
  }

  /** 0 <= k . dh and (k + 1) . dh <= n . dh = h for 0 <= k < n and dh > 0. */
  lemma Spread(dh: real, k: int, n: int, h: real)
    requires dh > 0.0 && 0 <= k < n && (n as real) * dh == h
    ensures 0.0 <= (k as real) * dh && (k as real) * dh + dh <= h
  {
    assert (k as real) * dh + dh == ((k + 1) as real) * dh;
  }

  /** With a positive thickness and a positive interval the slices tile
      [min, max] from the top: there are ceil((max - min) / thickness) of
      them, of equal positive height at most the thickness; the first starts
      at max, each starts where the previous ends, the last ends at min, and
      each lies within [min, max] in the layer holding its midpoint. */
  lemma SlicesTile(lith: seq<Soil>, data: PileData, thickness: real, levelMax: real, levelMin: real)
    requires thickness > 0.0 && levelMax > levelMin
    requires SlicesSpec(lith, data, thickness, levelMax, levelMin).Success?
    ensures var s := SlicesSpec(lith, data, thickness, levelMax, levelMin).value;
      && |s| == Ceil((levelMax - levelMin) / thickness) && |s| >= 1
      && s[0].zTop == levelMax
      && s[|s| - 1].ZBottom() == levelMin
      && (forall k :: 0 <= k < |s| ==> 0.0 < s[k].deltaH <= thickness)
      && (forall k :: 0 <= k < |s| - 1 ==> s[k].ZBottom() == s[k + 1].zTop)
      && (forall k :: 0 <= k < |s| ==> levelMin <= s[k].ZBottom() < s[k].zTop <= levelMax)
      && (forall k :: 0 <= k < |s| ==> Holds(s[k].soil, s[k].ZMiddle()) && s[k].data == data)
  {
    var h := levelMax - levelMin;
    var n := Ceil(h / thickness);
    var dh := h / n as real;
    HeightWithinThickness(h, thickness, n);
    var s := SlicesFrom(lith, data, levelMax, dh, n).value;
    assert s == SlicesSpec(lith, data, thickness, levelMax, levelMin).value;
    SlicesFromShape(lith, data, levelMax, dh, n);
    EvenSplit(h, n, dh);
    TileShape(s, n, data, levelMax, dh, h, thickness);
  }

  /** Slices of equal height dh <= t, stacked from z down, each in the layer
      holding its midpoint, tile [z - h, z] when there are h / dh of them. */
  lemma TileShape(s: seq<SliceGeom>, n: int, data: PileData, z: real, dh: real, h: real, t: real)
    requires |s| == n >= 1 && 0.0 < dh <= t && (n as real) * dh == h
    requires s[0].zTop == z
    requires forall k :: 0 <= k < |s| ==> s[k].deltaH == dh && s[k].data == data && Holds(s[k].soil, s[k].ZMiddle())
    requires forall k :: 0 <= k < |s| - 1 ==> s[k + 1].zTop == s[k].zTop - dh
    ensures s[|s| - 1].ZBottom() == z - h
    ensures forall k :: 0 <= k < |s| ==> 0.0 < s[k].deltaH <= t
    ensures forall k :: 0 <= k < |s| - 1 ==> s[k].ZBottom() == s[k + 1].zTop
    ensures forall k :: 0 <= k < |s| ==> z - h <= s[k].ZBottom() < s[k].zTop <= z
    ensures forall k :: 0 <= k < |s| ==> Holds(s[k].soil, s[k].ZMiddle()) && s[k].data == data
  {
    Stacked(s, z, dh, h);
  }

  /** n slices of height h / n make up h. */
  lemma EvenSplit(h: real, n: int, dh: real)
    requires n >= 1 && dh == h / n as real
    ensures (n as real) * dh == h
  {
  }

  /** h / n <= t when n = ceil(h / t) and h, t > 0. */
  lemma HeightWithinThickness(h: real, t: real, n: int)
    requires h > 0.0 && t > 0.0 && n == Ceil(h / t)
    ensures n >= 1 && 0.0 < h / n as real <= t
  {
    assert h / t > 0.0;
    assert (n as real) * t >= h by {
      assert (h / t) * t == h;
    }
  }

  // ---------------------------------------------------------------------
  // Whole pile
  // ---------------------------------------------------------------------

  /** The part of a layer inside the pile: (min(level_top, level_sup),
      max(level_bott, level_inf)). */
  function Overlap(soil: Soil, levelTop: real, levelBott: real): (real, real) {
    (Min(levelTop, soil.levelSup), Max(levelBott, soil.levelInf))
  }

  /** What `maillage_pieu` has built after the first j layers: the slices of
      every layer with a positive overlap, in lithology order; the first
      exception is raised. The midpoints are looked up in the whole
      lithology. */
  function MeshUpTo(lith: seq<Soil>, data: PileData, thickness: real, levelTop: real, levelBott: real, j: int): Result<seq<SliceGeom>, Fault>
    requires 0 <= j <= |lith|
  {
    if j == 0 then Success([])
    else
      var acc :- MeshUpTo(lith, data, thickness, levelTop, levelBott, j - 1);
      var (levelMax, levelMin) := Overlap(lith[j - 1], levelTop, levelBott);
      if levelMax - levelMin <= 0.0 then Success(acc)
      else
        var slices :- SlicesSpec(lith, data, thickness, levelMax, levelMin);
        Success(acc + slices)
  }

  /** The whole mesh. */
  function Mesh(lith: seq<Soil>, data: PileData, thickness: real, levelTop: real, levelBott: real): Result<seq<SliceGeom>, Fault> {
    MeshUpTo(lith, data, thickness, levelTop, levelBott, |lith|)
  }

  /** `maillage_pieu`: one pass over the layers, skipping those without a
      positive overlap and concatenating the others' slices. */
  method MaillagePieu(lith: seq<Soil>, data: PileData, thickness: real, levelTop: real, levelBott: real) returns (r: Result<seq<SliceGeom>, Fault>)
    ensures r == Mesh(lith, data, thickness, levelTop, levelBott)
  {
    var slicesAcc: seq<SliceGeom> := [];
    for j := 0 to |lith|
      invariant MeshUpTo(lith, data, thickness, levelTop, levelBott, j) == Success(slicesAcc)
    {
      var levelMax := Min(levelTop, lith[j].levelSup);
      var levelMin := Max(levelBott, lith[j].levelInf);
      if levelMax - levelMin <= 0.0 {
        continue;
      }
      var slices := CreateSlices(lith, data, thickness, levelMax, levelMin);
      if slices.Failure? {
        MeshFailurePersists(lith, data, thickness, levelTop, levelBott, j + 1, |lith|);
        return Failure(slices.error);
      }
      slicesAcc := slicesAcc + slices.value;
    }
    return Success(slicesAcc);
  }

  /** The first exception is the one raised. */
  lemma {:induction false} MeshFailurePersists(lith: seq<Soil>, data: PileData, thickness: real, levelTop: real, levelBott: real, j: int, k: int)
    requires 0 <= j <= k <= |lith|
    requires MeshUpTo(lith, data, thickness, levelTop, levelBott, j).Failure?
    ensures MeshUpTo(lith, data, thickness, levelTop, levelBott, k) == MeshUpTo(lith, data, thickness, levelTop, levelBott, j)
    decreases k - j
  {
    if j < k {
      MeshFailurePersists(lith, data, thickness, levelTop, levelBott, j, k - 1);
    }
  }

  /** With a positive thickness every slice of the mesh lies within the pile,
      has a positive height at most the thickness, and lies in the layer
      holding its midpoint. */
  lemma {:induction false} MeshWithinPile(lith: seq<Soil>, data: PileData, thickness: real, levelTop: real, levelBott: real, j: int)
    requires thickness > 0.0 && 0 <= j <= |lith|
    requires MeshUpTo(lith, data, thickness, levelTop, levelBott, j).Success?
    ensures var s := MeshUpTo(lith, data, thickness, levelTop, levelBott, j).value;
      forall k :: 0 <= k < |s| ==>
        && levelBott <= s[k].ZBottom() < s[k].zTop <= levelTop
        && 0.0 < s[k].deltaH <= thickness
        && Holds(s[k].soil, s[k].ZMiddle()) && s[k].data == data
  {
    if j > 0 {
      MeshWithinPile(lith, data, thickness, levelTop, levelBott, j - 1);
      var (levelMax, levelMin) := Overlap(lith[j - 1], levelTop, levelBott);
      if levelMax - levelMin > 0.0 {
        SlicesTile(lith, data, thickness, levelMax, levelMin);
      }
    }
  }

  /** A sample of the model, on the four test layers Sol1..Sol4: they form a
      contiguous stratigraphy, a shared boundary goes to the upper layer, a
      level below the last layer finds none, and three values of the
      ceiling that counts the slices. */
  lemma MeshSample()
    ensures Contiguous([Sol1, Sol2, Sol3, Sol4])
    ensures SoilAt([Sol1, Sol2, Sol3, Sol4], -1.0) == Some(Sol1)
    ensures SoilAt([Sol1, Sol2, Sol3, Sol4], -1.5) == Some(Sol2)
    ensures SoilAt([Sol1, Sol2, Sol3, Sol4], -25.0) == None
    ensures Ceil(1.0 / 0.2) == 5 && Ceil(1.1 / 0.2) == 6 && Ceil(-0.3) == 0
  {
  }
}
