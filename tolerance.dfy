/** The convergence tolerance of the Newton solver, derived from the target
    values (geotech_module/tolerance.py). */
module Tolerance {
  import opened Common

  /** The values `math.isclose(v, 0)` does not discard, in order. */
  function NonZeroValues(xs: seq<real>): seq<real> {
    if xs == [] then []
    else if !IsClose(xs[0], 0.0, 0.0) then [xs[0]] + NonZeroValues(xs[1..])
    else NonZeroValues(xs[1..])
  }

  /** With the default tolerances `isclose(v, 0)` only matches 0, so exactly the
      zero entries are discarded. */
  lemma {:induction false} NonZeroValuesExact(xs: seq<real>)
    ensures forall v :: v in NonZeroValues(xs) <==> v in xs && v != 0.0
  {
    if xs != [] {
      IsCloseToZeroIsExact(xs[0]);
      NonZeroValuesExact(xs[1..]);
      assert xs == [xs[0]] + xs[1..];
    }
  }

  /** `_list_of_values`: keeps, in order, every value not close to 0. */
  method ListOfValues(values: seq<real>) returns (r: seq<real>)
    ensures r == NonZeroValues(values)
    ensures forall v :: v in r <==> v in values && v != 0.0
  {
    r := [];
    for i := 0 to |values|
      invariant r + NonZeroValues(values[i..]) == NonZeroValues(values)
    {
      assert values[i..] == [values[i]] + values[i + 1..];
      if !IsClose(values[i], 0.0, 0.0) {
        r := r + [values[i]];
      }
    }
    assert values[|values|..] == [];
    NonZeroValuesExact(values);
  }

  /** Python's `min` of a non-empty list. */
  function MinOf(xs: seq<real>): (m: real)
    requires xs != []
    ensures m in xs && forall k :: 0 <= k < |xs| ==> m <= xs[k]
  {
    if |xs| == 1 then xs[0] else Min(xs[0], MinOf(xs[1..]))
  }

  /** `_small`: min of the non-zero values; `min([])` raises ValueError, caught -> 0.1. */
  function Small(values: seq<real>): real {
    var nz := NonZeroValues(values);
    if nz == [] then 0.1 else MinOf(nz)
  }

  /** `_big`: ALSO the min of the non-zero values; the fallback is 1.0. */
  function Big(values: seq<real>): real {
    var nz := NonZeroValues(values);
    if nz == [] then 1.0 else MinOf(nz)
  }

  /** `value`: min(|small|, |big|) / 10000. */
  function Value(values: seq<real>): (t: real)
    ensures t > 0.0
    ensures NonZeroValues(values) == [] ==> t == 0.00001
    ensures NonZeroValues(values) != [] ==> t == Abs(MinOf(NonZeroValues(values))) / 10000.0
  {
    NonZeroValuesExact(values);
    Min(Abs(Small(values)), Abs(Big(values))) / 10000.0
  }

  /** The largest value is never consulted: appending a value above the current
      minimum leaves the tolerance unchanged. */
  lemma {:induction false} ValueIgnoresLargerValues(values: seq<real>, v: real)
    requires NonZeroValues(values) != []
    requires v >= MinOf(NonZeroValues(values))
    ensures Value(values + [v]) == Value(values)
  {
    NonZeroValuesAppend(values, v);
    var nz := NonZeroValues(values);
    if v != 0.0 {
      MinOfAppend(nz, v);
    } else {
      assert NonZeroValues(values + [v]) == nz;
    }
  }

  lemma {:induction false} NonZeroValuesAppend(values: seq<real>, v: real)
    ensures NonZeroValues(values + [v]) == NonZeroValues(values) + (if v != 0.0 then [v] else [])
  {
    IsCloseToZeroIsExact(v);
    if values == [] {
      assert [] + [v] == [v];
      assert [v][1..] == [];
    } else {
      assert (values + [v])[1..] == values[1..] + [v];
      NonZeroValuesAppend(values[1..], v);
    }
  }

  lemma {:induction false} MinOfAppend(xs: seq<real>, v: real)
    requires xs != [] && v >= MinOf(xs)
    ensures MinOf(xs + [v]) == MinOf(xs)
  {
    if |xs| == 1 {
      assert (xs + [v])[1..] == [v];
    } else {
      assert (xs + [v])[1..] == xs[1..] + [v];
      var m := MinOf(xs[1..]);
      if v >= m {
        MinOfAppend(xs[1..], v);
      } else {
        assert MinOf(xs) == xs[0];
        MinOfLower(xs[1..], v);
      }
    }
  }

  lemma {:induction false} MinOfLower(xs: seq<real>, v: real)
    requires xs != [] && v <= MinOf(xs)
    ensures MinOf(xs + [v]) == v
  {
    if |xs| == 1 {
      assert (xs + [v])[1..] == [v];
    } else {
      assert (xs + [v])[1..] == xs[1..] + [v];
      MinOfLower(xs[1..], v);
    }
  }

  /** Samples: targets [0.0] and [3.0]. */
  lemma ValueSamples()
    ensures Value([0.0]) == 0.00001
    ensures Value([3.0]) == 0.0003
    ensures Value([-2.0, 0.0, 5.0]) == 0.0002
  {
    assert NonZeroValues([0.0]) == [] by {
      assert [0.0][1..] == [];
    }
    assert NonZeroValues([3.0]) == [3.0] by {
      assert [3.0][1..] == [];
    }
    assert NonZeroValues([-2.0, 0.0, 5.0]) == [-2.0, 5.0] by {
      assert [-2.0, 0.0, 5.0][1..] == [0.0, 5.0];
      assert [0.0, 5.0][1..] == [5.0];
      assert [5.0][1..] == [];
    }
    assert MinOf([-2.0, 5.0]) == -2.0 by {
      assert [-2.0, 5.0][1..] == [5.0];
    }
  }
}
