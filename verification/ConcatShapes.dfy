/** Concatenation specs against concatenated shapes: the one operation whose
    inferred spec can be wrong, and exactly when (src/graph/mod.rs). */
module ConcatShapes {
  import opened Wrappers
  import opened Tensors
  import InferSpecs
  import opened Graphs
  import opened GraphExecution
  import opened SpecInference

  predicate AllConform(shapes: seq<seq<nat>>, specs: seq<TensorSpec>, v: Symbols)
  {
    |shapes| == |specs| && forall i | 0 <= i < |shapes| :: Conforms(shapes[i], specs[i], v)
  }

  /** The kernel skips an empty vector, so a first operand of that shape does not
      decide the rank of the result although its spec is taken to. */
  predicate SkippedFirst(shapes: seq<seq<nat>>, specs: seq<TensorSpec>)
    requires |shapes| == |specs| > 0
  {
    RankValue(specs[0]).Some? && shapes[0] == [0] && exists i | 0 <= i < |shapes| :: |shapes[i]| != 1
  }

  // ---- what inference settles ----

  lemma {:induction false} HeaderRanks(first: TensorSpec, rest: seq<TensorSpec>, i: nat)
    requires ConcatHeader(first, rest).Some? && i < |rest|
    ensures RankValue(first).Some? && RankValue(rest[i]).Some? ==> RankValue(first) == RankValue(rest[i])
  {
    if i < |rest| - 1 {
      HeaderRanks(first, Front(rest), i);
    }
  }

  lemma {:induction false} AxisKnown(first: seq<Dim>, rest: seq<TensorSpec>, axis: nat, i: nat)
    requires axis < |first| && ConcatAxis(first, rest, axis).Total? && i < |rest|
    ensures rest[i].dimensions.Some?
  {
    if i < |rest| - 1 {
      AxisKnown(first, Front(rest), axis, i);
    }
  }

  // ---- what the kernel computes ----

  lemma CatRank(shapes: seq<seq<nat>>, dim: int, i: nat)
    requires CatShape(shapes, dim).Some? && i < |shapes| && shapes[i] != [0]
    ensures |CatShape(shapes, dim).value| == |shapes[i]|
  {
    var kept := Kept(shapes);
    assert shapes[i] in kept;
    var axis := WrapAxis(dim, |kept[0]|).value;
    assert CatCompatible(kept[0], shapes[i], axis);
  }

  lemma {:induction false} SumFront(shapes: seq<seq<nat>>, axis: nat)
    requires shapes != []
    ensures SumAt(shapes, axis) == SumAt(Front(shapes), axis) + if axis < |Last(shapes)| then Last(shapes)[axis] else 0
  {
    if |shapes| > 1 {
      SumFront(shapes[1..], axis);
      assert Front(shapes)[1..] == Front(shapes[1..]) && Last(shapes) == Last(shapes[1..]);
      assert Front(shapes)[0] == shapes[0];
    } else {
      assert shapes[1..] == [] && Front(shapes) == [];
    }
  }

  /** Equal ranks: the first shape with the axis summed over all operands. */
  lemma CatOfEqualRanks(shapes: seq<seq<nat>>, dim: int, axis: nat)
    requires shapes != [] && CatShape(shapes, dim).Some? && NormalizeDim(dim, |shapes[0]|) == Some(axis)
    requires forall i | 0 <= i < |shapes| :: |shapes[i]| == |shapes[0]|
    ensures CatShape(shapes, dim).value == shapes[0][axis := SumAt(shapes, axis)]
  {
    var kept := Kept(shapes);
    if |shapes[0]| == 1 {
      InferSpecs.KeptSum(shapes);
      assert shapes[0][axis := SumAt(shapes, axis)] == [SumAt(shapes, axis)];
      if kept == [] {
        assert SumAt(kept, 0) == 0;
      } else {
        var one: seq<nat> := kept[0];
        assert one in shapes;
        assert |one| == 1 && one[axis := SumAt(kept, axis)] == [SumAt(kept, axis)];
      }
    } else {
      InferSpecs.KeptAll(shapes);
    }
  }

  /** Known axis sizes add up to the run-time size, which fits 64 bits. */
  lemma {:induction false} AxisSum(first: seq<nat>, dims: seq<Dim>, rest: seq<seq<nat>>, specs: seq<TensorSpec>,
                                   axis: nat, v: Symbols)
    requires FitsDims(first, dims, v) && axis < |dims| && AllConform(rest, specs, v)
    requires ConcatAxis(dims, specs, axis).Total? && ConcatAxis(dims, specs, axis).size.Some?
    requires forall i | 0 <= i < |rest| :: |rest[i]| == |first|
    requires first[axis] + SumAt(rest, axis) <= I64_MAX
    ensures ConcatAxis(dims, specs, axis).size.value == first[axis] + SumAt(rest, axis)
  {
    if specs == [] {
      assert FitsDim(first[axis], dims[axis], v);
    } else {
      SumFront(rest, axis);
      assert AllConform(Front(rest), Front(specs), v) by {
        forall i | 0 <= i < |Front(rest)|
          ensures Conforms(Front(rest)[i], Front(specs)[i], v)
        {
          assert Conforms(rest[i], specs[i], v);
        }
      }
      AxisSum(first, dims, Front(rest), Front(specs), axis, v);
      assert Conforms(Last(rest), Last(specs), v);
      assert FitsDim(Last(rest)[axis], Last(specs).dimensions.value[axis], v);
    }
  }

  // ---- exactly when the inferred spec is right ----

  predicate SizesFit(shape: seq<nat>)
  {
    forall d | 0 <= d < |shape| :: shape[d] <= I64_MAX
  }

  lemma RanksEqual(shapes: seq<seq<nat>>, specs: seq<TensorSpec>, dim: int, v: Symbols, axis: nat)
    requires AllConform(shapes, specs, v) && specs != [] && InferConcat(specs, dim).Some?
    requires specs[0].dimensions.Some? && NormalizeDim(dim, RankValue(specs[0]).value) == Some(axis)
    requires ConcatAxis(specs[0].dimensions.value, specs[1..], axis).Total?
    ensures forall i | 0 <= i < |shapes| :: |shapes[i]| == |shapes[0]|
  {
    forall i | 0 <= i < |shapes|
      ensures |shapes[i]| == |shapes[0]|
    {
      assert Conforms(shapes[i], specs[i], v) && Conforms(shapes[0], specs[0], v);
      if i > 0 {
        AxisKnown(specs[0].dimensions.value, specs[1..], axis, i - 1);
        HeaderRanks(specs[0], specs[1..], i - 1);
        assert specs[1..][i - 1] == specs[i];
      }
    }
  }

  /** All dimensions known: the result has exactly the inferred dimensions. */
  lemma KnownConforms(shapes: seq<seq<nat>>, specs: seq<TensorSpec>, dim: int, v: Symbols, axis: nat)
    requires AllConform(shapes, specs, v) && specs != [] && InferConcat(specs, dim).Some? && CatShape(shapes, dim).Some?
    requires specs[0].dimensions.Some? && NormalizeDim(dim, RankValue(specs[0]).value) == Some(axis)
    requires ConcatAxis(specs[0].dimensions.value, specs[1..], axis).Total? && SizesFit(CatShape(shapes, dim).value)
    ensures Conforms(CatShape(shapes, dim).value, InferConcat(specs, dim).value, v)
    ensures !SkippedFirst(shapes, specs)
  {
    RanksEqual(shapes, specs, dim, v, axis);
    assert Conforms(shapes[0], specs[0], v);
    CatOfEqualRanks(shapes, dim, axis);
    var out, d := CatShape(shapes, dim).value, specs[0].dimensions.value;
    var size := ConcatAxis(d, specs[1..], axis).size;
    if size.Some? {
      assert out[axis] == SumAt(shapes, axis) == shapes[0][axis] + SumAt(shapes[1..], axis);
      assert AllConform(shapes[1..], specs[1..], v) by {
        forall i | 0 <= i < |shapes[1..]|
          ensures Conforms(shapes[1..][i], specs[1..][i], v)
        {
          assert Conforms(shapes[i + 1], specs[i + 1], v);
        }
      }
      AxisSum(shapes[0], d, shapes[1..], specs[1..], axis, v);
    }
    var dims := d[axis := if size.Some? then Known(size.value) else Dynamic];
    forall i | 0 <= i < |out|
      ensures FitsDim(out[i], dims[i], v)
    {
      assert FitsDim(shapes[0][i], d[i], v);
    }
  }

  /** The result rank is the first operand's unless that operand is skipped. */
  lemma RankConforms(shapes: seq<seq<nat>>, specs: seq<TensorSpec>, dim: int, v: Symbols)
    requires AllConform(shapes, specs, v) && specs != [] && CatShape(shapes, dim).Some?
    requires RankValue(specs[0]).Some?
    ensures |CatShape(shapes, dim).value| == RankValue(specs[0]).value <==> !SkippedFirst(shapes, specs)
  {
    assert Conforms(shapes[0], specs[0], v);
    if shapes[0] != [0] {
      CatRank(shapes, dim, 0);
    } else if i :| 0 <= i < |shapes| && |shapes[i]| != 1 {
      CatRank(shapes, dim, i);
    } else if j :| 0 <= j < |shapes| && shapes[j] != [0] {
      CatRank(shapes, dim, j);
    } else {
      assert Kept(shapes) != [] ==> Kept(shapes)[0] in Kept(shapes);
    }
  }

  /** The inferred concatenation spec describes the result exactly when the first
      operand is not a skipped empty vector beside operands of another rank. */
  lemma ConcatConformsIff(shapes: seq<seq<nat>>, specs: seq<TensorSpec>, dim: int, v: Symbols)
    requires AllConform(shapes, specs, v) && specs != [] && InferConcat(specs, dim).Some?
    requires CatShape(shapes, dim).Some? && SizesFit(CatShape(shapes, dim).value)
    ensures Conforms(CatShape(shapes, dim).value, InferConcat(specs, dim).value, v) <==> !SkippedFirst(shapes, specs)
  {
    if RankValue(specs[0]).Some? {
      var axis := NormalizeDim(dim, RankValue(specs[0]).value).value;
      if specs[0].dimensions.Some? && ConcatAxis(specs[0].dimensions.value, specs[1..], axis).Total? {
        KnownConforms(shapes, specs, dim, v, axis);
      } else {
        RankConforms(shapes, specs, dim, v);
      }
    }
  }

  /** A concrete case: an empty vector declared with rank 1 beside an undeclared matrix. */
  lemma SkippedFirstExample() returns (shapes: seq<seq<nat>>, specs: seq<TensorSpec>)
    ensures |shapes| == |specs| == 2 && AllConform(shapes, specs, map[])
    ensures InferConcat(specs, 0).Some? && CatShape(shapes, 0).Some? && SizesFit(CatShape(shapes, 0).value)
    ensures !Conforms(CatShape(shapes, 0).value, InferConcat(specs, 0).value, map[])
  {
    shapes := [[0], [2, 3]];
    specs := [TensorSpec(None, Some(1), None, None), TensorSpec(None, None, None, None)];
    var rest := [specs[1]];
    assert specs[1..] == rest && Front(rest) == [] && Last(rest) == specs[1];
    assert ConcatHeader(specs[0], []) == Some((None, None));
    assert shapes[1..] == [[2, 3]] && [[2, 3]][1..] == [];
    assert Kept([[2, 3]]) == [[2, 3]] && Kept(shapes) == [[2, 3]];
    assert SumAt([[2, 3]], 0) == 2;
    assert CatShape(shapes, 0) == Some([2, 3][0 := 2]);
  }
}
