/** Identities between kernels that the exporters rely on, element by element. */
module KernelLaws {
  import opened Wrappers
  import opened Tensors
  import opened Programs

  lemma BroadcastIndexSame(shape: seq<nat>, index: seq<nat>)
    requires InShape(index, shape)
    ensures BroadcastIndex(shape, index) == index
  {
  }

  lemma TransposedWeight(k: Kernels, w: Tensor)
    requires |w.shape| == 2
    ensures var t := Apply(k, Permute([1, 0]), [w]);
      t.Ok? && t.value.dtype == w.dtype && t.value.shape == [w.shape[1], w.shape[0]] &&
      forall i: nat, o: nat | i < w.shape[1] && o < w.shape[0] :: Get(t.value, [i, o]) == Get(w, [o, i])
  {
    var t := Apply(k, Permute([1, 0]), [w]).value;
    assert Shapes([w])[0] == w.shape && Kinds([w])[0] == w.dtype;
    assert t.shape == [w.shape[1], w.shape[0]];
    forall i: nat, o: nat | i < w.shape[1] && o < w.shape[0]
      ensures Get(t, [i, o]) == Get(w, [o, i])
    {
      assert InShape([i, o], t.shape);
      assert IndexOf([1, 0], 0) == 1 && IndexOf([1, 0], 1) == 0;
      assert Unpermuted([i, o], [1, 0]) == [o, i];
    }
  }

  /** A vector or batch times a transposed weight is the linear product. */
  lemma MatmulIsLinear(k: Kernels, dtype: DType, x: Tensor, w: Tensor, t: Tensor, index: seq<nat>)
    requires x.shape != [] && |w.shape| == 2 && Last(x.shape) == w.shape[1]
    requires t.shape == [w.shape[1], w.shape[0]] && t.dtype == w.dtype
    requires forall i: nat, o: nat | i < w.shape[1] && o < w.shape[0] :: Get(t, [i, o]) == Get(w, [o, i])
    requires InShape(index, Front(x.shape) + [w.shape[0]])
    ensures MatmulElement(k, dtype, x, t, index) == LinearElement(k, dtype, x, w, index)
  {
    var out := Front(x.shape) + [w.shape[0]];
    var i := if |x.shape| > 1 then 1 else 0;
    var batch := index[..|index| - i - 1];
    var row := index[|batch|..|batch| + i];
    var col := index[|batch| + i..];
    assert col == [Last(index)];
    assert InShape(batch, Batch(x.shape)) by {
      forall d | 0 <= d < |batch|
        ensures batch[d] < Batch(x.shape)[d]
      {
        assert index[d] < out[d];
      }
    }
    BroadcastIndexSame(Batch(x.shape), batch);
    assert batch + row == Front(index);
    assert Batch(t.shape) == [] && BroadcastIndex(Batch(t.shape), batch) == [];
    assert index[|index| - 1] < out[|index| - 1];
    SameRows(x, t, w, BroadcastIndex(Batch(x.shape), batch) + row, BroadcastIndex(Batch(t.shape), batch), col, index);
  }

  lemma SameRows(x: Tensor, t: Tensor, w: Tensor, left: seq<nat>, none: seq<nat>, col: seq<nat>, index: seq<nat>)
    requires x.shape != [] && |w.shape| == 2 && Last(x.shape) == w.shape[1] && t.dtype == w.dtype
    requires forall i: nat, o: nat | i < w.shape[1] && o < w.shape[0] :: Get(t, [i, o]) == Get(w, [o, i])
    requires index != [] && Last(index) < w.shape[0] && left == Front(index) && none == [] && col == [Last(index)]
    ensures seq(Last(x.shape), (c: nat) => ValueAt(x, left + [c])) ==
      seq(Last(x.shape), (c: nat) => ValueAt(x, Front(index) + [c]))
    ensures seq(Last(x.shape), (c: nat) => ValueAt(t, none + [c] + col)) ==
      seq(Last(x.shape), (c: nat) => ValueAt(w, [Last(index), c]))
  {
    forall c: nat | c < Last(x.shape)
      ensures ValueAt(t, none + [c] + col) == ValueAt(w, [Last(index), c])
    {
      assert none + [c] + col == [c, Last(index)];
    }
  }

  /** `x @ w^T` without bias. */
  lemma LinearIsMatmul(k: Kernels, x: Tensor, w: Tensor)
    requires LinearShape(x.shape, w.shape, None).Some?
    ensures var t := Apply(k, Permute([1, 0]), [w]).value;
      Apply(k, Matmul, [x, t]) == Apply(k, Linear, [x, w])
  {
    TransposedWeight(k, w);
    var t := Apply(k, Permute([1, 0]), [w]).value;
    var out := Front(x.shape) + [w.shape[0]];
    assert Shapes([x, w]) == [x.shape, w.shape] && Shapes([x, t]) == [x.shape, t.shape];
    assert Kinds([x, w]) == [x.dtype, w.dtype] == Kinds([x, t]);
    MatmulShapeOfLinear(x.shape, w.shape);
    var kind := KindOf(k, Linear, Kinds([x, w]));
    assert KindOf(k, Matmul, Kinds([x, t])) == kind by {
      assert [x.dtype, w.dtype][..2] == [x.dtype, w.dtype];
    }
    if kind.Some? {
      var f := index => Element(k, Matmul, [x, t], kind.value, out, index);
      var g := index => Element(k, Linear, [x, w], kind.value, out, index);
      forall index | InShape(index, out)
        ensures f(index) == g(index)
      {
        MatmulIsLinear(k, kind.value, x, w, t, index);
      }
      BuildEqual(kind.value, out, f, g);
    }
  }

  lemma MatmulShapeOfLinear(x: seq<nat>, w: seq<nat>)
    requires LinearShape(x, w, None).Some?
    ensures MatmulShape(x, [w[1], w[0]]) == Some(Front(x) + [w[0]])
  {
    var t := [w[1], w[0]];
    assert Batch(t) == [];
    assert BroadcastShape(Batch(x), []) == Some(Batch(x));
    var rows := if |x| > 1 then [x[|x| - 2]] else [];
    assert Batch(x) + rows == Front(x);
    assert Last(t) == w[0];
    assert MatmulShape(x, t) == Some(Batch(x) + rows + [w[0]]);
  }

  /** What an unbiased linear returns. */
  lemma LinearParts(k: Kernels, x: Tensor, w: Tensor)
    requires LinearShape(x.shape, w.shape, None).Some? && PromoteAll(k, [x.dtype, w.dtype]).Some?
    ensures var m := Apply(k, Linear, [x, w]);
      m.Ok? && m.value.dtype == PromoteAll(k, [x.dtype, w.dtype]).value &&
      m.value.shape == Front(x.shape) + [w.shape[0]] &&
      forall index | InShape(index, m.value.shape) ::
        ValueAt(m.value, index) == Value(m.value.dtype, LinearElement(k, m.value.dtype, x, w, index))
  {
    assert Shapes([x, w]) == [x.shape, w.shape] && Kinds([x, w]) == [x.dtype, w.dtype];
    assert [x.dtype, w.dtype][..2] == [x.dtype, w.dtype];
  }

  lemma BiasedKind(k: Kernels, x: DType, w: DType, b: DType)
    ensures var two := PromoteAll(k, [x, w]);
      PromoteAll(k, [x, w, b]) == if two.None? then None else k.promote(two.value, b)
  {
    assert Front([x, w, b]) == [x, w];
  }

  lemma AddKind(k: Kernels, m: DType, b: DType)
    ensures PromoteAll(k, [m, b]) == k.promote(m, b)
  {
    assert Front([m, b]) == [m];
  }

  /** The three-node form of a biased linear: transpose, multiply, add. */
  lemma LinearIsMatmulAdd(k: Kernels, x: Tensor, w: Tensor, b: Tensor)
    requires LinearShape(x.shape, w.shape, Some(b.shape)).Some? && b.shape == [w.shape[0]]
    requires Apply(k, Linear, [x, w, b]).Ok?
    ensures var t := Apply(k, Permute([1, 0]), [w]).value;
      var m := Apply(k, Matmul, [x, t]);
      m.Ok? && Apply(k, Add, [m.value, b]) == Apply(k, Linear, [x, w, b])
  {
    var out := Front(x.shape) + [w.shape[0]];
    assert Shapes([x, w, b]) == [x.shape, w.shape, b.shape] && Kinds([x, w, b]) == [x.dtype, w.dtype, b.dtype];
    assert [x.dtype, w.dtype, b.dtype][..3] == [x.dtype, w.dtype, b.dtype];
    BiasedKind(k, x.dtype, w.dtype, b.dtype);
    LinearParts(k, x, w);
    LinearIsMatmul(k, x, w);
    AddBias(k, x, w, b, Apply(k, Linear, [x, w]).value);
  }

  lemma AddBias(k: Kernels, x: Tensor, w: Tensor, b: Tensor, m: Tensor)
    requires LinearShape(x.shape, w.shape, Some(b.shape)).Some? && b.shape == [w.shape[0]]
    requires m.shape == Front(x.shape) + [w.shape[0]] && PromoteAll(k, [x.dtype, w.dtype]) == Some(m.dtype)
    requires forall index | InShape(index, m.shape) ::
      ValueAt(m, index) == Value(m.dtype, LinearElement(k, m.dtype, x, w, index))
    ensures Apply(k, Add, [m, b]) == Apply(k, Linear, [x, w, b])
  {
    var out := m.shape;
    assert Shapes([x, w, b]) == [x.shape, w.shape, b.shape] && Kinds([x, w, b]) == [x.dtype, w.dtype, b.dtype];
    assert [x.dtype, w.dtype, b.dtype][..3] == [x.dtype, w.dtype, b.dtype];
    assert Shapes([m, b]) == [out, b.shape] && Kinds([m, b]) == [m.dtype, b.dtype];
    assert [m.dtype, b.dtype][..2] == [m.dtype, b.dtype];
    BiasedKind(k, x.dtype, w.dtype, b.dtype);
    AddKind(k, m.dtype, b.dtype);
    var kind := k.promote(m.dtype, b.dtype);
    if kind.Some? {
      var f := index => Element(k, Add, [m, b], kind.value, out, index);
      var g := index => Element(k, Linear, [x, w, b], kind.value, out, index);
      forall index | InShape(index, out)
        ensures f(index) == g(index)
      {
        BroadcastIndexSame(out, index);
      }
      BuildEqual(kind.value, out, f, g);
    }
  }

  lemma SwappedIotaIsPermutation(n: nat, a: nat, b: nat)
    requires a < n && b < n
    ensures IsPermutation(Swapped(Iota(n), a, b))
    ensures forall d | 0 <= d < n :: d in Swapped(Iota(n), a, b)
  {
    var axes := Swapped(Iota(n), a, b);
    forall d | 0 <= d < n
      ensures d in axes
    {
      assert axes[if d == a then b else if d == b then a else d] == d;
    }
  }

  /** Swapping two axes is the permutation that swaps them. */
  lemma TransposeIsPermute(k: Kernels, x: Tensor, dim0: int, dim1: int)
    requires x.shape != [] && WrapAxis(dim0, |x.shape|).Some? && WrapAxis(dim1, |x.shape|).Some?
    ensures var axes := Swapped(Iota(|x.shape|), WrapAxis(dim0, |x.shape|).value, WrapAxis(dim1, |x.shape|).value);
      Apply(k, Permute(axes), [x]) == Apply(k, Transpose(dim0, dim1), [x])
  {
    var n := |x.shape|;
    var a := WrapAxis(dim0, n).value;
    var b := WrapAxis(dim1, n).value;
    var axes := Swapped(Iota(n), a, b);
    SwappedIotaIsPermutation(n, a, b);
    assert Shapes([x])[0] == x.shape && Kinds([x])[0] == x.dtype;
    var out := TransposeShape(x.shape, dim0, dim1).value;
    assert PermuteShape(x.shape, axes) == Some(out) by {
      assert PermuteShape(x.shape, axes).value == out;
    }
    forall index: seq<nat> | InShape(index, out)
      ensures Element(k, Permute(axes), [x], x.dtype, out, index) ==
        Element(k, Transpose(dim0, dim1), [x], x.dtype, out, index)
    {
      forall d | 0 <= d < n
        ensures Unpermuted(index, axes)[d] == Swapped(index, a, b)[d]
      {
        var p := IndexOf(axes, d);
        assert d in axes;
        assert p == if d == a then b else if d == b then a else d;
      }
      assert Unpermuted(index, axes) == Swapped(index, a, b);
    }
    BuildEqual(x.dtype, out, index => Element(k, Permute(axes), [x], x.dtype, out, index),
               index => Element(k, Transpose(dim0, dim1), [x], x.dtype, out, index));
  }
}
