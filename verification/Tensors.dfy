/** Dense tensors at element level and the LibTorch kernels the deployment
    executor and the graph executor call: which shapes they accept, the shape
    they return, and where every element comes from. What an arithmetic kernel
    computes on elements is left open. */
module Tensors {
  import opened Wrappers

  datatype DType = Float | Double | Int64 | Bool

  /** The bits of one element, or the number they spell in an integer or truth tensor. */
  datatype Cell = Whole(n: int) | Bits(pattern: nat)

  /** A tensor maps each index tuple inside its shape to an element. */
  datatype Tensor = Tensor(dtype: DType, shape: seq<nat>, data: map<seq<nat>, Cell>)

  /** An element with the type it has as an operand. */
  datatype Value = Value(dtype: DType, cell: Cell)

  /** The arithmetic of the kernels, with whatever rounding it has. The first
      argument is the type of the result; `dot` is the inner product of two rows. */
  datatype Kernels = Kernels(
    promote: (DType, DType) -> Option<DType>,
    floating: DType -> Option<DType>,
    convert: (DType, Value) -> Cell,
    relu: (DType, Value) -> Cell,
    sigmoid: (DType, Value) -> Cell,
    tanh: (DType, Value) -> Cell,
    gelu: (DType, Value) -> Cell,
    add: (DType, Value, Value) -> Cell,
    subtract: (DType, Value, Value) -> Cell,
    multiply: (DType, Value, Value) -> Cell,
    dot: (DType, seq<Value>, seq<Value>) -> Cell,
    mse: (Tensor, Tensor) -> Option<Cell>,
    crossEntropy: (Tensor, Tensor) -> Option<Cell>)

  predicate InShape(index: seq<nat>, shape: seq<nat>)
  {
    |index| == |shape| && forall d | 0 <= d < |index| :: index[d] < shape[d]
  }

  function Indices(shape: seq<nat>): (r: set<seq<nat>>)
    ensures forall index :: index in r <==> InShape(index, shape)
  {
    if shape == [] then
      {[]}
    else
      var rest := Indices(shape[1..]);
      var r := set i: nat, tail | i < shape[0] && tail in rest :: [i] + tail;
      assert forall index :: InShape(index, shape) ==> index in r by {
        forall index | InShape(index, shape)
          ensures index in r
        {
          assert InShape(index[1..], shape[1..]);
          assert index == [index[0]] + index[1..];
        }
      }
      r
  }

  function Get(t: Tensor, index: seq<nat>): Cell
  {
    if index in t.data then t.data[index] else Whole(0)
  }

  function ValueAt(t: Tensor, index: seq<nat>): Value
  {
    Value(t.dtype, Get(t, index))
  }

  function Numel(shape: seq<nat>): nat
  {
    if shape == [] then 1 else shape[0] * Numel(shape[1..])
  }

  // ---- storage sizes ----

  const USIZE_MAX: int := 0xffff_ffff_ffff_ffff
  const MAX_BYTES: nat := 256 * 1024 * 1024

  /** Bytes in one element. */
  function Width(dtype: DType): (r: nat)
    ensures 1 <= r <= 8
  {
    match dtype
    case Float => 4
    case Double => 8
    case Int64 => 8
    case Bool => 1
  }

  /** `count` times the sizes, when no step leaves the `usize` range. */
  function CheckedCount(shape: seq<int>, count: nat): Option<nat>
  {
    if shape == [] then Some(count)
    else if shape[0] < 0 || count * shape[0] > USIZE_MAX then None
    else CheckedCount(shape[1..], count * shape[0])
  }

  /** `byte_count`: the size of a contiguous tensor, or an error. */
  function ByteCount(shape: seq<int>, dtype: DType): Option<nat>
  {
    var count := CheckedCount(shape, 1);
    if |shape| > 64 || count.None? || count.value * Width(dtype) > MAX_BYTES then None
    else Some(count.value * Width(dtype))
  }

  // ---- shapes accepted and returned by the kernels ----

  function Last<T>(s: seq<T>): T
    requires |s| > 0
  {
    s[|s| - 1]
  }

  function Front<T>(s: seq<T>): seq<T>
    requires |s| > 0
  {
    s[..|s| - 1]
  }

  function BroadcastDim(x: nat, y: nat): Option<nat>
  {
    if x == 1 then Some(y) else if y == 1 || x == y then Some(x) else None
  }

  /** Right-aligned broadcasting. */
  function BroadcastShape(a: seq<nat>, b: seq<nat>): Option<seq<nat>>
  {
    if a == [] then Some(b)
    else if b == [] then Some(a)
    else
      var d := BroadcastDim(Last(a), Last(b));
      var rest := BroadcastShape(Front(a), Front(b));
      if d.Some? && rest.Some? then Some(rest.value + [d.value]) else None
  }

  function Batch<T>(s: seq<T>): seq<T>
  {
    if |s| < 2 then [] else s[..|s| - 2]
  }

  function MatmulShape(a: seq<nat>, b: seq<nat>): Option<seq<nat>>
  {
    if a == [] || b == [] || Last(a) != b[if |b| > 1 then |b| - 2 else 0] then None
    else
      var batch := BroadcastShape(Batch(a), Batch(b));
      if batch.None? then None
      else Some(batch.value + (if |a| > 1 then [a[|a| - 2]] else []) + (if |b| > 1 then [Last(b)] else []))
  }

  /** `true` when `s` broadcasts to exactly `target`. */
  predicate ExpandsTo(s: seq<nat>, target: seq<nat>)
  {
    BroadcastShape(target, s) == Some(target)
  }

  /** The native linear kernel with a rank-2 weight. */
  function LinearShape(x: seq<nat>, w: seq<nat>, bias: Option<seq<nat>>): Option<seq<nat>>
  {
    if x == [] || |w| != 2 || Last(x) != w[1] then None
    else
      var out := Front(x) + [w[0]];
      if bias.Some? && !ExpandsTo(bias.value, out) then None else Some(out)
  }

  /** LibTorch's dimension wrapping; a scalar accepts the axes -1 and 0. */
  function WrapAxis(d: int, rank: nat): (r: Option<nat>)
    ensures r.Some? && rank > 0 ==> r.value < rank
  {
    var n := if rank == 0 then 1 else rank;
    var e := if d < 0 then n + d else d;
    if 0 <= e < n then Some(e) else None
  }

  function Swapped<T>(s: seq<T>, a: nat, b: nat): (r: seq<T>)
    ensures |r| == |s|
  {
    if a < |s| && b < |s| then s[a := s[b]][b := s[a]] else s
  }

  function TransposeShape(s: seq<nat>, dim0: int, dim1: int): Option<seq<nat>>
  {
    var a := WrapAxis(dim0, |s|);
    var b := WrapAxis(dim1, |s|);
    if a.Some? && b.Some? then Some(Swapped(s, a.value, b.value)) else None
  }

  predicate IsPermutation(axes: seq<int>)
  {
    (forall i | 0 <= i < |axes| :: 0 <= axes[i] < |axes|) &&
    (forall i, j | 0 <= i < j < |axes| :: axes[i] != axes[j])
  }

  function PermuteShape(s: seq<nat>, axes: seq<int>): Option<seq<nat>>
  {
    if |axes| == |s| && IsPermutation(axes) then Some(seq(|s|, d requires 0 <= d < |s| => s[axes[d]])) else None
  }

  function FlattenShape(s: seq<nat>, start: int, end: int): Option<seq<nat>>
  {
    var a := WrapAxis(start, |s|);
    var b := WrapAxis(end, |s|);
    if a.None? || b.None? || a.value > b.value then None
    else if s == [] then Some([1])
    else Some(s[..a.value] + [Numel(s[a.value..b.value + 1])] + s[b.value + 1..])
  }

  /** All axes in order. */
  function Iota(n: nat): (r: seq<nat>)
    ensures |r| == n && forall i | 0 <= i < n :: r[i] == i
  {
    seq(n, i => i)
  }

  /** The product of the entries other than `-1`. */
  function FixedProduct(shape: seq<int>): int
  {
    if shape == [] then 1 else (if shape[0] == -1 then 1 else shape[0]) * FixedProduct(shape[1..])
  }

  function CountInferred(shape: seq<int>): nat
  {
    if shape == [] then 0 else (if shape[0] == -1 then 1 else 0) + CountInferred(shape[1..])
  }

  function ReshapeShape(s: seq<nat>, shape: seq<int>): Option<seq<nat>>
  {
    if (exists i | 0 <= i < |shape| :: shape[i] < -1) || CountInferred(shape) > 1 then None
    else
      var fixed := FixedProduct(shape);
      if CountInferred(shape) == 0 then
        if fixed == Numel(s) then Some(Filled(shape, 0)) else None
      else if fixed <= 0 || Numel(s) % fixed != 0 then None
      else Some(Filled(shape, Numel(s) / fixed))
  }

  /** `shape` with the inferred entry replaced by `d`. */
  function Filled(shape: seq<int>, d: nat): (r: seq<nat>)
    ensures |r| == |shape|
  {
    seq(|shape|, i requires 0 <= i < |shape| => if shape[i] >= 0 then shape[i] else d)
  }

  /** Operands of shape [0] are skipped by the concatenation kernel. */
  function Kept(shapes: seq<seq<nat>>): (r: seq<seq<nat>>)
    ensures forall s :: s in r <==> s in shapes && s != [0]
  {
    if shapes == [] then [] else (if shapes[0] == [0] then [] else [shapes[0]]) + Kept(shapes[1..])
  }

  function SumAt(shapes: seq<seq<nat>>, axis: nat): nat
  {
    if shapes == [] then 0
    else (if axis < |shapes[0]| then shapes[0][axis] else 0) + SumAt(shapes[1..], axis)
  }

  predicate CatCompatible(first: seq<nat>, other: seq<nat>, axis: nat)
  {
    |other| == |first| && forall d | 0 <= d < |first| && d != axis :: other[d] == first[d]
  }

  function CatShape(shapes: seq<seq<nat>>, dim: int): Option<seq<nat>>
  {
    if shapes == [] || [] in shapes then None
    else
      var kept := Kept(shapes);
      if kept == [] then Some([0])
      else
        var axis := WrapAxis(dim, |kept[0]|);
        if axis.None? || kept[0] == [] || exists s | s in kept :: !CatCompatible(kept[0], s, axis.value) then None
        else Some(kept[0][axis.value := SumAt(kept, axis.value)])
  }

  // ---- elements ----

  /** Index into an operand of shape `shape` for the broadcast index `index`. */
  function BroadcastIndex(shape: seq<nat>, index: seq<nat>): seq<nat>
  {
    if |shape| > |index| then []
    else seq(|shape|, d requires 0 <= d < |shape| => if shape[d] == 1 then 0 else index[|index| - |shape| + d])
  }

  function MatmulElement(k: Kernels, dtype: DType, a: Tensor, b: Tensor, index: seq<nat>): Cell
  {
    var i := if |a.shape| > 1 then 1 else 0;
    var j := if |b.shape| > 1 then 1 else 0;
    if a.shape == [] || |index| < i + j then Whole(0)
    else
      var batch := index[..|index| - i - j];
      var row := index[|batch|..|batch| + i];
      var col := index[|batch| + i..];
      k.dot(dtype,
            seq(Last(a.shape), (c: nat) => ValueAt(a, BroadcastIndex(Batch(a.shape), batch) + row + [c])),
            seq(Last(a.shape), (c: nat) => ValueAt(b, BroadcastIndex(Batch(b.shape), batch) + [c] + col)))
  }

  /** A row of the input times a row of the weight. */
  function LinearElement(k: Kernels, dtype: DType, x: Tensor, w: Tensor, index: seq<nat>): Cell
  {
    if x.shape == [] || index == [] then Whole(0)
    else
      k.dot(dtype,
            seq(Last(x.shape), (c: nat) => ValueAt(x, Front(index) + [c])),
            seq(Last(x.shape), (c: nat) => ValueAt(w, [Last(index), c])))
  }

  /** The product, computed in type `product`, plus the bias. */
  function BiasedElement(k: Kernels, dtype: DType, product: DType, x: Tensor, w: Tensor, bias: Tensor,
                         index: seq<nat>): Cell
  {
    k.add(dtype, Value(product, LinearElement(k, product, x, w, index)),
          ValueAt(bias, BroadcastIndex(bias.shape, index)))
  }

  function IndexOf(axes: seq<int>, a: int): (r: nat)
    ensures r <= |axes|
    ensures r < |axes| ==> axes[r] == a
    ensures r == |axes| ==> a !in axes
  {
    if axes == [] then 0 else if axes[0] == a then 0 else 1 + IndexOf(axes[1..], a)
  }

  /** Source index of a permuted tensor. */
  function Unpermuted(index: seq<nat>, axes: seq<int>): seq<nat>
  {
    seq(|index|, d requires 0 <= d < |index| => var p := IndexOf(axes, d); if p < |index| then index[p] else 0)
  }

  /** Row-major position of an index tuple. */
  function Ravel(index: seq<nat>, shape: seq<nat>): nat
  {
    if index == [] || shape == [] then 0 else index[0] * Numel(shape[1..]) + Ravel(index[1..], shape[1..])
  }

  function Unravel(position: nat, shape: seq<nat>): seq<nat>
  {
    if shape == [] then []
    else
      var n := Numel(shape[1..]);
      if n == 0 then seq(|shape|, _ => 0) else [position / n] + Unravel(position % n, shape[1..])
  }

  function CatElement(k: Kernels, dtype: DType, xs: seq<Tensor>, axis: nat, index: seq<nat>): Cell
  {
    if xs == [] || axis >= |index| then Whole(0)
    else if xs[0].shape == [0] || axis >= |xs[0].shape| then CatElement(k, dtype, xs[1..], axis, index)
    else if index[axis] < xs[0].shape[axis] then k.convert(dtype, ValueAt(xs[0], index))
    else CatElement(k, dtype, xs[1..], axis, index[axis := index[axis] - xs[0].shape[axis]])
  }

  function Shapes(xs: seq<Tensor>): (r: seq<seq<nat>>)
    ensures |r| == |xs|
  {
    seq(|xs|, i requires 0 <= i < |xs| => xs[i].shape)
  }

  /** Builds a tensor of a given shape from an element function. */
  function Build(dtype: DType, shape: seq<nat>, element: seq<nat> -> Cell): (t: Tensor)
    ensures t.dtype == dtype && t.shape == shape
    ensures forall index | InShape(index, shape) :: index in t.data && t.data[index] == element(index)
  {
    Tensor(dtype, shape, map index | index in Indices(shape) :: element(index))
  }

  lemma BuildEqual(dtype: DType, shape: seq<nat>, f: seq<nat> -> Cell, g: seq<nat> -> Cell)
    requires forall index | InShape(index, shape) :: f(index) == g(index)
    ensures Build(dtype, shape, f) == Build(dtype, shape, g)
  {
  }
}
