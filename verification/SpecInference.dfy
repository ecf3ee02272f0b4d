/** Static tensor specs of graph nodes (src/graph/mod.rs) and what they say
    about run-time shapes. */
module SpecInference {
  import opened Wrappers
  import opened Tensors
  import opened Graphs
  import opened GraphExecution

  // ---- inference ----

  function NormalizeDim(dim: int, rank: nat): (r: Option<nat>)
    ensures r.Some? ==> r.value < rank
  {
    var normalized := if dim < 0 then rank + dim else dim;
    if 0 <= normalized < rank then Some(normalized) else None
  }

  /** The merged device, or an error. */
  function MergeDevice(a: Option<nat>, b: Option<nat>): Option<Option<nat>>
  {
    if a.Some? && b.Some? && a.value != b.value then None
    else if a.Some? then Some(a) else Some(b)
  }

  function MergeDim(a: Dim, b: Dim): Option<Dim>
  {
    if a == Known(1) then Some(b)
    else if b == Known(1) then Some(a)
    else if a.Known? && b.Known? then if a.size == b.size then Some(a) else None
    else if a.Symbol? && b.Symbol? && a.name == b.name then Some(a)
    else Some(Dynamic)
  }

  /** `broadcast_dimensions`, from the last dimension. */
  function BroadcastDims(a: seq<Dim>, b: seq<Dim>): Option<seq<Dim>>
  {
    if a == [] then Some(b)
    else if b == [] then Some(a)
    else
      var rest, last := BroadcastDims(Front(a), Front(b)), MergeDim(Last(a), Last(b));
      if rest.None? || last.None? then None else Some(rest.value + [last.value])
  }

  method BroadcastLoop(left: seq<Dim>, right: seq<Dim>) returns (r: Option<seq<Dim>>)
    ensures r == BroadcastDims(left, right)
  {
    var a, b := left, right;
    var output: seq<Dim> := [];
    assert BroadcastDims(a, b).Some? ==> BroadcastDims(a, b).value + output == BroadcastDims(a, b).value;
    while a != [] && b != []
      invariant BroadcastDims(left, right) ==
        if BroadcastDims(a, b).Some? then Some(BroadcastDims(a, b).value + output) else None
      decreases |a|
    {
      var dimension := MergeDim(Last(a), Last(b));
      if dimension.None? {
        return None;
      }
      ghost var rest := BroadcastDims(Front(a), Front(b));
      assert rest.Some? ==> rest.value + [dimension.value] + output == rest.value + ([dimension.value] + output);
      output := [dimension.value] + output;
      a, b := Front(a), Front(b);
    }
    return Some((if a == [] then b else a) + output);
  }

  function InferBinary(a: TensorSpec, b: TensorSpec): Option<TensorSpec>
  {
    var dims := if a.dimensions.Some? && b.dimensions.Some? then
      BroadcastDims(a.dimensions.value, b.dimensions.value) else None;
    var device := MergeDevice(a.device, b.device);
    if a.kind.Some? && b.kind.Some? && a.kind != b.kind then None
    else if a.dimensions.Some? && b.dimensions.Some? && dims.None? then None
    else if device.None? then None
    else
      var rank :=
        if dims.Some? then Some(|dims.value|)
        else if RankValue(a).Some? && RankValue(b).Some? then
          Some(if RankValue(a).value >= RankValue(b).value then RankValue(a).value else RankValue(b).value)
        else None;
      Some(TensorSpec(dims, rank, if a.kind.Some? then a.kind else b.kind, device.value))
  }

  /** The merged dtype and device of a concatenation, or an error. */
  function ConcatHeader(first: TensorSpec, rest: seq<TensorSpec>): Option<(Option<DType>, Option<nat>)>
  {
    if rest == [] then Some((first.kind, first.device))
    else
      var before, input := ConcatHeader(first, Front(rest)), Last(rest);
      if before.None? then None
      else
        var (kind, device) := before.value;
        var merged := MergeDevice(device, input.device);
        if kind.Some? && input.kind.Some? && kind != input.kind then None
        else if RankValue(first).Some? && RankValue(input).Some? && RankValue(first) != RankValue(input) then None
        else if merged.None? then None
        else Some((if kind.Some? then kind else input.kind, merged.value))
  }

  datatype ConcatSize = Differs | Unknown | Total(size: Option<int>)

  function SaturatingAdd(a: int, b: int): int
  {
    if a + b > I64_MAX then I64_MAX else if a + b < -I64_MAX - 1 then -I64_MAX - 1 else a + b
  }

  /** Known sizes off the axis differ. */
  predicate Clash(first: seq<Dim>, other: seq<Dim>, axis: nat)
  {
    exists i | 0 <= i < |first| && i < |other| && i != axis ::
      first[i].Known? && other[i].Known? && first[i].size != other[i].size
  }

  function ConcatAxis(first: seq<Dim>, rest: seq<TensorSpec>, axis: nat): ConcatSize
    requires axis < |first|
  {
    if rest == [] then Total(if first[axis].Known? then Some(first[axis].size) else None)
    else
      var before, dims := ConcatAxis(first, Front(rest), axis), Last(rest).dimensions;
      if !before.Total? then before
      else if dims.None? then Unknown
      else if Clash(first, dims.value, axis) then Differs
      else if before.size.Some? && axis < |dims.value| && dims.value[axis].Known?
      then Total(Some(SaturatingAdd(before.size.value, dims.value[axis].size)))
      else Total(None)
  }

  function InferConcat(inputs: seq<TensorSpec>, dim: int): Option<TensorSpec>
    requires inputs != []
  {
    var first, header := inputs[0], ConcatHeader(inputs[0], inputs[1..]);
    if header.None? then None
    else if RankValue(first).None? then Some(first)
    else
      var axis := NormalizeDim(dim, RankValue(first).value);
      var (kind, device) := header.value;
      var unknown := TensorSpec(None, RankValue(first), kind, device);
      if axis.None? then None
      else if first.dimensions.None? then Some(unknown)
      else
        match ConcatAxis(first.dimensions.value, inputs[1..], axis.value)
        case Differs => None
        case Unknown => Some(unknown)
        case Total(size) =>
          var dims := first.dimensions.value[axis.value := if size.Some? then Known(size.value) else Dynamic];
          Some(TensorSpec(Some(dims), RankValue(first), kind, device))
  }

  /** The checked product of known sizes. */
  function KnownProduct(dims: seq<Dim>): Option<int>
  {
    if dims == [] then Some(1)
    else
      var before := KnownProduct(Front(dims));
      if before.None? || !Last(dims).Known? then None else CheckedMul(before.value, Last(dims).size)
  }

  function InferFlatten(input: TensorSpec, startDim: int, endDim: int): Option<TensorSpec>
  {
    if RankValue(input).None? then Some(input)
    else
      var rank := RankValue(input).value;
      var start, end := NormalizeDim(startDim, rank), NormalizeDim(endDim, rank);
      if start.None? || end.None? || start.value > end.value then None
      else
        var a, b := start.value, end.value;
        var dims :=
          if input.dimensions.None? then None
          else
            var d := input.dimensions.value;
            var product := KnownProduct(d[a..b + 1]);
            Some(d[..a] + [if product.Some? then Known(product.value) else Dynamic] + d[b + 1..]);
        Some(TensorSpec(dims, Some(rank - (b - a)), input.kind, input.device))
  }

  function LinearSpec(input: TensorSpec, outFeatures: int): TensorSpec
  {
    if input.dimensions.Some? && input.dimensions.value != [] then
      input.(dimensions := Some(Front(input.dimensions.value) + [Known(outFeatures)]))
    else input
  }

  /** `infer_node_spec`. */
  function InferNode(op: GraphOp, current: TensorSpec, inputs: seq<TensorSpec>): Option<TensorSpec>
    requires ArityFits(op, |inputs|)
  {
    match op
    case Input => Some(current)
    case MseLoss => Some(current)
    case CrossEntropyLoss => Some(current)
    case Linear(_, out, _) => Some(LinearSpec(inputs[0], out))
    case Flatten(start, end) => InferFlatten(inputs[0], start, end)
    case Add => InferBinary(inputs[0], inputs[1])
    case Subtract => InferBinary(inputs[0], inputs[1])
    case Multiply => InferBinary(inputs[0], inputs[1])
    case Concatenate(dim) => InferConcat(inputs, dim)
    case _ => Some(inputs[0])
  }

  // ---- conformance ----

  predicate FitsDim(size: nat, d: Dim, v: Symbols)
  {
    match d
    case Known(n) => size == n
    case Dynamic => true
    case Symbol(s) => s in v && v[s] == size
  }

  predicate FitsDims(shape: seq<nat>, dims: seq<Dim>, v: Symbols)
  {
    |shape| == |dims| && forall d | 0 <= d < |shape| :: FitsDim(shape[d], dims[d], v)
  }

  /** A run-time shape has the spec's rank and dimensions under a valuation of the symbols. */
  predicate Conforms(shape: seq<nat>, s: TensorSpec, v: Symbols)
  {
    && (RankValue(s).Some? ==> |shape| == RankValue(s).value)
    && (s.dimensions.Some? ==> FitsDims(shape, s.dimensions.value, v))
  }

  lemma {:induction false} BroadcastConforms(a: seq<nat>, b: seq<nat>, x: seq<Dim>, y: seq<Dim>, v: Symbols)
    requires FitsDims(a, x, v) && FitsDims(b, y, v) && BroadcastShape(a, b).Some? && BroadcastDims(x, y).Some?
    ensures FitsDims(BroadcastShape(a, b).value, BroadcastDims(x, y).value, v)
  {
    if a != [] && b != [] {
      assert FitsDim(Last(a), Last(x), v) && FitsDim(Last(b), Last(y), v);
      forall d | 0 <= d < |Front(a)|
        ensures FitsDim(Front(a)[d], Front(x)[d], v)
      {
        assert FitsDim(a[d], x[d], v);
      }
      forall d | 0 <= d < |Front(b)|
        ensures FitsDim(Front(b)[d], Front(y)[d], v)
      {
        assert FitsDim(b[d], y[d], v);
      }
      BroadcastConforms(Front(a), Front(b), Front(x), Front(y), v);
    }
  }

  lemma {:induction false} BroadcastRank(a: seq<nat>, b: seq<nat>)
    requires BroadcastShape(a, b).Some?
    ensures |BroadcastShape(a, b).value| == if |a| >= |b| then |a| else |b|
  {
    if a != [] && b != [] {
      BroadcastRank(Front(a), Front(b));
    }
  }

  lemma BinaryConforms(a: seq<nat>, b: seq<nat>, s: TensorSpec, t: TensorSpec, v: Symbols)
    requires Conforms(a, s, v) && Conforms(b, t, v) && BroadcastShape(a, b).Some? && InferBinary(s, t).Some?
    ensures Conforms(BroadcastShape(a, b).value, InferBinary(s, t).value, v)
  {
    BroadcastRank(a, b);
    if s.dimensions.Some? && t.dimensions.Some? {
      BroadcastConforms(a, b, s.dimensions.value, t.dimensions.value, v);
    }
  }

  lemma {:induction false} NumelSplit(a: seq<nat>, n: nat)
    ensures Numel(a + [n]) == Numel(a) * n
  {
    if a == [] {
      assert a + [n] == [n] && [n][1..] == [];
      assert Numel([n]) == n * Numel([n][1..]);
    } else {
      NumelSplit(a[1..], n);
      assert (a + [n])[1..] == a[1..] + [n];
      assert a[0] * (Numel(a[1..]) * n) == a[0] * Numel(a[1..]) * n;
    }
  }

  lemma {:induction false} ProductConforms(shape: seq<nat>, dims: seq<Dim>, v: Symbols)
    requires FitsDims(shape, dims, v) && KnownProduct(dims).Some?
    ensures KnownProduct(dims).value == Numel(shape)
  {
    if dims != [] {
      forall d | 0 <= d < |Front(shape)|
        ensures FitsDim(Front(shape)[d], Front(dims)[d], v)
      {
        assert FitsDim(shape[d], dims[d], v);
      }
      ProductConforms(Front(shape), Front(dims), v);
      NumelSplit(Front(shape), Last(shape));
      assert shape == Front(shape) + [Last(shape)];
      assert FitsDim(Last(shape), Last(dims), v);
    }
  }

  lemma SliceFits(shape: seq<nat>, dims: seq<Dim>, a: nat, b: nat, v: Symbols)
    requires FitsDims(shape, dims, v) && a <= b <= |shape|
    ensures FitsDims(shape[a..b], dims[a..b], v)
  {
    var s, d := shape[a..b], dims[a..b];
    forall i | 0 <= i < |s|
      ensures FitsDim(s[i], d[i], v)
    {
      assert FitsDim(shape[a + i], dims[a + i], v);
    }
  }

  lemma FlattenConforms(shape: seq<nat>, s: TensorSpec, start: int, end: int, v: Symbols)
    requires Conforms(shape, s, v) && FlattenShape(shape, start, end).Some? && InferFlatten(s, start, end).Some?
    ensures Conforms(FlattenShape(shape, start, end).value, InferFlatten(s, start, end).value, v)
  {
    if RankValue(s).Some? {
      var a, b := NormalizeDim(start, |shape|).value, NormalizeDim(end, |shape|).value;
      if s.dimensions.Some? {
        var d := s.dimensions.value;
        if KnownProduct(d[a..b + 1]).Some? {
          SliceFits(shape, d, a, b + 1, v);
          ProductConforms(shape[a..b + 1], d[a..b + 1], v);
        }
        var out, spec := FlattenShape(shape, start, end).value, InferFlatten(s, start, end).value.dimensions.value;
        forall i | 0 <= i < |out|
          ensures FitsDim(out[i], spec[i], v)
        {
          if i != a {
            var j := if i < a then i else i + (b - a);
            assert FitsDim(shape[j], d[j], v);
          }
        }
      }
    }
  }

  lemma LinearConforms(x: seq<nat>, s: TensorSpec, out: nat, v: Symbols)
    requires Conforms(x, s, v) && x != []
    ensures Conforms(Front(x) + [out], LinearSpec(s, out), v)
  {
    if s.dimensions.Some? {
      var d := s.dimensions.value;
      assert forall i | 0 <= i < |x| :: FitsDim(x[i], d[i], v);
    }
  }
}
