/** Symbolic shape inference for export (`infer_specs`, src/deployment/mod.rs). */
module InferSpecs {
  import opened Wrappers
  import opened Tensors
  import opened Programs
  import opened Validation

  function Axis(d: int, rank: nat): (r: Option<nat>)
    ensures r.Some? ==> r.value < rank
  {
    var e := if d < 0 then rank + d else d;
    if 0 <= e < rank then Some(e) else None
  }

  predicate Same(a: Dimension, b: Dimension)
  {
    match (a, b)
    case (Known(x), Known(y)) => x == y
    case (Symbol(x, _, _), Symbol(y, _, _)) => x == y
    case _ => false
  }

  function Broadcast(a: seq<Dimension>, b: seq<Dimension>): Option<seq<Dimension>>
  {
    if a == [] then Some(b)
    else if b == [] then Some(a)
    else
      var x := Last(a);
      var y := Last(b);
      var rest := Broadcast(Front(a), Front(b));
      if rest.None? then None
      else if x == Known(1) then Some(rest.value + [y])
      else if y == Known(1) || Same(x, y) then Some(rest.value + [x])
      else None
  }

  /** The product of the known sizes times `known`, and the only symbol met. */
  function Factors(dims: seq<Dimension>, known: int, symbol: Option<Dimension>): Option<(int, Option<Dimension>)>
  {
    if dims == [] then Some((known, symbol))
    else
      match dims[0]
      case Known(n) =>
        var next := CheckedMul(known, n);
        if next.None? then None else Factors(dims[1..], next.value, symbol)
      case Symbol(_, _, _) =>
        if symbol.Some? then None else Factors(dims[1..], known, Some(dims[0]))
  }

  function Product(dims: seq<Dimension>): Option<Dimension>
  {
    if Known(0) in dims then Some(Known(0))
    else
      var f := Factors(dims, 1, None);
      if f.None? then None
      else
        match f.value.1
        case None => Some(Known(f.value.0))
        case Some(d) => if f.value.0 == 1 then Some(d) else None
  }

  function KnownDims(shape: seq<int>): (r: seq<Dimension>)
    ensures |r| == |shape|
  {
    seq(|shape|, i requires 0 <= i < |shape| => Known(shape[i]))
  }

  function CheckedFixedProduct(shape: seq<int>, p: int): Option<int>
  {
    if shape == [] then Some(p)
    else if shape[0] == -1 then CheckedFixedProduct(shape[1..], p)
    else
      var next := CheckedMul(p, shape[0]);
      if next.None? then None else CheckedFixedProduct(shape[1..], next.value)
  }

  function ReshapeDims(first: seq<Dimension>, shape: seq<int>): Option<seq<Dimension>>
  {
    var result := KnownDims(shape);
    if -1 in shape then
      var index := IndexOf(shape, -1);
      var divisor := CheckedFixedProduct(shape, 1);
      var f := Factors(first, 1, None);
      if divisor.None? || divisor.value <= 0 || f.None? then None
      else
        var (known, symbol) := f.value;
        if symbol.None? && known % divisor.value == 0 then Some(result[index := Known(known / divisor.value)])
        else if symbol.Some? && known == divisor.value then Some(result[index := symbol.value])
        else None
    else
      var a := Product(first);
      var b := Product(result);
      if a.None? || b.None? || a != b then None else Some(result)
  }

  /** Adds the axis sizes of the operands to `total`. */
  function CatTotal(first: seq<Dimension>, operands: seq<seq<Dimension>>, axis: nat,
                    total: Dimension): Option<Dimension>
    requires axis < |first|
  {
    if operands == [] then Some(total)
    else
      var d := operands[0];
      if |d| != |first| || exists i | 0 <= i < |first| :: i != axis && !Same(first[i], d[i]) then None
      else if total.Known? && d[axis].Known? then
        var sum := CheckedAdd(total.size, d[axis].size);
        if sum.None? then None else CatTotal(first, operands[1..], axis, Known(sum.value))
      else if total == Known(0) then CatTotal(first, operands[1..], axis, d[axis])
      else if d[axis] == Known(0) then CatTotal(first, operands[1..], axis, total)
      else None
  }

  function LinearDims(x: seq<Dimension>, w: seq<Dimension>, bias: Option<seq<Dimension>>): Option<seq<Dimension>>
  {
    if x == [] || |w| != 2 || !Same(Last(x), w[1]) then None
    else if bias.Some? && bias.value != w[..1] then None
    else Some(x[|x| - 1 := w[0]])
  }

  function MatmulDims(a: seq<Dimension>, b: seq<Dimension>): Option<seq<Dimension>>
  {
    if a == [] || b == [] || !Same(Last(a), b[if |b| > 1 then |b| - 2 else 0]) then None
    else
      var batch := Broadcast(Batch(a), Batch(b));
      if batch.None? then None
      else Some(batch.value + (if |a| > 1 then [a[|a| - 2]] else []) + (if |b| > 1 then [Last(b)] else []))
  }

  function FlattenDims(d: seq<Dimension>, start: int, end: int): Option<seq<Dimension>>
  {
    var a := Axis(start, |d|);
    var b := Axis(end, |d|);
    if a.None? || b.None? || a.value > b.value then None
    else
      var flat := Product(d[a.value..b.value + 1]);
      if flat.None? then None else Some(d[..a.value] + [flat.value] + d[b.value + 1..])
  }

  function TransposeDims(d: seq<Dimension>, dim0: int, dim1: int): Option<seq<Dimension>>
  {
    var a := Axis(dim0, |d|);
    var b := Axis(dim1, |d|);
    if a.None? || b.None? then None else Some(Swapped(d, a.value, b.value))
  }

  function PermuteDims(d: seq<Dimension>, axes: seq<int>): Option<seq<Dimension>>
  {
    if exists i | 0 <= i < |axes| :: !(0 <= axes[i] < |d|) then None
    else Some(seq(|axes|, i requires 0 <= i < |axes| => d[axes[i]]))
  }

  function CatDims(d: seq<seq<Dimension>>, dim: int): Option<seq<Dimension>>
    requires d != []
  {
    var axis := Axis(dim, |d[0]|);
    if axis.None? then None
    else
      var total := CatTotal(d[0], d, axis.value, Known(0));
      if total.None? then None else Some(d[0][axis.value := total.value])
  }

  /** The inferred dimensions of one operation. */
  function InferDims(op: Operator, d: seq<seq<Dimension>>): Option<seq<Dimension>>
    requires ArityOk(op, |d|) && d != []
  {
    match op
    case Identity => Some(d[0])
    case Relu => Some(d[0])
    case Sigmoid => Some(d[0])
    case Tanh => Some(d[0])
    case Add => Broadcast(d[0], d[1])
    case Subtract => Broadcast(d[0], d[1])
    case Multiply => Broadcast(d[0], d[1])
    case Linear => LinearDims(d[0], d[1], if |d| == 3 then Some(d[2]) else None)
    case Matmul => MatmulDims(d[0], d[1])
    case Transpose(dim0, dim1) => TransposeDims(d[0], dim0, dim1)
    case Permute(axes) => PermuteDims(d[0], axes)
    case Flatten(start, end) => FlattenDims(d[0], start, end)
    case Reshape(shape) => ReshapeDims(d[0], shape)
    case Cat(dim) => CatDims(d, dim)
    case If(_, _, _) => None
  }

  type Specs = map<string, ValueSpec>

  function BindSpecs(inputs: seq<ValueSpec>): Specs
  {
    if inputs == [] then map[] else BindSpecs(Front(inputs))[Last(inputs).name := Last(inputs)]
  }

  function StateSpecs(state: Env): Specs
  {
    map n | n in state :: ValueSpec(n, state[n].dtype, KnownDims(state[n].shape))
  }

  function DimsOf(specs: Specs, names: seq<string>): (r: seq<seq<Dimension>>)
    requires forall n | n in names :: n in specs
    ensures |r| == |names|
  {
    seq(|names|, i requires 0 <= i < |names| => specs[names[i]].dimensions)
  }

  /** One iteration of the inference loop. */
  function InferNode(node: Operation, specs: Specs): Option<ValueSpec>
  {
    if node.inputs == [] || (exists n | n in node.inputs :: n !in specs) || !ArityOk(node.operator, |node.inputs|) then
      None
    else if exists n | n in node.inputs :: specs[n].dtype != specs[node.inputs[0]].dtype then None
    else
      var dims := InferDims(node.operator, DimsOf(specs, node.inputs));
      if dims.None? then None else Some(ValueSpec(node.name, specs[node.inputs[0]].dtype, dims.value))
  }

  function InferTo(p: Program, state: Env, n: nat): Option<Specs>
    requires n <= |p.operations|
  {
    if n == 0 then Some(BindSpecs(p.inputs) + StateSpecs(state))
    else
      var before := InferTo(p, state, n - 1);
      if before.None? then None
      else
        var spec := InferNode(p.operations[n - 1], before.value);
        if spec.None? then None else Some(before.value[p.operations[n - 1].name := spec.value])
  }

  function Infer(p: Program, state: Env): Option<Specs>
  {
    InferTo(p, state, |p.operations|)
  }

  method InferLoop(p: Program, state: Env) returns (r: Option<Specs>)
    ensures r == Infer(p, state)
  {
    var specs := BindSpecs(p.inputs) + StateSpecs(state);
    for i := 0 to |p.operations|
      invariant InferTo(p, state, i) == Some(specs)
    {
      var spec := InferNode(p.operations[i], specs);
      if spec.None? {
        InferFailsForGood(p, state, i + 1);
        return None;
      }
      specs := specs[p.operations[i].name := spec.value];
    }
    return Some(specs);
  }

  lemma {:induction false} InferFailsForGood(p: Program, state: Env, n: nat)
    requires n <= |p.operations| && InferTo(p, state, n).None?
    ensures Infer(p, state).None?
    decreases |p.operations| - n
  {
    if n < |p.operations| {
      InferFailsForGood(p, state, n + 1);
    }
  }

  // ---- soundness of one operation ----

  predicate Fits(actual: nat, d: Dimension, v: Valuation)
  {
    match d
    case Known(n) => actual == n
    case Symbol(name, _, _) => name in v && v[name] == actual
  }

  predicate FitsAll(shape: seq<nat>, dims: seq<Dimension>, v: Valuation)
  {
    |shape| == |dims| && forall i | 0 <= i < |shape| :: Fits(shape[i], dims[i], v)
  }

  lemma SameFits(a: nat, b: nat, x: Dimension, y: Dimension, v: Valuation)
    requires Fits(a, x, v) && Fits(b, y, v) && Same(x, y)
    ensures a == b
  {
  }

  lemma FitsSlice(s: seq<nat>, d: seq<Dimension>, v: Valuation, lo: nat, hi: nat)
    requires FitsAll(s, d, v) && lo <= hi <= |s|
    ensures FitsAll(s[lo..hi], d[lo..hi], v)
  {
    forall i | 0 <= i < hi - lo
      ensures Fits(s[lo..hi][i], d[lo..hi][i], v)
    {
      assert Fits(s[lo + i], d[lo + i], v);
    }
  }

  lemma {:induction false} BroadcastSound(a: seq<nat>, b: seq<nat>, x: seq<Dimension>, y: seq<Dimension>, v: Valuation)
    requires FitsAll(a, x, v) && FitsAll(b, y, v) && Broadcast(x, y).Some?
    ensures BroadcastShape(a, b).Some? && FitsAll(BroadcastShape(a, b).value, Broadcast(x, y).value, v)
  {
    if a != [] && b != [] {
      FitsSlice(a, x, v, 0, |a| - 1);
      FitsSlice(b, y, v, 0, |b| - 1);
      BroadcastSound(Front(a), Front(b), Front(x), Front(y), v);
      assert Fits(Last(a), Last(x), v) && Fits(Last(b), Last(y), v);
    }
  }

  function SymbolValue(symbol: Option<Dimension>, v: Valuation): nat
  {
    if symbol.Some? && symbol.value.Symbol? && symbol.value.name in v then v[symbol.value.name] else 1
  }

  lemma Regroup(a: int, b: int, c: int, d: int)
    ensures a * b * c * d == a * c * (b * d)
  {
    assert a * b * c == a * c * b;
  }

  lemma {:induction false} FactorsSound(s: seq<nat>, d: seq<Dimension>, known: int, symbol: Option<Dimension>,
                                        v: Valuation)
    requires FitsAll(s, d, v) && Factors(d, known, symbol).Some?
    requires symbol.Some? ==> symbol.value.Symbol? && symbol.value.name in v
    ensures var (n, t) := Factors(d, known, symbol).value;
      n * SymbolValue(t, v) == known * SymbolValue(symbol, v) * Numel(s) &&
      (t.Some? ==> t.value.Symbol? && t.value.name in v)
  {
    if d != [] {
      assert Fits(s[0], d[0], v);
      FitsSlice(s, d, v, 1, |s|);
      var rest := Numel(s[1..]);
      if d[0].Known? {
        FactorsSound(s[1..], d[1..], known * s[0], symbol, v);
        Regroup(known, s[0], SymbolValue(symbol, v), rest);
      } else {
        FactorsSound(s[1..], d[1..], known, Some(d[0]), v);
        Regroup(known, s[0], 1, rest);
      }
    }
  }

  lemma {:induction false} NumelZero(s: seq<nat>)
    requires 0 in s
    ensures Numel(s) == 0
  {
    if s[0] != 0 {
      NumelZero(s[1..]);
    }
  }

  lemma ProductSound(s: seq<nat>, d: seq<Dimension>, v: Valuation)
    requires FitsAll(s, d, v) && Product(d).Some?
    ensures Fits(Numel(s), Product(d).value, v)
  {
    if Known(0) in d {
      var i :| 0 <= i < |d| && d[i] == Known(0);
      assert Fits(s[i], d[i], v);
      NumelZero(s);
    } else {
      FactorsSound(s, d, 1, None, v);
    }
  }

  lemma LinearSound(x: seq<nat>, w: seq<nat>, bias: Option<seq<nat>>,
                    dx: seq<Dimension>, dw: seq<Dimension>, db: Option<seq<Dimension>>, v: Valuation)
    requires FitsAll(x, dx, v) && FitsAll(w, dw, v) && bias.Some? == db.Some?
    requires bias.Some? ==> FitsAll(bias.value, db.value, v)
    requires LinearDims(dx, dw, db).Some?
    ensures LinearShape(x, w, bias).Some? && FitsAll(LinearShape(x, w, bias).value, LinearDims(dx, dw, db).value, v)
    ensures bias.Some? ==> bias.value == [w[0]]
  {
    assert Fits(Last(x), Last(dx), v) && Fits(w[1], dw[1], v) && Fits(w[0], dw[0], v);
    SameFits(Last(x), w[1], Last(dx), dw[1], v);
    var out := Front(x) + [w[0]];
    assert Front(out) == Front(x);
    if bias.Some? {
      assert Fits(bias.value[0], dw[0], v);
      assert BroadcastShape(out, bias.value) == Some(Front(out) + [w[0]]);
    }
    forall i | 0 <= i < |out|
      ensures Fits(out[i], LinearDims(dx, dw, db).value[i], v)
    {
      assert i < |x| - 1 ==> Fits(x[i], dx[i], v);
    }
  }

  lemma JoinFits(a: seq<nat>, b: seq<nat>, x: seq<Dimension>, y: seq<Dimension>, v: Valuation)
    requires FitsAll(a, x, v) && FitsAll(b, y, v)
    ensures FitsAll(a + b, x + y, v)
  {
    forall i | 0 <= i < |a| + |b|
      ensures Fits((a + b)[i], (x + y)[i], v)
    {
      if i >= |a| {
        assert Fits(b[i - |a|], y[i - |a|], v);
      }
    }
  }

  lemma TailFits(a: seq<nat>, b: seq<nat>, x: seq<Dimension>, y: seq<Dimension>, v: Valuation)
    requires FitsAll(a, x, v) && FitsAll(b, y, v) && b != []
    ensures FitsAll((if |a| > 1 then [a[|a| - 2]] else []), (if |x| > 1 then [x[|x| - 2]] else []), v)
    ensures FitsAll((if |b| > 1 then [Last(b)] else []), (if |y| > 1 then [Last(y)] else []), v)
  {
    assert Fits(Last(b), Last(y), v);
    if |a| > 1 {
      assert Fits(a[|a| - 2], x[|x| - 2], v);
    }
  }

  lemma MatmulSound(a: seq<nat>, b: seq<nat>, x: seq<Dimension>, y: seq<Dimension>, v: Valuation)
    requires FitsAll(a, x, v) && FitsAll(b, y, v) && MatmulDims(x, y).Some?
    ensures MatmulShape(a, b).Some? && FitsAll(MatmulShape(a, b).value, MatmulDims(x, y).value, v)
  {
    var inner := if |b| > 1 then |b| - 2 else 0;
    assert Fits(Last(a), Last(x), v) && Fits(b[inner], y[inner], v) && Fits(Last(b), Last(y), v);
    SameFits(Last(a), b[inner], Last(x), y[inner], v);
    FitsSlice(a, x, v, 0, |Batch(a)|);
    FitsSlice(b, y, v, 0, |Batch(b)|);
    BroadcastSound(Batch(a), Batch(b), Batch(x), Batch(y), v);
    TailFits(a, b, x, y, v);
    var rows, columns := if |a| > 1 then [a[|a| - 2]] else [], if |b| > 1 then [Last(b)] else [];
    var xRows, yColumns := if |x| > 1 then [x[|x| - 2]] else [], if |y| > 1 then [Last(y)] else [];
    JoinFits(BroadcastShape(Batch(a), Batch(b)).value, rows, Broadcast(Batch(x), Batch(y)).value, xRows, v);
    JoinFits(BroadcastShape(Batch(a), Batch(b)).value + rows, columns,
             Broadcast(Batch(x), Batch(y)).value + xRows, yColumns, v);
  }

  lemma FlattenParts(s: seq<nat>, d: seq<Dimension>, start: int, end: int)
    requires |s| == |d| && FlattenDims(d, start, end).Some?
    ensures var a, b := Axis(start, |d|).value, Axis(end, |d|).value;
      a <= b < |s| && Product(d[a..b + 1]).Some? &&
      FlattenDims(d, start, end).value == d[..a] + [Product(d[a..b + 1]).value] + d[b + 1..] &&
      FlattenShape(s, start, end) == Some(s[..a] + [Numel(s[a..b + 1])] + s[b + 1..])
  {
  }

  lemma FlattenSound(s: seq<nat>, d: seq<Dimension>, start: int, end: int, v: Valuation)
    requires FitsAll(s, d, v) && FlattenDims(d, start, end).Some?
    ensures FlattenShape(s, start, end).Some?
    ensures FitsAll(FlattenShape(s, start, end).value, FlattenDims(d, start, end).value, v)
  {
    var a := Axis(start, |d|).value;
    var b := Axis(end, |d|).value;
    FlattenParts(s, d, start, end);
    FitsSlice(s, d, v, a, b + 1);
    ProductSound(s[a..b + 1], d[a..b + 1], v);
    FitsSlice(s, d, v, 0, a);
    FitsSlice(s, d, v, b + 1, |s|);
    var n, flat := Numel(s[a..b + 1]), Product(d[a..b + 1]).value;
    assert FitsAll([n], [flat], v);
    JoinFits(s[..a], [n], d[..a], [flat], v);
    JoinFits(s[..a] + [n], s[b + 1..], d[..a] + [flat], d[b + 1..], v);
  }

  lemma {:induction false} FixedProductChecked(shape: seq<int>, p: int)
    requires CheckedFixedProduct(shape, p).Some?
    ensures CheckedFixedProduct(shape, p).value == p * FixedProduct(shape)
  {
    if shape != [] {
      if shape[0] == -1 {
        FixedProductChecked(shape[1..], p);
      } else {
        FixedProductChecked(shape[1..], p * shape[0]);
        assert p * shape[0] * FixedProduct(shape[1..]) == p * (shape[0] * FixedProduct(shape[1..]));
      }
    }
  }

  lemma {:induction false} NumelOfFixed(shape: seq<int>)
    requires forall i | 0 <= i < |shape| :: shape[i] >= 0
    ensures Numel(Filled(shape, 0)) == FixedProduct(shape) && CountInferred(shape) == 0
  {
    if shape != [] {
      NumelOfFixed(shape[1..]);
      assert Filled(shape, 0)[1..] == Filled(shape[1..], 0);
    }
  }

  lemma {:induction false} CountAtLeastOne(shape: seq<int>)
    requires -1 in shape
    ensures CountInferred(shape) >= 1
    ensures CountInferred(shape) == 1 ==> forall i | 0 <= i < |shape| && shape[i] == -1 :: i == IndexOf(shape, -1)
  {
    if shape[0] != -1 {
      CountAtLeastOne(shape[1..]);
      assert forall i | 0 < i < |shape| && shape[i] == -1 :: shape[1..][i - 1] == -1;
    } else if -1 in shape[1..] {
      CountAtLeastOne(shape[1..]);
    } else {
      assert forall i | 0 < i < |shape| :: shape[i] == shape[1..][i - 1];
    }
  }

  lemma ReshapeSound(s: seq<nat>, d: seq<Dimension>, shape: seq<int>, v: Valuation)
    requires FitsAll(s, d, v) && ReshapeDims(d, shape).Some?
    requires (forall i | 0 <= i < |shape| :: shape[i] >= -1) && CountInferred(shape) <= 1
    ensures ReshapeShape(s, shape).Some? && FitsAll(ReshapeShape(s, shape).value, ReshapeDims(d, shape).value, v)
  {
    if -1 in shape {
      InferredReshapeSound(s, d, shape, v);
    } else {
      FixedReshapeSound(s, d, shape, v);
    }
  }

  lemma FixedReshapeSound(s: seq<nat>, d: seq<Dimension>, shape: seq<int>, v: Valuation)
    requires FitsAll(s, d, v) && -1 !in shape && (forall i | 0 <= i < |shape| :: shape[i] >= -1)
    requires Product(d).Some? && Product(d) == Product(KnownDims(shape))
    ensures ReshapeShape(s, shape).Some? && FitsAll(ReshapeShape(s, shape).value, KnownDims(shape), v)
  {
    assert forall i | 0 <= i < |shape| :: shape[i] in shape && shape[i] >= 0;
    var out := Filled(shape, 0);
    assert FitsAll(out, KnownDims(shape), v);
    ProductSound(s, d, v);
    ProductSound(out, KnownDims(shape), v);
    ProductOfKnown(KnownDims(shape));
    NumelOfFixed(shape);
    assert FixedProduct(shape) == Numel(s);
  }

  /** The open entry of a reshape receives the quotient of the sizes, which is what was inferred for it. */
  lemma QuotientSound(s: seq<nat>, d: seq<Dimension>, shape: seq<int>, v: Valuation)
    requires FitsAll(s, d, v) && ReshapeDims(d, shape).Some? && -1 in shape
    ensures var fixed := FixedProduct(shape);
      fixed > 0 && Numel(s) % fixed == 0 && Fits(Numel(s) / fixed, ReshapeDims(d, shape).value[IndexOf(shape, -1)], v)
  {
    FixedProductChecked(shape, 1);
    FactorsSound(s, d, 1, None, v);
    var (known, symbol) := Factors(d, 1, None).value;
    if symbol.Some? {
      DivideUnique(Numel(s), FixedProduct(shape), SymbolValue(symbol, v), 0);
    } else {
      assert Numel(s) == known;
    }
  }

  lemma InferredReshapeSound(s: seq<nat>, d: seq<Dimension>, shape: seq<int>, v: Valuation)
    requires FitsAll(s, d, v) && ReshapeDims(d, shape).Some? && -1 in shape
    requires (forall i | 0 <= i < |shape| :: shape[i] >= -1) && CountInferred(shape) <= 1
    ensures ReshapeShape(s, shape).Some? && FitsAll(ReshapeShape(s, shape).value, ReshapeDims(d, shape).value, v)
  {
    CountAtLeastOne(shape);
    QuotientSound(s, d, shape, v);
    var fixed, index := FixedProduct(shape), IndexOf(shape, -1);
    var n := Numel(s) / fixed;
    assert ReshapeShape(s, shape) == Some(Filled(shape, n));
    forall i | 0 <= i < |shape|
      ensures Fits(Filled(shape, n)[i], ReshapeDims(d, shape).value[i], v)
    {
      if i != index {
        assert shape[i] != -1;
        assert ReshapeDims(d, shape).value[i] == Known(shape[i]);
      }
    }
  }

  lemma MulGap(a: int, x: int, y: int)
    requires a > 0 && x < y
    ensures a * x + a <= a * y
  {
    assert a * (y - x - 1) >= 0;
    assert a * (y - x - 1) == a * y - a * x - a;
  }

  lemma DivideUnique(n: int, a: int, q: int, r: int)
    requires a > 0 && n == a * q + r && 0 <= r < a
    ensures n / a == q && n % a == r
  {
    var e := n / a;
    assert n == a * e + n % a;
    if q > e {
      MulGap(a, e, q);
    } else if q < e {
      MulGap(a, q, e);
    }
  }

  lemma {:induction false} FactorsOfKnown(d: seq<Dimension>, known: int)
    requires (forall x | x in d :: x.Known?) && Factors(d, known, None).Some?
    ensures Factors(d, known, None).value.1.None?
  {
    if d != [] {
      FactorsOfKnown(d[1..], known * d[0].size);
    }
  }

  lemma ProductOfKnown(d: seq<Dimension>)
    requires (forall x | x in d :: x.Known?) && Product(d).Some?
    ensures Product(d).value.Known?
  {
    if Known(0) !in d {
      FactorsOfKnown(d, 1);
    }
  }

  // ---- concatenation ----

  predicate AllFit(shapes: seq<seq<nat>>, dims: seq<seq<Dimension>>, v: Valuation)
  {
    |shapes| == |dims| && forall i | 0 <= i < |shapes| :: FitsAll(shapes[i], dims[i], v)
  }

  lemma {:induction false} CatTotalSound(first: seq<nat>, d: seq<Dimension>, shapes: seq<seq<nat>>,
                                         dims: seq<seq<Dimension>>,
                                         axis: nat, total: Dimension, sum: nat, v: Valuation)
    requires FitsAll(first, d, v) && AllFit(shapes, dims, v) && axis < |d| && Fits(sum, total, v)
    requires CatTotal(d, dims, axis, total).Some?
    ensures forall s | s in shapes :: CatCompatible(first, s, axis)
    ensures Fits(sum + SumAt(shapes, axis), CatTotal(d, dims, axis, total).value, v)
  {
    if dims != [] {
      assert FitsAll(shapes[0], dims[0], v);
      assert Fits(shapes[0][axis], dims[0][axis], v);
      var next := if total.Known? && dims[0][axis].Known? then Known(total.size + dims[0][axis].size)
                  else if total == Known(0) then dims[0][axis] else total;
      assert AllFit(shapes[1..], dims[1..], v) by {
        forall i | 0 <= i < |shapes[1..]|
          ensures FitsAll(shapes[1..][i], dims[1..][i], v)
        {
          assert FitsAll(shapes[i + 1], dims[i + 1], v);
        }
      }
      CatTotalSound(first, d, shapes[1..], dims[1..], axis, next, sum + shapes[0][axis], v);
      assert CatCompatible(first, shapes[0], axis) by {
        forall i | 0 <= i < |first| && i != axis
          ensures shapes[0][i] == first[i]
        {
          SameFits(first[i], shapes[0][i], d[i], dims[0][i], v);
        }
      }
    }
  }

  lemma {:induction false} KeptAll(shapes: seq<seq<nat>>)
    requires forall i | 0 <= i < |shapes| :: shapes[i] != [0]
    ensures Kept(shapes) == shapes
  {
    if shapes != [] {
      KeptAll(shapes[1..]);
    }
  }

  /** Skipping empty vectors changes no sum along axis 0. */
  lemma {:induction false} KeptSum(shapes: seq<seq<nat>>)
    requires forall i | 0 <= i < |shapes| :: |shapes[i]| == 1
    ensures SumAt(Kept(shapes), 0) == SumAt(shapes, 0)
  {
    if shapes != [] {
      KeptSum(shapes[1..]);
      assert |shapes[0]| == 1;
      if shapes[0] != [0] {
        assert Kept(shapes)[1..] == Kept(shapes[1..]);
      } else {
        assert Kept(shapes) == Kept(shapes[1..]);
      }
    }
  }

  /** Concatenation when every operand matches the first one. */
  lemma CatShapeOf(shapes: seq<seq<nat>>, dim: int, axis: nat)
    requires shapes != [] && Axis(dim, |shapes[0]|) == Some(axis)
    requires forall i | 0 <= i < |shapes| :: CatCompatible(shapes[0], shapes[i], axis)
    ensures CatShape(shapes, dim) == Some(shapes[0][axis := SumAt(shapes, axis)])
  {
    var first := shapes[0];
    var kept := Kept(shapes);
    if |first| == 1 {
      KeptSum(shapes);
      assert first[axis := SumAt(shapes, axis)] == [SumAt(shapes, axis)];
      if kept == [] {
        assert SumAt(kept, 0) == 0;
      } else {
        var one: seq<nat> := kept[0];
        assert one in shapes;
        assert |one| == 1;
        assert one[axis := SumAt(kept, axis)] == [SumAt(kept, axis)];
      }
    } else {
      KeptAll(shapes);
    }
  }

  lemma CatSound(shapes: seq<seq<nat>>, dims: seq<seq<Dimension>>, dim: int, v: Valuation)
    requires AllFit(shapes, dims, v) && dims != [] && CatDims(dims, dim).Some?
    ensures CatShape(shapes, dim).Some? && FitsAll(CatShape(shapes, dim).value, CatDims(dims, dim).value, v)
  {
    var first := shapes[0];
    assert FitsAll(first, dims[0], v);
    var axis := Axis(dim, |dims[0]|).value;
    CatTotalSound(first, dims[0], shapes, dims, axis, Known(0), 0, v);
    CatShapeOf(shapes, dim, axis);
    var out := first[axis := SumAt(shapes, axis)];
    forall i | 0 <= i < |first|
      ensures Fits(out[i], CatDims(dims, dim).value[i], v)
    {
      assert Fits(first[i], dims[0][i], v);
    }
  }

  // ---- permutations ----

  lemma {:induction false} SetNoLarger<T>(s: seq<T>)
    ensures |set x | x in s| <= |s|
  {
    if s != [] {
      SetNoLarger(s[1..]);
      assert (set x | x in s) == {s[0]} + set x | x in s[1..];
    }
  }

  function UpTo(n: nat): (r: set<int>)
    ensures forall a :: a in r <==> 0 <= a < n
    ensures |r| == n
  {
    if n == 0 then {} else UpTo(n - 1) + {n - 1}
  }

  /** Covering every axis leaves no room for a repeated one. */
  lemma SameAxesIsPermutation(axes: seq<int>)
    requires SameAxes(axes)
    ensures IsPermutation(axes)
  {
    forall i, j | 0 <= i < j < |axes|
      ensures axes[i] != axes[j]
    {
      if axes[i] == axes[j] {
        var rest := axes[..j] + axes[j + 1..];
        forall a | a in UpTo(|axes|)
          ensures a in rest
        {
          assert a in axes;
          var p :| 0 <= p < |axes| && axes[p] == a;
          assert rest[if p == j then i else if p < j then p else p - 1] == a;
        }
        SetNoLarger(rest);
        Subset(UpTo(|axes|), set x | x in rest);
      }
    }
  }

  lemma {:induction false} Subset<T>(a: set<T>, b: set<T>)
    requires a <= b
    ensures |a| <= |b|
  {
    if a != {} {
      var x :| x in a;
      Subset(a - {x}, b - {x});
    }
  }

  lemma PermuteSound(s: seq<nat>, d: seq<Dimension>, axes: seq<int>, v: Valuation)
    requires FitsAll(s, d, v) && PermuteDims(d, axes).Some? && SameAxes(axes) && |axes| == |s|
    ensures PermuteShape(s, axes).Some? && FitsAll(PermuteShape(s, axes).value, PermuteDims(d, axes).value, v)
  {
    SameAxesIsPermutation(axes);
    forall i | 0 <= i < |axes|
      ensures Fits(s[axes[i]], d[axes[i]], v)
    {
    }
  }

  lemma TransposeSound(s: seq<nat>, d: seq<Dimension>, dim0: int, dim1: int, v: Valuation)
    requires FitsAll(s, d, v) && TransposeDims(d, dim0, dim1).Some?
    ensures TransposeShape(s, dim0, dim1).Some?
    ensures FitsAll(TransposeShape(s, dim0, dim1).value, TransposeDims(d, dim0, dim1).value, v)
  {
    var a := Axis(dim0, |d|).value;
    var b := Axis(dim1, |d|).value;
    assert Fits(s[a], d[a], v) && Fits(s[b], d[b], v);
  }

  /** The shape rule inferred for an operation is the one the kernel follows.
      Only a permutation needs the rank seen at one run. */
  lemma InferredShapeIsRuntimeShape(op: Operator, shapes: seq<seq<nat>>, dims: seq<seq<Dimension>>, v: Valuation)
    requires AllFit(shapes, dims, v) && dims != [] && WellFormed(op, |dims|) && ArityOk(op, |dims|)
    requires op.Permute? ==> |op.axes| == |shapes[0]|
    requires InferDims(op, dims).Some?
    ensures ShapeOf(op, shapes).Some? && FitsAll(ShapeOf(op, shapes).value, InferDims(op, dims).value, v)
  {
    assert FitsAll(shapes[0], dims[0], v);
    assert |dims| > 1 ==> FitsAll(shapes[1], dims[1], v);
    assert |dims| > 2 ==> FitsAll(shapes[2], dims[2], v);
    match op {
      case Add => BroadcastSound(shapes[0], shapes[1], dims[0], dims[1], v);
      case Subtract => BroadcastSound(shapes[0], shapes[1], dims[0], dims[1], v);
      case Multiply => BroadcastSound(shapes[0], shapes[1], dims[0], dims[1], v);
      case Matmul => MatmulSound(shapes[0], shapes[1], dims[0], dims[1], v);
      case Linear =>
        LinearSound(shapes[0], shapes[1], if |shapes| > 2 then Some(shapes[2]) else None,
                    dims[0], dims[1], if |dims| == 3 then Some(dims[2]) else None, v);
      case Transpose(dim0, dim1) => TransposeSound(shapes[0], dims[0], dim0, dim1, v);
      case Permute(axes) => PermuteSound(shapes[0], dims[0], axes, v);
      case Flatten(start, end) => FlattenSound(shapes[0], dims[0], start, end, v);
      case Reshape(shape) => ReshapeSound(shapes[0], dims[0], shape, v);
      case Cat(dim) => CatSound(shapes, dims, dim, v);
      case _ =>
    }
  }

  // ---- soundness of a whole program ----

  predicate EnvFits(env: Env, specs: Specs, v: Valuation)
  {
    env.Keys == specs.Keys && forall n | n in env :: FitsAll(env[n].shape, specs[n].dimensions, v)
  }

  predicate SameKinds(a: Env, b: Env)
  {
    a.Keys == b.Keys && forall n | n in a :: a[n].dtype == b[n].dtype
  }

  lemma {:induction false} BindSpecsKeys(inputs: seq<ValueSpec>)
    requires DistinctNames(inputs)
    ensures BindSpecs(inputs).Keys == NameSet(inputs)
    ensures forall i | 0 <= i < |inputs| :: BindSpecs(inputs)[inputs[i].name] == inputs[i]
  {
    if inputs != [] {
      BindSpecsKeys(Front(inputs));
      forall i | 0 <= i < |inputs|
        ensures BindSpecs(inputs)[inputs[i].name] == inputs[i]
      {
        assert i < |inputs| - 1 ==> Front(inputs)[i] == inputs[i];
      }
    }
  }

  lemma InputsFit(p: Program, inputs: seq<Tensor>, state: Env, v: Valuation)
    requires DistinctNames(p.inputs) && NameSet(p.inputs) !! state.Keys && Accepted(p.inputs, inputs, v)
    ensures EnvFits(Bind(state, p.inputs, inputs), BindSpecs(p.inputs) + StateSpecs(state), v)
    ensures forall i | 0 <= i < |p.inputs| :: p.inputs[i].name in Bind(state, p.inputs, inputs)
    ensures forall i | 0 <= i < |p.inputs| :: Bind(state, p.inputs, inputs)[p.inputs[i].name] == inputs[i]
    ensures forall n | n in state :: n in Bind(state, p.inputs, inputs) && Bind(state, p.inputs, inputs)[n] == state[n]
    ensures Bind(state, p.inputs, inputs).Keys == state.Keys + NameSet(p.inputs)
  {
    BindKeys(state, p.inputs, inputs);
    BindSpecsKeys(p.inputs);
    var env := Bind(state, p.inputs, inputs);
    forall n | n in env
      ensures FitsAll(env[n].shape, (BindSpecs(p.inputs) + StateSpecs(state))[n].dimensions, v)
    {
      if n !in state {
        var i := NameSetMembers(p.inputs, n);
        assert MeetsAll(inputs[i].shape, p.inputs[i].dimensions, v);
        forall d | 0 <= d < |inputs[i].shape|
          ensures Fits(inputs[i].shape[d], p.inputs[i].dimensions[d], v)
        {
          assert Meets(inputs[i].shape[d], p.inputs[i].dimensions[d], v);
        }
      }
    }
  }

  /** The facts an observed run adds to the inferred shapes. */
  predicate Observed(k: Kernels, op: Operator, shapes: seq<seq<nat>>, kinds: seq<DType>)
    requires ArityOk(op, |kinds|) && |shapes| > 0
  {
    (op.Permute? ==> |op.axes| == |shapes[0]|) && (op.Identity? || KindOf(k, op, kinds).Some?)
  }

  function ResultKind(k: Kernels, op: Operator, kinds: seq<DType>): DType
    requires ArityOk(op, |kinds|) && |kinds| > 0
  {
    if op.Identity? || KindOf(k, op, kinds).None? then kinds[0] else KindOf(k, op, kinds).value
  }

  lemma ObservedFrom(k: Kernels, op: Operator, xs: seq<Tensor>, state: Env)
    requires !op.If? && ArityOk(op, |xs|) && |xs| > 0 && Perform(k, op, xs, state).Ok?
    ensures Observed(k, op, Shapes(xs), Kinds(xs))
    ensures Perform(k, op, xs, state).value.dtype == ResultKind(k, op, Kinds(xs))
  {
    assert Perform(k, op, xs, state) == Apply(k, op, xs);
    if op.Identity? {
      assert Kinds(xs)[0] == xs[0].dtype;
    }
  }

  lemma OperatorFits(k: Kernels, op: Operator, xs: seq<Tensor>, dims: seq<seq<Dimension>>, v: Valuation, state: Env)
    requires AllFit(Shapes(xs), dims, v) && dims != [] && WellFormed(op, |dims|) && ArityOk(op, |dims|)
    requires InferDims(op, dims).Some? && Observed(k, op, Shapes(xs), Kinds(xs))
    ensures Perform(k, op, xs, state).Ok?
    ensures FitsAll(Perform(k, op, xs, state).value.shape, InferDims(op, dims).value, v)
    ensures Perform(k, op, xs, state).value.dtype == ResultKind(k, op, Kinds(xs))
  {
    InferredShapeIsRuntimeShape(op, Shapes(xs), dims, v);
    assert !op.If?;
    assert Perform(k, op, xs, state) == Apply(k, op, xs);
    assert FitsAll(Shapes(xs)[0], dims[0], v);
    if op.Identity? {
      assert Kinds(xs)[0] == xs[0].dtype && Shapes(xs)[0] == xs[0].shape;
    }
  }

  lemma EnvFitsOperands(env: Env, specs: Specs, names: seq<string>, v: Valuation)
    requires EnvFits(env, specs, v) && Bound(env, names)
    ensures AllFit(Shapes(Lookup(env, names)), DimsOf(specs, names), v)
  {
    forall i | 0 <= i < |names|
      ensures FitsAll(Shapes(Lookup(env, names))[i], DimsOf(specs, names)[i], v)
    {
      assert names[i] in env;
    }
  }

  lemma ExtendFits(env: Env, specs: Specs, v: Valuation, name: string, t: Tensor, spec: ValueSpec)
    requires EnvFits(env, specs, v) && FitsAll(t.shape, spec.dimensions, v)
    ensures EnvFits(env[name := t], specs[name := spec], v)
  {
  }

  lemma LookupKinds(a: Env, b: Env, names: seq<string>)
    requires SameKinds(a, b) && Bound(a, names) && Bound(b, names)
    ensures Kinds(Lookup(a, names)) == Kinds(Lookup(b, names))
  {
    forall i | 0 <= i < |names|
      ensures Kinds(Lookup(a, names))[i] == Kinds(Lookup(b, names))[i]
    {
      assert names[i] in a;
    }
  }

  /** What one inferred operation does in a fitting environment. */
  lemma OperationFits(k: Kernels, node: Operation, env: Env, specs: Specs, v: Valuation, state: Env)
    requires EnvFits(env, specs, v) && InferNode(node, specs).Some? && WellFormed(node.operator, |node.inputs|)
    requires var xs := Lookup(env, node.inputs); Observed(k, node.operator, Shapes(xs), Kinds(xs))
    ensures var xs := Lookup(env, node.inputs);
      var t := Perform(k, node.operator, xs, state);
      t.Ok? && t.value.dtype == ResultKind(k, node.operator, Kinds(xs)) &&
      FitsAll(t.value.shape, InferNode(node, specs).value.dimensions, v) &&
      Advance(k, node, env, state) == Ok(env[node.name := t.value])
  {
    EnvFitsOperands(env, specs, node.inputs, v);
    OperatorFits(k, node.operator, Lookup(env, node.inputs), DimsOf(specs, node.inputs), v, state);
  }

  lemma OperationExtends(k: Kernels, node: Operation, env: Env, specs: Specs, v: Valuation, state: Env)
    requires EnvFits(env, specs, v) && InferNode(node, specs).Some? && WellFormed(node.operator, |node.inputs|)
    requires var xs := Lookup(env, node.inputs); Observed(k, node.operator, Shapes(xs), Kinds(xs))
    ensures Advance(k, node, env, state).Ok?
    ensures EnvFits(Advance(k, node, env, state).value, specs[node.name := InferNode(node, specs).value], v)
  {
    OperationFits(k, node, env, specs, v, state);
    ExtendFits(env, specs, v, node.name, Perform(k, node.operator, Lookup(env, node.inputs), state).value,
               InferNode(node, specs).value);
  }

  lemma OperationKinds(k: Kernels, node: Operation, example: Env, env: Env, specs: Specs, e: Valuation, v: Valuation,
                       state: Env)
    requires EnvFits(example, specs, e) && EnvFits(env, specs, v) && SameKinds(example, env)
    requires WellFormed(node.operator, |node.inputs|) && InferNode(node, specs).Some?
    requires Kinds(Lookup(env, node.inputs)) == Kinds(Lookup(example, node.inputs))
    requires Observed(k, node.operator, Shapes(Lookup(env, node.inputs)), Kinds(Lookup(env, node.inputs)))
    requires Observed(k, node.operator, Shapes(Lookup(example, node.inputs)), Kinds(Lookup(example, node.inputs)))
    ensures Advance(k, node, env, state).Ok? && Advance(k, node, example, state).Ok?
    ensures SameKinds(Advance(k, node, example, state).value, Advance(k, node, env, state).value)
  {
    OperationFits(k, node, env, specs, v, state);
    OperationFits(k, node, example, specs, e, state);
  }

  /** An inferred operation that worked once works on every fitting input. */
  lemma StepFits(k: Kernels, node: Operation, example: Env, env: Env, specs: Specs, e: Valuation, v: Valuation,
                 state: Env)
    requires EnvFits(example, specs, e) && EnvFits(env, specs, v) && SameKinds(example, env)
    requires WellFormed(node.operator, |node.inputs|) && InferNode(node, specs).Some?
    requires Advance(k, node, example, state).Ok?
    ensures Advance(k, node, env, state).Ok?
    ensures EnvFits(Advance(k, node, env, state).value, specs[node.name := InferNode(node, specs).value], v)
    ensures EnvFits(Advance(k, node, example, state).value, specs[node.name := InferNode(node, specs).value], e)
    ensures SameKinds(Advance(k, node, example, state).value, Advance(k, node, env, state).value)
  {
    var xs := Lookup(env, node.inputs);
    var ys := Lookup(example, node.inputs);
    LookupKinds(example, env, node.inputs);
    ObservedFrom(k, node.operator, ys, state);
    assert node.inputs[0] in env;
    assert |Shapes(xs)[0]| == |specs[node.inputs[0]].dimensions| == |Shapes(ys)[0]|;
    OperationExtends(k, node, env, specs, v, state);
    OperationExtends(k, node, example, specs, e, state);
    OperationKinds(k, node, example, env, specs, e, v, state);
  }

  /** After `n` operations both runs are under way, fit the inferred specs under
      their own valuations, and agree on every dtype. */
  predicate Together(k: Kernels, p: Program, state: Env, example: seq<Tensor>, inputs: seq<Tensor>, n: nat)
    requires n <= |p.operations|
  {
    var e := CheckInputs(p.inputs, example);
    var v := CheckInputs(p.inputs, inputs);
    var specs := InferTo(p, state, n);
    var a := RunTo(k, p, example, state, n);
    var b := RunTo(k, p, inputs, state, n);
    e.Some? && v.Some? && specs.Some? && a.Ok? && b.Ok? &&
    EnvFits(a.value, specs.value, e.value) && EnvFits(b.value, specs.value, v.value) && SameKinds(a.value, b.value)
  }

  lemma TogetherAtStart(k: Kernels, p: Program, state: Env, example: seq<Tensor>, inputs: seq<Tensor>)
    requires DistinctNames(p.inputs) && NameSet(p.inputs) !! state.Keys
    requires CheckInputs(p.inputs, example).Some? && CheckInputs(p.inputs, inputs).Some?
    ensures Together(k, p, state, example, inputs, 0)
  {
    GuardsAreExact(p.inputs, inputs);
    GuardsAreExact(p.inputs, example);
    InputsFit(p, inputs, state, CheckInputs(p.inputs, inputs).value);
    InputsFit(p, example, state, CheckInputs(p.inputs, example).value);
    var a := Bind(state, p.inputs, example);
    var b := Bind(state, p.inputs, inputs);
    forall x | x in a
      ensures a[x].dtype == b[x].dtype
    {
      if x !in state {
        var i := NameSetMembers(p.inputs, x);
        assert example[i].dtype == p.inputs[i].dtype == inputs[i].dtype;
      }
    }
  }

  lemma InferenceStarts(k: Kernels, p: Program, state: Env, example: seq<Tensor>, inputs: seq<Tensor>)
    requires Valid(p, state.Keys) && Infer(p, state).Some?
    requires RunTo(k, p, example, state, |p.operations|).Ok? && CheckInputs(p.inputs, inputs).Some?
    ensures Together(k, p, state, example, inputs, 0)
  {
    if CheckInputs(p.inputs, example).None? {
      AbortsForGood(k, p, example, state, 0);
    }
    PrefixValid(p, state.Keys, 0, 0, 0);
    DeclareNames(p.inputs, state.Keys);
    TogetherAtStart(k, p, state, example, inputs);
  }

  /** Export inference is sound and total: when inference succeeds and the
      program ran on one accepted example, then every accepted input runs to the
      end, and each value has its inferred shape under the bound symbols. */
  lemma {:induction false} InferenceSound(k: Kernels, p: Program, state: Env, example: seq<Tensor>,
                                          inputs: seq<Tensor>, n: nat)
    requires Valid(p, state.Keys) && n <= |p.operations| && Infer(p, state).Some?
    requires RunTo(k, p, example, state, |p.operations|).Ok? && CheckInputs(p.inputs, inputs).Some?
    ensures Together(k, p, state, example, inputs, n)
  {
    if n == 0 {
      InferenceStarts(k, p, state, example, inputs);
    } else {
      InferenceSound(k, p, state, example, inputs, n - 1);
      if InferTo(p, state, n).None? {
        InferFailsForGood(p, state, n);
      }
      if !RunTo(k, p, example, state, n).Ok? {
        AbortsForGood(k, p, example, state, n);
      }
      OperandsBound(k, p, example, state, 0, 0, n);
      StepFits(k, p.operations[n - 1], RunTo(k, p, example, state, n - 1).value,
               RunTo(k, p, inputs, state, n - 1).value,
               InferTo(p, state, n - 1).value, CheckInputs(p.inputs, example).value,
               CheckInputs(p.inputs, inputs).value, state);
    }
  }

  /** Exported programs never fail on an input their guards accept. */
  lemma AcceptedInputsRun(k: Kernels, p: Program, state: Env, example: seq<Tensor>, inputs: seq<Tensor>)
    requires Valid(p, state.Keys) && Infer(p, state).Some?
    requires RunTo(k, p, example, state, |p.operations|).Ok?
    ensures Execute(k, p, inputs, state).Ok? <==> exists v :: Accepted(p.inputs, inputs, v)
  {
    GuardsAreExact(p.inputs, inputs);
    if CheckInputs(p.inputs, inputs).Some? {
      InferenceSound(k, p, state, example, inputs, |p.operations|);
      NeverStuck(k, p, inputs, state, 0, 0);
    } else {
      AbortsForGood(k, p, inputs, state, 0);
    }
  }
}
