/** Portable tensor programs: validation, guards and execution
    (src/deployment/mod.rs). */
module Programs {
  import opened Wrappers
  import opened Tensors

  const MAX_NODES: nat := 10_000
  const MAX_DEPTH: nat := 32

  datatype Dimension = Known(size: int) | Symbol(name: string, min: int, max: Option<int>)

  datatype ValueSpec = ValueSpec(name: string, dtype: DType, dimensions: seq<Dimension>)

  datatype Tree =
    | Leaf(name: string)
    | Tuple(items: seq<Tree>)
    | List(items: seq<Tree>)
    | Dict(entries: seq<Entry>)

  datatype Entry = Entry(key: string, tree: Tree)

  datatype Operator =
    | Identity | Relu | Sigmoid | Tanh
    | Add | Subtract | Multiply | Matmul | Linear
    | Reshape(shape: seq<int>)
    | Flatten(start: int, end: int)
    | Transpose(dim0: int, dim1: int)
    | Permute(axes: seq<int>)
    | Cat(dim: int)
    | If(thenBranch: Program, elseBranch: Program, result: ValueSpec)

  datatype Operation = Operation(name: string, operator: Operator, inputs: seq<string>)

  datatype Program = Program(
    version: nat,
    operatorVersion: nat,
    inputs: seq<ValueSpec>,
    inputTree: Tree,
    operations: seq<Operation>,
    outputTree: Tree)

  type Env = map<string, Tensor>

  // ---- calling trees ----

  predicate DistinctKeys(entries: seq<Entry>)
  {
    forall i, j | 0 <= i < j < |entries| :: entries[i].key != entries[j].key
  }

  /** `Tree::leaves`: the leaf names appended to `found`, or an error. */
  function Walk(t: Tree, depth: nat, found: seq<string>): Option<seq<string>>
    decreases t
  {
    if depth > MAX_DEPTH || |found| > MAX_NODES then None
    else
      match t
      case Leaf(n) => Some(found + [n])
      case Tuple(v) => WalkAll(v, depth + 1, found)
      case List(v) => WalkAll(v, depth + 1, found)
      case Dict(v) => if DistinctKeys(v) then WalkEntries(v, depth + 1, found) else None
  }

  function WalkAll(v: seq<Tree>, depth: nat, found: seq<string>): Option<seq<string>>
    decreases v
  {
    if v == [] then Some(found)
    else
      var r := Walk(v[0], depth, found);
      if r.None? then None else WalkAll(v[1..], depth, r.value)
  }

  function WalkEntries(v: seq<Entry>, depth: nat, found: seq<string>): Option<seq<string>>
    decreases v
  {
    if v == [] then Some(found)
    else
      var r := Walk(v[0].tree, depth, found);
      if r.None? then None else WalkEntries(v[1..], depth, r.value)
  }

  function Leaves(t: Tree): Option<seq<string>>
  {
    Walk(t, 0, [])
  }

  // ---- guards ----

  type Valuation = map<string, nat>

  predicate Within(actual: nat, min: int, max: Option<int>)
  {
    min <= actual && (max.Some? ==> actual <= max.value)
  }

  function CheckDimensions(dimensions: seq<Dimension>, shape: seq<nat>, symbols: Valuation): Option<Valuation>
    requires |dimensions| == |shape|
  {
    if dimensions == [] then Some(symbols)
    else
      match dimensions[0]
      case Known(n) =>
        if n != shape[0] then None else CheckDimensions(dimensions[1..], shape[1..], symbols)
      case Symbol(name, min, max) =>
        if !Within(shape[0], min, max) || (name in symbols && symbols[name] != shape[0]) then None
        else CheckDimensions(dimensions[1..], shape[1..], symbols[name := shape[0]])
  }

  function CheckFrom(specs: seq<ValueSpec>, inputs: seq<Tensor>, symbols: Valuation): Option<Valuation>
    requires |specs| == |inputs|
  {
    if specs == [] then Some(symbols)
    else if inputs[0].dtype != specs[0].dtype || |inputs[0].shape| != |specs[0].dimensions| then None
    else
      var r := CheckDimensions(specs[0].dimensions, inputs[0].shape, symbols);
      if r.None? then None else CheckFrom(specs[1..], inputs[1..], r.value)
  }

  /** `check_inputs`: the sizes bound to symbols, or an error. */
  function CheckInputs(specs: seq<ValueSpec>, inputs: seq<Tensor>): Option<Valuation>
  {
    if |specs| != |inputs| then None else CheckFrom(specs, inputs, map[])
  }

  /** One size satisfies one dimension under a valuation of the symbols. */
  predicate Meets(actual: nat, d: Dimension, v: Valuation)
  {
    match d
    case Known(n) => actual == n
    case Symbol(name, min, max) => name in v && v[name] == actual && Within(actual, min, max)
  }

  predicate MeetsAll(shape: seq<nat>, dimensions: seq<Dimension>, v: Valuation)
  {
    |shape| == |dimensions| && forall d | 0 <= d < |shape| :: Meets(shape[d], dimensions[d], v)
  }

  /** What the guards promise, without reference to the order they are checked in. */
  predicate Accepted(specs: seq<ValueSpec>, inputs: seq<Tensor>, v: Valuation)
  {
    |specs| == |inputs| &&
    forall i | 0 <= i < |specs| :: inputs[i].dtype == specs[i].dtype &&
      MeetsAll(inputs[i].shape, specs[i].dimensions, v)
  }

  predicate Extends(v: Valuation, w: Valuation)
  {
    forall s | s in v :: s in w && w[s] == v[s]
  }

  lemma {:induction false} CheckDimensionsMeets(dimensions: seq<Dimension>, shape: seq<nat>, symbols: Valuation)
    requires |dimensions| == |shape|
    ensures var r := CheckDimensions(dimensions, shape, symbols);
      r.Some? ==> Extends(symbols, r.value) && MeetsAll(shape, dimensions, r.value)
  {
    if dimensions != [] {
      var next := if dimensions[0].Symbol? then symbols[dimensions[0].name := shape[0]] else symbols;
      CheckDimensionsMeets(dimensions[1..], shape[1..], next);
      var r := CheckDimensions(dimensions, shape, symbols);
      if r.Some? {
        assert r == CheckDimensions(dimensions[1..], shape[1..], next);
        assert Extends(next, r.value);
        assert Meets(shape[0], dimensions[0], r.value);
        forall d | 0 <= d < |shape|
          ensures Meets(shape[d], dimensions[d], r.value)
        {
          assert d > 0 ==> Meets(shape[1..][d - 1], dimensions[1..][d - 1], r.value);
        }
      }
    }
  }

  lemma {:induction false} CheckDimensionsAccepts(dimensions: seq<Dimension>, shape: seq<nat>, symbols: Valuation,
                                                  v: Valuation)
    requires |dimensions| == |shape| && Extends(symbols, v) && MeetsAll(shape, dimensions, v)
    ensures var r := CheckDimensions(dimensions, shape, symbols); r.Some? && Extends(r.value, v)
  {
    if dimensions != [] {
      assert Meets(shape[0], dimensions[0], v);
      assert MeetsAll(shape[1..], dimensions[1..], v) by {
        forall d | 0 <= d < |shape[1..]|
          ensures Meets(shape[1..][d], dimensions[1..][d], v)
        {
          assert Meets(shape[d + 1], dimensions[d + 1], v);
        }
      }
      var next := if dimensions[0].Symbol? then symbols[dimensions[0].name := shape[0]] else symbols;
      CheckDimensionsAccepts(dimensions[1..], shape[1..], next, v);
    }
  }

  lemma MeetsMonotone(shape: seq<nat>, dimensions: seq<Dimension>, v: Valuation, w: Valuation)
    requires MeetsAll(shape, dimensions, v) && Extends(v, w)
    ensures MeetsAll(shape, dimensions, w)
  {
    forall d | 0 <= d < |shape|
      ensures Meets(shape[d], dimensions[d], w)
    {
      assert Meets(shape[d], dimensions[d], v);
    }
  }

  lemma {:induction false} CheckFromMeets(specs: seq<ValueSpec>, inputs: seq<Tensor>, symbols: Valuation)
    requires |specs| == |inputs|
    ensures var r := CheckFrom(specs, inputs, symbols);
      r.Some? ==> Extends(symbols, r.value) && Accepted(specs, inputs, r.value)
  {
    var r := CheckFrom(specs, inputs, symbols);
    if specs != [] && r.Some? {
      var first := CheckDimensions(specs[0].dimensions, inputs[0].shape, symbols);
      CheckDimensionsMeets(specs[0].dimensions, inputs[0].shape, symbols);
      CheckFromMeets(specs[1..], inputs[1..], first.value);
      MeetsMonotone(inputs[0].shape, specs[0].dimensions, first.value, r.value);
      forall i | 0 <= i < |specs|
        ensures inputs[i].dtype == specs[i].dtype && MeetsAll(inputs[i].shape, specs[i].dimensions, r.value)
      {
        assert i > 0 ==> specs[i] == specs[1..][i - 1] && inputs[i] == inputs[1..][i - 1];
      }
    }
  }

  lemma {:induction false} CheckFromAccepts(specs: seq<ValueSpec>, inputs: seq<Tensor>, symbols: Valuation,
                                            v: Valuation)
    requires Accepted(specs, inputs, v) && Extends(symbols, v)
    ensures CheckFrom(specs, inputs, symbols).Some?
  {
    if specs != [] {
      assert inputs[0].dtype == specs[0].dtype && MeetsAll(inputs[0].shape, specs[0].dimensions, v);
      CheckDimensionsAccepts(specs[0].dimensions, inputs[0].shape, symbols, v);
      CheckFromAccepts(specs[1..], inputs[1..], CheckDimensions(specs[0].dimensions, inputs[0].shape, symbols).value,
                       v);
    }
  }

  /** The guards accept exactly the inputs that some valuation of the symbols explains. */
  lemma GuardsAreExact(specs: seq<ValueSpec>, inputs: seq<Tensor>)
    ensures CheckInputs(specs, inputs).Some? <==> exists v :: Accepted(specs, inputs, v)
    ensures CheckInputs(specs, inputs).Some? ==> Accepted(specs, inputs, CheckInputs(specs, inputs).value)
  {
    if |specs| == |inputs| {
      CheckFromMeets(specs, inputs, map[]);
      if v :| Accepted(specs, inputs, v) {
        CheckFromAccepts(specs, inputs, map[], v);
      }
    }
  }

  // ---- operators ----

  predicate ArityOk(op: Operator, n: nat)
  {
    match op
    case Identity => n >= 1
    case Relu => n >= 1
    case Sigmoid => n >= 1
    case Tanh => n >= 1
    case Reshape(_) => n >= 1
    case Flatten(_, _) => n >= 1
    case Transpose(_, _) => n >= 1
    case Permute(_) => n >= 1
    case Add => n >= 2
    case Subtract => n >= 2
    case Multiply => n >= 2
    case Matmul => n >= 2
    case Linear => n >= 2
    case Cat(_) => true
    case If(_, _, _) => n >= 1
  }

  /** The result shape of a functional operator, or `None` when LibTorch rejects the shapes. */
  function ShapeOf(op: Operator, s: seq<seq<nat>>): Option<seq<nat>>
    requires ArityOk(op, |s|)
  {
    match op
    case Identity => Some(s[0])
    case Relu => Some(s[0])
    case Sigmoid => Some(s[0])
    case Tanh => Some(s[0])
    case Add => BroadcastShape(s[0], s[1])
    case Subtract => BroadcastShape(s[0], s[1])
    case Multiply => BroadcastShape(s[0], s[1])
    case Matmul => MatmulShape(s[0], s[1])
    case Linear => LinearShape(s[0], s[1], if |s| > 2 then Some(s[2]) else None)
    case Reshape(shape) => ReshapeShape(s[0], shape)
    case Flatten(start, end) => FlattenShape(s[0], start, end)
    case Transpose(dim0, dim1) => TransposeShape(s[0], dim0, dim1)
    case Permute(axes) => PermuteShape(s[0], axes)
    case Cat(dim) => CatShape(s, dim)
    case If(_, _, _) => None
  }

  function PromoteAll(k: Kernels, xs: seq<DType>): Option<DType>
  {
    if xs == [] then None
    else if |xs| == 1 then Some(xs[0])
    else
      var r := PromoteAll(k, Front(xs));
      if r.None? then None else k.promote(r.value, Last(xs))
  }

  function Kinds(xs: seq<Tensor>): (r: seq<DType>)
    ensures |r| == |xs|
  {
    seq(|xs|, i requires 0 <= i < |xs| => xs[i].dtype)
  }

  /** The result dtype; kernels may reject a dtype. */
  function KindOf(k: Kernels, op: Operator, d: seq<DType>): Option<DType>
    requires ArityOk(op, |d|)
  {
    match op
    case Sigmoid => k.floating(d[0])
    case Tanh => k.floating(d[0])
    case Add => PromoteAll(k, d[..2])
    case Subtract => PromoteAll(k, d[..2])
    case Multiply => PromoteAll(k, d[..2])
    case Matmul => PromoteAll(k, d[..2])
    case Linear => PromoteAll(k, if |d| > 2 then d[..3] else d[..2])
    case Cat(_) => PromoteAll(k, d)
    case If(_, _, _) => None
    case _ => Some(d[0])
  }

  /** An element of the operands broadcast to the result's index. */
  function Operand(x: Tensor, index: seq<nat>): Value
  {
    ValueAt(x, BroadcastIndex(x.shape, index))
  }

  /** The type a linear product has before a bias is added. */
  function ProductKind(k: Kernels, x: Tensor, w: Tensor): DType
  {
    var kind := PromoteAll(k, [x.dtype, w.dtype]);
    if kind.Some? then kind.value else x.dtype
  }

  /** One element of a result of type `dtype` and shape `shape`. */
  function Element(k: Kernels, op: Operator, xs: seq<Tensor>, dtype: DType, shape: seq<nat>, index: seq<nat>): Cell
    requires ArityOk(op, |xs|)
  {
    match op
    case Identity => Get(xs[0], index)
    case Relu => k.relu(dtype, ValueAt(xs[0], index))
    case Sigmoid => k.sigmoid(dtype, ValueAt(xs[0], index))
    case Tanh => k.tanh(dtype, ValueAt(xs[0], index))
    case Add => k.add(dtype, Operand(xs[0], index), Operand(xs[1], index))
    case Subtract => k.subtract(dtype, Operand(xs[0], index), Operand(xs[1], index))
    case Multiply => k.multiply(dtype, Operand(xs[0], index), Operand(xs[1], index))
    case Matmul => MatmulElement(k, dtype, xs[0], xs[1], index)
    case Linear =>
      if |xs| == 2 then LinearElement(k, dtype, xs[0], xs[1], index)
      else BiasedElement(k, dtype, ProductKind(k, xs[0], xs[1]), xs[0], xs[1], xs[2], index)
    case Reshape(_) => Get(xs[0], Unravel(Ravel(index, shape), xs[0].shape))
    case Flatten(_, _) => Get(xs[0], Unravel(Ravel(index, shape), xs[0].shape))
    case Transpose(dim0, dim1) =>
      var a := WrapAxis(dim0, |index|);
      var b := WrapAxis(dim1, |index|);
      if a.Some? && b.Some? then Get(xs[0], Swapped(index, a.value, b.value)) else Whole(0)
    case Permute(axes) => Get(xs[0], Unpermuted(index, axes))
    case Cat(dim) =>
      var a := WrapAxis(dim, |index|);
      if a.Some? then CatElement(k, dtype, xs, a.value, index) else Whole(0)
    case If(_, _, _) => Whole(0)
  }

  /** One functional operator. `Identity` returns its operand itself. */
  function Apply(k: Kernels, op: Operator, xs: seq<Tensor>): Outcome<Tensor>
  {
    if !ArityOk(op, |xs|) then Stuck
    else if op.Identity? then Ok(xs[0])
    else
      var shape := ShapeOf(op, Shapes(xs));
      var kind := KindOf(k, op, Kinds(xs));
      if shape.None? || kind.None? then Failed
      else Ok(Build(kind.value, shape.value, index => Element(k, op, xs, kind.value, shape.value, index)))
  }

  // ---- execution ----

  predicate Bound(env: Env, names: seq<string>)
  {
    forall n | n in names :: n in env
  }

  function Lookup(env: Env, names: seq<string>): (r: seq<Tensor>)
    requires Bound(env, names)
    ensures |r| == |names|
  {
    seq(|names|, i requires 0 <= i < |names| => env[names[i]])
  }

  function Bind(env: Env, specs: seq<ValueSpec>, inputs: seq<Tensor>): Env
    requires |specs| == |inputs|
  {
    if specs == [] then env else Bind(env, Front(specs), Front(inputs))[Last(specs).name := Last(inputs)]
  }

  predicate Truth(t: Tensor)
  {
    Get(t, []) != Whole(0)
  }

  /** The result of one operation, whose operands are `xs`. */
  function Perform(k: Kernels, op: Operator, xs: seq<Tensor>, state: Env): Outcome<Tensor>
    decreases op, 0
  {
    if !op.If? then Apply(k, op, xs)
    else if xs == [] then Stuck
    else if xs[0].dtype != Bool || xs[0].shape != [] then Failed
    else
      var branch := if Truth(xs[0]) then op.thenBranch else op.elseBranch;
      match Execute(k, branch, xs[1..], state)
      case Ok(out) =>
        if out == [] then Stuck
        else if CheckInputs(branch.inputs + [op.result], xs[1..] + [out[0]]).None? then Failed
        else Ok(out[0])
      case Failed => Failed
      case Stuck => Stuck
  }

  /** The environment after one more operation. */
  function Advance(k: Kernels, node: Operation, env: Env, state: Env): Outcome<Env>
    decreases node, 0
  {
    if !Bound(env, node.inputs) then Stuck
    else
      match Perform(k, node.operator, Lookup(env, node.inputs), state)
      case Failed => Failed
      case Stuck => Stuck
      case Ok(value) => Ok(env[node.name := value])
  }

  /** The environment after the guards and the first `n` operations. */
  function RunTo(k: Kernels, p: Program, inputs: seq<Tensor>, state: Env, n: nat): Outcome<Env>
    requires n <= |p.operations|
    decreases p, 0, n
  {
    if n == 0 then
      if CheckInputs(p.inputs, inputs).None? then Failed else Ok(Bind(state, p.inputs, inputs))
    else
      match RunTo(k, p, inputs, state, n - 1)
      case Failed => Failed
      case Stuck => Stuck
      case Ok(env) => Advance(k, p.operations[n - 1], env, state)
  }

  function Execute(k: Kernels, p: Program, inputs: seq<Tensor>, state: Env): Outcome<seq<Tensor>>
    decreases p, 1
  {
    match RunTo(k, p, inputs, state, |p.operations|)
    case Failed => Failed
    case Stuck => Stuck
    case Ok(env) =>
      var leaves := Leaves(p.outputTree);
      if leaves.None? then Failed
      else if !Bound(env, leaves.value) then Stuck
      else Ok(Lookup(env, leaves.value))
  }

  /** The executor's loop over the operations. */
  method Evaluate(k: Kernels, p: Program, inputs: seq<Tensor>, state: Env) returns (r: Outcome<Env>)
    ensures r == RunTo(k, p, inputs, state, |p.operations|)
    decreases p, 0
  {
    if CheckInputs(p.inputs, inputs).None? {
      AbortsForGood(k, p, inputs, state, 0);
      return Failed;
    }
    var values := Bind(state, p.inputs, inputs);
    for i := 0 to |p.operations|
      invariant RunTo(k, p, inputs, state, i) == Ok(values)
    {
      var node := p.operations[i];
      assert RunTo(k, p, inputs, state, i + 1) == Advance(k, node, values, state);
      if !Bound(values, node.inputs) {
        AbortsForGood(k, p, inputs, state, i + 1);
        return Stuck;
      }
      var value := Select(k, node.operator, Lookup(values, node.inputs), state);
      if !value.Ok? {
        AbortsForGood(k, p, inputs, state, i + 1);
        return if value.Failed? then Failed else Stuck;
      }
      values := values[node.name := value.value];
    }
    return Ok(values);
  }

  method Select(k: Kernels, op: Operator, x: seq<Tensor>, state: Env) returns (r: Outcome<Tensor>)
    ensures r == Perform(k, op, x, state)
    decreases op, 0
  {
    if !op.If? {
      return Apply(k, op, x);
    }
    if x == [] {
      return Stuck;
    }
    if x[0].dtype != Bool || x[0].shape != [] {
      return Failed;
    }
    var branch := if Truth(x[0]) then op.thenBranch else op.elseBranch;
    var output := ExecuteBranch(k, branch, x[1..], state);
    match output {
      case Failed => return Failed;
      case Stuck => return Stuck;
      case Ok(out) =>
        if out == [] {
          return Stuck;
        }
        if CheckInputs(branch.inputs + [op.result], x[1..] + [out[0]]).None? {
          return Failed;
        }
        return Ok(out[0]);
    }
  }

  method ExecuteBranch(k: Kernels, p: Program, inputs: seq<Tensor>, state: Env) returns (r: Outcome<seq<Tensor>>)
    ensures r == Execute(k, p, inputs, state)
    decreases p, 1
  {
    var values := Evaluate(k, p, inputs, state);
    match values {
      case Failed => return Failed;
      case Stuck => return Stuck;
      case Ok(env) =>
        var leaves := Leaves(p.outputTree);
        if leaves.None? {
          return Failed;
        }
        if !Bound(env, leaves.value) {
          return Stuck;
        }
        return Ok(Lookup(env, leaves.value));
    }
  }

  /** Once an operation fails the whole run has that outcome. */
  lemma {:induction false} AbortsForGood(k: Kernels, p: Program, inputs: seq<Tensor>, state: Env, n: nat)
    requires n <= |p.operations| && !RunTo(k, p, inputs, state, n).Ok?
    ensures RunTo(k, p, inputs, state, |p.operations|) == RunTo(k, p, inputs, state, n)
    decreases |p.operations| - n
  {
    if n < |p.operations| {
      AbortsForGood(k, p, inputs, state, n + 1);
    }
  }
}
