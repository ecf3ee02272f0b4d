/** The ONNX exporter and importer, on decoded graphs (src/deployment/onnx.rs). */
module Onnx {
  import opened Wrappers
  import opened Tensors
  import opened Programs
  import opened Validation
  import opened InferSpecs
  import opened FreshNames

  datatype OpType =
    | OnnxIdentity | OnnxRelu | OnnxSigmoid | OnnxTanh | OnnxAdd | OnnxSub | OnnxMul | OnnxMatMul
    | OnnxTranspose | OnnxConcat | OnnxFlatten | OnnxReshape | OnnxGemm | OnnxConstant | OnnxOther(name: string)

  datatype Key = Perm | AxisKey | AllowZero | Alpha | Beta | TransA | TransB | ValueKey | OtherKey(name: string)

  datatype Attribute = Int(number: int) | Ints(ints: seq<int>) | Real(fraction: real) | Value(value: Tensor)

  type Attributes = map<Key, Attribute>

  datatype Node = Node(op: OpType, inputs: seq<string>, output: string, attrs: Attributes)

  /** A decoded model. `declared` and the trees are its metadata. */
  datatype Proto = Proto(
    nodes: seq<Node>,
    initializers: Env,
    inputs: seq<ValueSpec>,
    outputs: seq<string>,
    declared: Option<seq<ValueSpec>>,
    inputTree: Option<Tree>,
    outputTree: Option<Tree>)

  // ---- import ----

  type Ranks = map<string, nat>

  datatype Importer = Importer(constants: Env, ranks: Ranks, reserved: set<string>, operations: seq<Operation>)

  /** The entries of an `Int64` vector. */
  function AsInts(t: Tensor): Option<seq<int>>
  {
    if t.dtype != Int64 || |t.shape| != 1 || exists i: nat | i < t.shape[0] :: !Get(t, [i]).Whole? then None
    else Some(seq(t.shape[0], (i: nat) requires i < t.shape[0] => Get(t, [i]).n))
  }

  function IntVector(values: seq<int>): Tensor
  {
    Build(Int64, [|values|], index => if |index| == 1 && index[0] < |values| then Whole(values[index[0]]) else Whole(0))
  }

  lemma IntVectorRoundTrip(values: seq<int>)
    ensures AsInts(IntVector(values)) == Some(values)
  {
    var t := IntVector(values);
    forall i | 0 <= i < |values|
      ensures Get(t, [i]) == Whole(values[i])
    {
      assert InShape([i], t.shape);
    }
    assert AsInts(t).value == values;
  }

  function IntAttr(attrs: Attributes, key: Key, default: Option<int>): Option<int>
  {
    if key !in attrs then default
    else if attrs[key].Int? then Some(attrs[key].number) else None
  }

  function Reversed(n: nat): seq<int>
  {
    seq(n, i => n - 1 - i)
  }

  function ParseTranspose(node: Node, st: Importer): Option<Operator>
  {
    if Perm in node.attrs then
      if node.attrs[Perm].Ints? then Some(Permute(node.attrs[Perm].ints)) else None
    else if node.inputs == [] || node.inputs[0] !in st.ranks then None
    else Some(Permute(Reversed(st.ranks[node.inputs[0]])))
  }

  function ParseFlatten(node: Node, st: Importer): Option<Operator>
  {
    if node.inputs == [] || node.inputs[0] !in st.ranks then None
    else
      var axis := IntAttr(node.attrs, AxisKey, Some(1));
      if axis.None? then None
      else
        var e := if axis.value < 0 then st.ranks[node.inputs[0]] + axis.value else axis.value;
        if e != 1 then None else Some(Flatten(1, -1))
  }

  function ParseReshape(node: Node, st: Importer): Option<Operator>
  {
    if |node.inputs| != 2 || node.inputs[1] !in st.constants then None
    else
      var dims := AsInts(st.constants[node.inputs[1]]);
      var allow := IntAttr(node.attrs, AllowZero, Some(0));
      if dims.None? || allow.None? || (allow.value != 1 && 0 in dims.value) || !(0 <= allow.value <= 1) then None
      else Some(Reshape(dims.value))
  }

  function ParseGemm(node: Node, st: Importer): Option<Operator>
  {
    if !(2 <= |node.inputs| <= 3) then None
    else if exists key | key in {Alpha, Beta} :: key in node.attrs && node.attrs[key] != Real(1.0) then None
    else if IntAttr(node.attrs, TransA, Some(0)) != Some(0) || IntAttr(node.attrs, TransB, Some(0)) != Some(1) then None
    else if exists i | 0 <= i < 2 :: !(node.inputs[i] in st.ranks && st.ranks[node.inputs[i]] == 2) then None
    else Some(Linear)
  }

  /** The attributes each operator consumes; any other one is an error. */
  function Consumed(op: OpType): set<Key>
  {
    match op
    case OnnxTranspose => {Perm}
    case OnnxConcat => {AxisKey}
    case OnnxFlatten => {AxisKey}
    case OnnxReshape => {AllowZero}
    case OnnxGemm => {Alpha, Beta, TransA, TransB}
    case OnnxConstant => {ValueKey}
    case _ => {}
  }

  /** The operator and operands of a node other than `Constant`. */
  function Parse(node: Node, st: Importer): Option<(Operator, seq<string>)>
  {
    var op: Option<Operator> := match node.op
      case OnnxIdentity => Some(Identity)
      case OnnxRelu => Some(Relu)
      case OnnxSigmoid => Some(Sigmoid)
      case OnnxTanh => Some(Tanh)
      case OnnxAdd => Some(Add)
      case OnnxSub => Some(Subtract)
      case OnnxMul => Some(Multiply)
      case OnnxMatMul => Some(Matmul)
      case OnnxTranspose => ParseTranspose(node, st)
      case OnnxConcat => (match IntAttr(node.attrs, AxisKey, None) case Some(axis) => Some(Cat(axis)) case None => None)
      case OnnxFlatten => ParseFlatten(node, st)
      case OnnxReshape => ParseReshape(node, st)
      case OnnxGemm => ParseGemm(node, st)
      case OnnxConstant => None
      case OnnxOther(_) => None;
    if op.None? || !(node.attrs.Keys <= Consumed(node.op)) then None
    else Some((op.value, if node.op.OnnxReshape? then Front(node.inputs) else node.inputs))
  }

  function MatmulRank(a: nat, b: nat): nat
    requires a > 0 && b > 0
  {
    if a == 1 && b == 1 then 0 else if a == 1 then b - 1 else if b == 1 then a - 1 else if a >= b then a else b
  }

  /** The rank bookkeeping of the import loop; `None` rejects the node. */
  function Record(name: string, op: Operator, operands: seq<string>, ranks: Ranks): Option<Ranks>
  {
    if op.Linear? || op.Flatten? then Some(ranks[name := 2])
    else if op.Reshape? then Some(ranks[name := |op.shape|])
    else if op.Permute? then Some(ranks[name := |op.axes|])
    else if op.Matmul? && |operands| == 2 then
      if operands[0] in ranks && operands[1] in ranks then
        var a := ranks[operands[0]];
        var b := ranks[operands[1]];
        if a == 0 || b == 0 then None else Some(ranks[name := MatmulRank(a, b)])
      else Some(ranks)
    else if operands != [] && operands[0] in ranks then Some(ranks[name := ranks[operands[0]]])
    else Some(ranks)
  }

  /** Adds one translated operation. */
  function Append(name: string, op: Operator, operands: seq<string>, st: Importer): Option<Importer>
  {
    var ranks := Record(name, op, operands, st.ranks);
    if ranks.None? then None
    else Some(st.(ranks := ranks.value, reserved := st.reserved + {name},
                  operations := st.operations + [Operation(name, op, operands)]))
  }

  function ImportConstant(node: Node, st: Importer): Option<Importer>
  {
    if node.inputs != [] || ValueKey !in node.attrs || !node.attrs[ValueKey].Value? ||
      !(node.attrs.Keys <= {ValueKey}) then None
    else
      var t := node.attrs[ValueKey].value;
      Some(st.(constants := st.constants[node.output := t], ranks := st.ranks[node.output := |t.shape|],
               reserved := st.reserved + {node.output}))
  }

  /** One iteration of the import loop. */
  function ImportNode(node: Node, st: Importer): Option<Importer>
  {
    if node.output in st.reserved || exists n | n in node.inputs :: n !in st.reserved then None
    else if node.op.OnnxConstant? then ImportConstant(node, st)
    else
      var parsed := Parse(node, st);
      if parsed.None? then None else Append(node.output, parsed.value.0, parsed.value.1, st)
  }

  function ImportNodes(nodes: seq<Node>, st: Importer): Option<Importer>
  {
    if nodes == [] then Some(st)
    else
      var before := ImportNodes(Front(nodes), st);
      if before.None? then None else ImportNode(Last(nodes), before.value)
  }

  /** Input types as ONNX stores them: symbols without their ranges. */
  function Erase(s: ValueSpec): ValueSpec
  {
    s.(dimensions := seq(|s.dimensions|, i requires 0 <= i < |s.dimensions| =>
      if s.dimensions[i].Known? then s.dimensions[i] else Symbol(s.dimensions[i].name, 0, None)))
  }

  predicate SameType(a: ValueSpec, b: ValueSpec)
  {
    a.name == b.name && a.dtype == b.dtype && |a.dimensions| == |b.dimensions| &&
    forall i | 0 <= i < |a.dimensions| :: Same(a.dimensions[i], b.dimensions[i])
  }

  function InputRanks(inputs: seq<ValueSpec>): Ranks
  {
    if inputs == [] then map[] else InputRanks(Front(inputs))[Last(inputs).name := |Last(inputs).dimensions|]
  }

  function InitialImporter(proto: Proto): Importer
  {
    Importer(
      proto.initializers,
      InputRanks(proto.inputs) + map n | n in proto.initializers :: |proto.initializers[n].shape|,
      NameSet(proto.inputs) + proto.initializers.Keys,
      [])
  }

  predicate GuardMetadataOk(proto: Proto)
  {
    proto.declared.Some? ==>
      |proto.declared.value| == |proto.inputs| &&
      forall i | 0 <= i < |proto.inputs| :: SameType(proto.declared.value[i], proto.inputs[i])
  }

  function Positional(names: seq<string>): Tree
  {
    Tuple(seq(|names|, i requires 0 <= i < |names| => Leaf(names[i])))
  }

  function Assemble(proto: Proto, operations: seq<Operation>): Program
  {
    Program(1, 1,
      if proto.declared.Some? then proto.declared.value else proto.inputs,
      if proto.inputTree.Some? then proto.inputTree.value else Positional(SpecNames(proto.inputs)),
      operations,
      if proto.outputTree.Some? then proto.outputTree.value else Positional(proto.outputs))
  }

  /** The artifact checks that concern names and counts. */
  predicate ArtifactOk(p: Program, state: set<string>)
  {
    |state| <= MAX_NODES && (forall n | n in state :: ValidName(n)) && Valid(p, state)
  }

  /** `load`: the program and its constants, or an error. */
  function Load(proto: Proto): Option<(Program, Env)>
  {
    if |proto.nodes| > MAX_NODES || |proto.initializers| > MAX_NODES ||
      !(NameSet(proto.inputs) !! proto.initializers.Keys) then None
    else
      var st := ImportNodes(proto.nodes, InitialImporter(proto));
      if st.None? || !GuardMetadataOk(proto) then None
      else if proto.outputTree.Some? && Leaves(proto.outputTree.value) != Some(proto.outputs) then None
      else
        var p := Assemble(proto, st.value.operations);
        if ArtifactOk(p, st.value.constants.Keys) then Some((p, st.value.constants)) else None
  }

  method LoadModel(proto: Proto) returns (r: Option<(Program, Env)>)
    ensures r == Load(proto)
  {
    if |proto.nodes| > MAX_NODES || |proto.initializers| > MAX_NODES ||
      !(NameSet(proto.inputs) !! proto.initializers.Keys) {
      return None;
    }
    var st := LoadNodes(proto);
    if st.None? || !GuardMetadataOk(proto) ||
      (proto.outputTree.Some? && Leaves(proto.outputTree.value) != Some(proto.outputs)) {
      return None;
    }
    var p, state := Assemble(proto, st.value.operations), st.value.constants;
    var spent := ValidateProgram(p, state.Keys, 0, 0);
    return if |state| <= MAX_NODES && (forall n | n in state :: ValidName(n)) && spent.Some? then Some((p, state))
      else None;
  }

  method LoadNodes(proto: Proto) returns (r: Option<Importer>)
    ensures r == ImportNodes(proto.nodes, InitialImporter(proto))
  {
    var st := InitialImporter(proto);
    for i := 0 to |proto.nodes|
      invariant ImportNodes(proto.nodes[..i], InitialImporter(proto)) == Some(st)
    {
      assert Front(proto.nodes[..i + 1]) == proto.nodes[..i];
      var next := ImportNode(proto.nodes[i], st);
      if next.None? {
        ImportFailsForGood(proto.nodes, i + 1, InitialImporter(proto));
        return None;
      }
      st := next.value;
    }
    assert proto.nodes[..|proto.nodes|] == proto.nodes;
    return Some(st);
  }

  lemma {:induction false} ImportFailsForGood(nodes: seq<Node>, n: nat, st: Importer)
    requires n <= |nodes| && ImportNodes(nodes[..n], st).None?
    ensures ImportNodes(nodes, st).None?
    decreases |nodes| - n
  {
    if n < |nodes| {
      assert Front(nodes[..n + 1]) == nodes[..n];
      ImportFailsForGood(nodes, n + 1, st);
    } else {
      assert nodes[..n] == nodes;
    }
  }

  // ---- export ----

  /** The element 1 of each type. */
  function One(dtype: DType): Cell
  {
    match dtype
    case Float => Bits(0x3f80_0000)
    case Double => Bits(0x3ff0_0000_0000_0000)
    case Int64 => Whole(1)
    case Bool => Whole(1)
  }

  function ExampleSize(d: Dimension): int
  {
    match d
    case Known(n) => n
    case Symbol(_, min, max) =>
      var wanted := if min > 2 then min else 2;
      if max.Some? && max.value < wanted then max.value else if I64_MAX < wanted then I64_MAX else wanted
  }

  function ExampleShape(d: seq<Dimension>): seq<int>
  {
    seq(|d|, i requires 0 <= i < |d| => ExampleSize(d[i]))
  }

  /** Tensors of ones at one admissible size, or an error. */
  function Examples(specs: seq<ValueSpec>): Option<seq<Tensor>>
  {
    if specs == [] then Some([])
    else
      var before := Examples(Front(specs));
      var shape := ExampleShape(Last(specs).dimensions);
      if before.None? || ByteCount(shape, Last(specs).dtype).None? || exists i | 0 <= i < |shape| ::
        shape[i] < 0 then None
      else Some(before.value + [Build(Last(specs).dtype, seq(|shape|, i requires 0 <= i < |shape| => shape[i]),
                                      _ => One(Last(specs).dtype))])
  }

  datatype Exporter = Exporter(nodes: seq<Node>, initializers: Env, reserved: set<string>, serial: nat)

  function Simple(op: Operator): OpType
  {
    match op
    case Identity => OnnxIdentity
    case Relu => OnnxRelu
    case Sigmoid => OnnxSigmoid
    case Tanh => OnnxTanh
    case Add => OnnxAdd
    case Subtract => OnnxSub
    case Multiply => OnnxMul
    case Matmul => OnnxMatMul
    case _ => OnnxOther("")
  }

  predicate IsSimple(op: Operator)
  {
    op.Identity? || op.Relu? || op.Sigmoid? || op.Tanh? || op.Add? || op.Subtract? || op.Multiply? || op.Matmul?
  }

  function LowerLinear(node: Operation, e: Exporter): Exporter
    requires 2 <= |node.inputs| <= 3
  {
    var (transposed, s1) := Fresh(e.reserved, e.serial);
    var r1 := e.reserved + {transposed};
    var flip := Node(OnnxTranspose, [node.inputs[1]], transposed, map[Perm := Ints([1, 0])]);
    if |node.inputs| == 2 then
      e.(nodes := e.nodes + [flip, Node(OnnxMatMul, [node.inputs[0], transposed], node.name, map[])], reserved := r1,
         serial := s1)
    else
      var (product, s2) := Fresh(r1, s1);
      e.(nodes := e.nodes + [flip,
                             Node(OnnxMatMul, [node.inputs[0], transposed], product, map[]),
                             Node(OnnxAdd, [product, node.inputs[2]], node.name, map[])],
         reserved := r1 + {product}, serial := s2)
  }

  /** One iteration of the lowering loop. `rank` is the rank of the first
      operand in the example run. */
  function LowerNode(node: Operation, rank: nat, e: Exporter): Option<Exporter>
    requires WellFormed(node.operator, |node.inputs|)
  {
    var op := node.operator;
    if IsSimple(op) then Some(e.(nodes := e.nodes + [Node(Simple(op), node.inputs, node.name, map[])]))
    else
      match op
      case Linear => Some(LowerLinear(node, e))
      case Reshape(shape) =>
        var (name, serial) := Fresh(e.reserved, e.serial);
        Some(e.(nodes := e.nodes + [Node(OnnxReshape, node.inputs + [name], node.name, map[AllowZero := Int(1)])],
                initializers := e.initializers[name := IntVector(shape)],
                reserved := e.reserved + {name}, serial := serial))
      case Flatten(start, end) =>
        if start == 1 && end == -1 then
          Some(e.(nodes := e.nodes + [Node(OnnxFlatten, node.inputs, node.name, map[AxisKey := Int(1)])]))
        else None
      case Permute(axes) => Some(e.(nodes := e.nodes +
                                    [Node(OnnxTranspose, node.inputs, node.name, map[Perm := Ints(axes)])]))
      case Transpose(dim0, dim1) =>
        var a := Axis(dim0, rank);
        var b := Axis(dim1, rank);
        if a.None? || b.None? then None
        else Some(e.(nodes := e.nodes + [Node(OnnxTranspose, node.inputs, node.name,
                                              map[Perm := Ints(Swapped(Iota(rank), a.value, b.value))])]))
      case Cat(dim) => Some(e.(nodes := e.nodes + [Node(OnnxConcat, node.inputs, node.name, map[AxisKey := Int(dim)])]))
      case _ => None
  }

  function RankIn(env: Env, node: Operation): nat
  {
    if node.inputs != [] && node.inputs[0] in env then |env[node.inputs[0]].shape| else 0
  }

  predicate AllWellFormed(p: Program)
  {
    forall i | 0 <= i < |p.operations| :: WellFormed(p.operations[i].operator, |p.operations[i].inputs|)
  }

  function LowerTo(p: Program, state: Env, values: Env, n: nat): Option<Exporter>
    requires n <= |p.operations|
    requires AllWellFormed(p)
  {
    if n == 0 then Some(Exporter([], state, values.Keys, 0))
    else
      var before := LowerTo(p, state, values, n - 1);
      if before.None? then None else LowerNode(p.operations[n - 1], RankIn(values, p.operations[n - 1]), before.value)
  }

  lemma ValidIsWellFormed(p: Program, state: set<string>)
    requires Valid(p, state)
    ensures AllWellFormed(p)
  {
    ScopeOf(p, state, 0, 0, |p.operations|);
  }

  /** `save` for a validated model: the exported graph, or an error. */
  function Save(k: Kernels, p: Program, state: Env): Option<Proto>
    requires Valid(p, state.Keys)
  {
    ValidIsWellFormed(p, state.Keys);
    var examples := Examples(p.inputs);
    if examples.None? then None
    else
      var run := RunTo(k, p, examples.value, state, |p.operations|);
      if !run.Ok? then None
      else
        var lowered := LowerTo(p, state, run.value, |p.operations|);
        if lowered.None? || Infer(p, state).None? then None
        else
          Some(Proto(
            lowered.value.nodes,
            lowered.value.initializers,
            seq(|p.inputs|, i requires 0 <= i < |p.inputs| => Erase(p.inputs[i])),
            Leaves(p.outputTree).value,
            Some(p.inputs), Some(p.inputTree), Some(p.outputTree)))
  }

  method SaveModel(k: Kernels, p: Program, state: Env) returns (r: Option<Proto>)
    requires Valid(p, state.Keys)
    ensures r == Save(k, p, state)
  {
    ValidIsWellFormed(p, state.Keys);
    var examples := Examples(p.inputs);
    if examples.None? {
      return None;
    }
    var values := Evaluate(k, p, examples.value, state);
    if !values.Ok? {
      return None;
    }
    var lowered := LowerLoop(p, state, values.value);
    var specs := InferLoop(p, state);
    if lowered.None? || specs.None? {
      return None;
    }
    return Some(Proto(
      lowered.value.nodes,
      lowered.value.initializers,
      seq(|p.inputs|, i requires 0 <= i < |p.inputs| => Erase(p.inputs[i])),
      Leaves(p.outputTree).value,
      Some(p.inputs), Some(p.inputTree), Some(p.outputTree)));
  }

  method LowerLoop(p: Program, state: Env, values: Env) returns (r: Option<Exporter>)
    requires AllWellFormed(p)
    ensures r == LowerTo(p, state, values, |p.operations|)
  {
    var e := Exporter([], state, values.Keys, 0);
    for i := 0 to |p.operations|
      invariant LowerTo(p, state, values, i) == Some(e)
    {
      var next := LowerNode(p.operations[i], RankIn(values, p.operations[i]), e);
      if next.None? {
        LowerFailsForGood(p, state, values, i + 1);
        return None;
      }
      e := next.value;
    }
    return Some(e);
  }

  lemma LowerStaysFailed(p: Program, state: Env, values: Env, n: nat)
    requires n < |p.operations| && AllWellFormed(p) && LowerTo(p, state, values, n).None?
    ensures LowerTo(p, state, values, n + 1).None?
  {
  }

  lemma {:induction false} LowerFailsForGood(p: Program, state: Env, values: Env, n: nat)
    requires n <= |p.operations|
    requires AllWellFormed(p)
    requires LowerTo(p, state, values, n).None?
    ensures LowerTo(p, state, values, |p.operations|).None?
    decreases |p.operations| - n
  {
    if n < |p.operations| {
      LowerStaysFailed(p, state, values, n);
      LowerFailsForGood(p, state, values, n + 1);
    }
  }
}
