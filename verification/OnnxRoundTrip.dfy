/** What an ONNX export means and when it can be imported again
    (`save` and `load` of src/deployment/onnx.rs together). */
module OnnxRoundTrip {
  import opened Wrappers
  import opened Tensors
  import opened Programs
  import opened Validation
  import opened InferSpecs
  import opened FreshNames
  import opened Onnx

  // ---- the operations an export stands for ----

  function LinearOps(node: Operation, e: Exporter): seq<Operation>
    requires 2 <= |node.inputs| <= 3
  {
    var (transposed, s1) := Fresh(e.reserved, e.serial);
    var flip := Operation(transposed, Permute([1, 0]), [node.inputs[1]]);
    if |node.inputs| == 2 then
      [flip, Operation(node.name, Matmul, [node.inputs[0], transposed])]
    else
      var (product, s2) := Fresh(e.reserved + {transposed}, s1);
      [flip, Operation(product, Matmul, [node.inputs[0], transposed]),
       Operation(node.name, Add, [product, node.inputs[2]])]
  }

  function OpsOf(node: Operation, rank: nat, e: Exporter): seq<Operation>
    requires WellFormed(node.operator, |node.inputs|)
  {
    match node.operator
    case Linear => LinearOps(node, e)
    case Transpose(dim0, dim1) =>
      var a := Axis(dim0, rank);
      var b := Axis(dim1, rank);
      if a.None? || b.None? then [] else [Operation(node.name, Permute(Swapped(Iota(rank), a.value, b.value)),
                                                    node.inputs)]
    case _ => [node]
  }

  /** The names `OpsOf` introduces beside the node's own. */
  function FreshOf(node: Operation, e: Exporter): set<string>
    requires WellFormed(node.operator, |node.inputs|)
  {
    if !node.operator.Linear? then {}
    else
      var (transposed, s1) := Fresh(e.reserved, e.serial);
      if |node.inputs| == 2 then {transposed} else {transposed, Fresh(e.reserved + {transposed}, s1).0}
  }

  function LoweredOps(p: Program, state: Env, values: Env, n: nat): seq<Operation>
    requires n <= |p.operations| && AllWellFormed(p) && LowerTo(p, state, values, n).Some?
  {
    if n == 0 then []
    else
      var node := p.operations[n - 1];
      LoweredOps(p, state, values, n - 1) + OpsOf(node, RankIn(values, node), LowerTo(p, state, values, n - 1).value)
  }

  function FreshTo(p: Program, state: Env, values: Env, n: nat): set<string>
    requires n <= |p.operations| && AllWellFormed(p) && LowerTo(p, state, values, n).Some?
  {
    if n == 0 then {}
    else FreshTo(p, state, values, n - 1) + FreshOf(p.operations[n - 1], LowerTo(p, state, values, n - 1).value)
  }

  // ---- import of one lowered node ----

  function ImportOp(o: Operation, st: Importer): Option<Importer>
  {
    if o.name in st.reserved || exists n | n in o.inputs :: n !in st.reserved then None
    else Append(o.name, o.operator, o.inputs, st)
  }

  function ImportOps(ops: seq<Operation>, st: Importer): Option<Importer>
  {
    if ops == [] then Some(st)
    else
      var before := ImportOps(Front(ops), st);
      if before.None? then None else ImportOp(Last(ops), before.value)
  }

  lemma {:induction false} ImportNodesSplit(a: seq<Node>, b: seq<Node>, st: Importer)
    ensures ImportNodes(a + b, st) == (
      var first := ImportNodes(a, st); if first.None? then None else ImportNodes(b, first.value))
  {
    if b == [] {
      assert a + b == a;
    } else {
      assert Front(a + b) == a + Front(b) && Last(a + b) == Last(b);
      ImportNodesSplit(a, Front(b), st);
    }
  }

  /** The importer state in which a node's operands are known. */
  predicate Knows(st: Importer, names: seq<string>)
  {
    forall n | n in names :: n in st.reserved && n in st.ranks
  }

  lemma ImportSame(n: Node, o: Operation, st: Importer)
    requires n.output == o.name && !n.op.OnnxConstant? && Parse(n, st) == Some((o.operator, o.inputs))
    requires forall x | x in n.inputs :: x in st.reserved
    requires forall x | x in o.inputs :: x in st.reserved
    ensures ImportNode(n, st) == ImportOp(o, st)
  {
  }

  lemma ImportOne(n: Node, st: Importer)
    ensures ImportNodes([n], st) == ImportNode(n, st)
  {
    assert Front([n]) == [];
  }

  lemma ImportOneOp(o: Operation, st: Importer)
    ensures ImportOps([o], st) == ImportOp(o, st)
  {
    assert Front([o]) == [];
  }

  /** What importing a lowered linear needs of the names around it. */
  predicate NewNames(node: Operation, e: Exporter, st: Importer)
    requires WellFormed(node.operator, |node.inputs|)
  {
    node.name !in st.reserved && FreshOf(node, e) !! st.reserved && node.name !in FreshOf(node, e)
  }

  function Appended(node: Operation, rank: nat, e: Exporter): seq<Node>
    requires WellFormed(node.operator, |node.inputs|) && LowerNode(node, rank, e).Some?
    requires |LowerNode(node, rank, e).value.nodes| >= |e.nodes|
  {
    LowerNode(node, rank, e).value.nodes[|e.nodes|..]
  }

  lemma LowerAppends(node: Operation, rank: nat, e: Exporter)
    requires WellFormed(node.operator, |node.inputs|) && LowerNode(node, rank, e).Some?
    ensures |LowerNode(node, rank, e).value.nodes| >= |e.nodes|
    ensures LowerNode(node, rank, e).value.nodes == e.nodes + Appended(node, rank, e)
    ensures |Appended(node, rank, e)| == |OpsOf(node, rank, e)|
    ensures !node.operator.Linear? ==> |OpsOf(node, rank, e)| == 1
  {
    assert LowerNode(node, rank, e).value.nodes[..|e.nodes|] == e.nodes;
  }

  lemma ParseSimple(op: Operator, names: seq<string>, output: string, st: Importer)
    requires IsSimple(op)
    ensures Parse(Node(Simple(op), names, output, map[]), st) == Some((op, names))
  {
  }

  lemma ParsePermute(axes: seq<int>, names: seq<string>, output: string, st: Importer)
    ensures Parse(Node(OnnxTranspose, names, output, map[Perm := Ints(axes)]), st) == Some((Permute(axes), names))
  {
  }

  lemma ParseAxis(names: seq<string>, output: string, dim: int, st: Importer)
    requires names != [] && names[0] in st.ranks
    ensures Parse(Node(OnnxConcat, names, output, map[AxisKey := Int(dim)]), st) == Some((Cat(dim), names))
    ensures Parse(Node(OnnxFlatten, names, output, map[AxisKey := Int(1)]), st) == Some((Flatten(1, -1), names))
  {
  }

  lemma ParseShape(names: seq<string>, output: string, shape: seq<int>, constant: string, st: Importer)
    requires |names| == 1 && constant in st.constants && st.constants[constant] == IntVector(shape)
    ensures Parse(Node(OnnxReshape, names + [constant], output, map[AllowZero := Int(1)]), st) ==
      Some((Reshape(shape), names))
  {
    IntVectorRoundTrip(shape);
    assert Front(names + [constant]) == names;
  }

  /** A non-linear operation is imported as the operation it stands for. */
  lemma ImportPlain(node: Operation, rank: nat, e: Exporter, st: Importer)
    requires WellFormed(node.operator, |node.inputs|) && LowerNode(node, rank, e).Some? && !node.operator.Linear?
    requires Sub(LowerNode(node, rank, e).value.initializers, st.constants) && st.constants.Keys <= st.reserved
    requires Knows(st, node.inputs)
    ensures |LowerNode(node, rank, e).value.nodes| >= |e.nodes|
    ensures ImportNodes(Appended(node, rank, e), st) == ImportOps(OpsOf(node, rank, e), st)
  {
    LowerAppends(node, rank, e);
    var n := Appended(node, rank, e)[0];
    var o := OpsOf(node, rank, e)[0];
    assert Appended(node, rank, e) == [n];
    assert OpsOf(node, rank, e) == [o];
    ImportOne(n, st);
    ImportOneOp(o, st);
    PlainParses(node, rank, e, st, n, o);
    ImportSame(n, o, st);
  }

  lemma PlainParses(node: Operation, rank: nat, e: Exporter, st: Importer, n: Node, o: Operation)
    requires WellFormed(node.operator, |node.inputs|) && LowerNode(node, rank, e).Some? && !node.operator.Linear?
    requires Sub(LowerNode(node, rank, e).value.initializers, st.constants) && st.constants.Keys <= st.reserved
    requires Knows(st, node.inputs)
    requires LowerNode(node, rank, e).value.nodes == e.nodes + [n] && OpsOf(node, rank, e) == [o]
    ensures n.output == o.name && !n.op.OnnxConstant? && o.inputs == node.inputs
    ensures forall x | x in n.inputs :: x in st.reserved
    ensures Parse(n, st) == Some((o.operator, o.inputs))
  {
    assert n == Last(LowerNode(node, rank, e).value.nodes);
    var names := node.inputs;
    if IsSimple(node.operator) {
      ParseSimple(node.operator, names, node.name, st);
    } else {
      match node.operator {
        case Reshape(shape) =>
          ParseShape(names, node.name, shape, Fresh(e.reserved, e.serial).0, st);
        case Cat(dim) => ParseAxis(names, node.name, dim, st);
        case Flatten(_, _) => ParseAxis(names, node.name, 0, st);
        case Permute(axes) => ParsePermute(axes, names, node.name, st);
        case Transpose(dim0, dim1) =>
          ParsePermute(Swapped(Iota(rank), Axis(dim0, rank).value, Axis(dim1, rank).value), names, node.name, st);
      }
    }
  }

  lemma {:induction false} ImportOpsSplit(a: seq<Operation>, b: seq<Operation>, st: Importer)
    ensures ImportOps(a + b, st) == (
      var first := ImportOps(a, st); if first.None? then None else ImportOps(b, first.value))
  {
    if b == [] {
      assert a + b == a;
    } else {
      assert Front(a + b) == a + Front(b) && Last(a + b) == Last(b);
      ImportOpsSplit(a, Front(b), st);
    }
  }

  /** Importing node by node is importing the decoded operations one by one. */
  lemma ImportStep(n: Node, o: Operation, ns: seq<Node>, os: seq<Operation>, st: Importer)
    requires ImportNode(n, st) == ImportOp(o, st)
    requires ImportOp(o, st).Some? ==> ImportNodes(ns, ImportOp(o, st).value) == ImportOps(os, ImportOp(o, st).value)
    ensures ImportNodes([n] + ns, st) == ImportOps([o] + os, st)
  {
    ImportOne(n, st);
    ImportOneOp(o, st);
    ImportNodesSplit([n], ns, st);
    ImportOpsSplit([o], os, st);
  }

  lemma ImportMatmul(a: string, b: string, name: string, st: Importer)
    ensures ImportNode(Node(OnnxMatMul, [a, b], name, map[]), st) == ImportOp(Operation(name, Matmul, [a, b]), st)
  {
    ParseSimple(Matmul, [a, b], name, st);
  }

  lemma ImportAdd(a: string, b: string, name: string, st: Importer)
    ensures ImportNode(Node(OnnxAdd, [a, b], name, map[]), st) == ImportOp(Operation(name, Add, [a, b]), st)
  {
    ParseSimple(Add, [a, b], name, st);
  }

  /** A linear is imported as its two or three operations. */
  lemma ImportLinear(node: Operation, rank: nat, e: Exporter, st: Importer)
    requires WellFormed(node.operator, |node.inputs|) && LowerNode(node, rank, e).Some? && node.operator.Linear?
    ensures |LowerNode(node, rank, e).value.nodes| >= |e.nodes|
    ensures ImportNodes(Appended(node, rank, e), st) == ImportOps(OpsOf(node, rank, e), st)
  {
    LowerAppends(node, rank, e);
    var ns := Appended(node, rank, e);
    var ops := OpsOf(node, rank, e);
    var (t, s1) := Fresh(e.reserved, e.serial);
    var flip := Node(OnnxTranspose, [node.inputs[1]], t, map[Perm := Ints([1, 0])]);
    var unflip := Operation(t, Permute([1, 0]), [node.inputs[1]]);
    ParsePermute([1, 0], [node.inputs[1]], t, st);
    assert ImportNode(flip, st) == ImportOp(unflip, st);
    var next := ImportOp(unflip, st);
    if |node.inputs| == 2 {
      var n := Node(OnnxMatMul, [node.inputs[0], t], node.name, map[]);
      var o := Operation(node.name, Matmul, [node.inputs[0], t]);
      assert ns == [flip] + [n] && ops == [unflip] + [o];
      if next.Some? {
        ImportMatmul(node.inputs[0], t, node.name, next.value);
        ImportOne(n, next.value);
        ImportOneOp(o, next.value);
      }
      ImportStep(flip, unflip, [n], [o], st);
    } else {
      var m := Fresh(e.reserved + {t}, s1).0;
      var n := Node(OnnxMatMul, [node.inputs[0], t], m, map[]);
      var o := Operation(m, Matmul, [node.inputs[0], t]);
      var n' := Node(OnnxAdd, [m, node.inputs[2]], node.name, map[]);
      var o' := Operation(node.name, Add, [m, node.inputs[2]]);
      assert ns == [flip] + ([n] + [n']) && ops == [unflip] + ([o] + [o']);
      if next.Some? {
        ImportMatmul(node.inputs[0], t, m, next.value);
        var last := ImportOp(o, next.value);
        if last.Some? {
          ImportAdd(m, node.inputs[2], node.name, last.value);
          ImportOne(n', last.value);
          ImportOneOp(o', last.value);
        }
        ImportStep(n, o, [n'], [o'], next.value);
      }
      ImportStep(flip, unflip, [n] + [n'], [o] + [o'], st);
    }
  }

  // ---- the recorded ranks ----

  /** The rank the importer records for one exported operation, whatever the
      real rank is: an elementwise or concatenating operation is given the
      recorded rank of its first operand. `None` when the import is rejected. */
  function RecordedRank(op: Operator, operands: seq<string>, rank: nat, recorded: Ranks): Option<nat>
    requires WellFormed(op, |operands|) && forall x | x in operands :: x in recorded
  {
    match op
    case Matmul =>
      var a := recorded[operands[0]];
      var b := recorded[operands[1]];
      if a == 0 || b == 0 then None else Some(MatmulRank(a, b))
    case Linear => var a := recorded[operands[0]]; if a == 0 then None else Some(MatmulRank(a, 2))
    case Flatten(_, _) => Some(2)
    case Reshape(shape) => Some(|shape|)
    case Permute(axes) => Some(|axes|)
    case Transpose(_, _) => Some(rank)
    case _ => Some(recorded[operands[0]])
  }

  function RecordedTo(p: Program, state: Env, values: Env, n: nat): Option<Ranks>
    requires n <= |p.operations| && AllWellFormed(p)
  {
    if n == 0 then Some(InputRanks(p.inputs) + map x | x in state :: |state[x].shape|)
    else
      var before := RecordedTo(p, state, values, n - 1);
      var node := p.operations[n - 1];
      if before.None? || exists x | x in node.inputs :: x !in before.value then None
      else
        var r := RecordedRank(node.operator, node.inputs, RankIn(values, node), before.value);
        if r.None? then None else Some(before.value[node.name := r.value])
  }

  /** The caller-visible condition: no matrix product has an operand whose
      recorded rank is zero. */
  predicate RecordedRanksOk(p: Program, state: Env, values: Env)
    requires AllWellFormed(p)
  {
    RecordedTo(p, state, values, |p.operations|).Some?
  }

  predicate RanksAgree(recorded: Ranks, ranks: Ranks)
  {
    forall x | x in recorded :: x in ranks && ranks[x] == recorded[x]
  }

  /** Importing the operations of one node records the rank above. */
  lemma RecordPlain(node: Operation, rank: nat, e: Exporter, st: Importer, recorded: Ranks)
    requires WellFormed(node.operator, |node.inputs|) && LowerNode(node, rank, e).Some? && !node.operator.Linear?
    requires (forall x | x in node.inputs :: x in recorded) && RanksAgree(recorded, st.ranks) && Knows(st, node.inputs)
    requires NewNames(node, e, st)
    ensures var r := RecordedRank(node.operator, node.inputs, rank, recorded);
      var next := ImportOps(OpsOf(node, rank, e), st);
      next.Some? == r.Some? &&
      (next.Some? ==>
        next.value == Importer(st.constants, next.value.ranks, st.reserved + {node.name},
                               st.operations + OpsOf(node, rank, e)) &&
        RanksAgree(recorded[node.name := r.value], next.value.ranks))
  {
    LowerAppends(node, rank, e);
    var o := OpsOf(node, rank, e)[0];
    assert OpsOf(node, rank, e) == [o];
    ImportOneOp(o, st);
    assert node.inputs[0] in recorded;
    assert node.operator.Matmul? ==> node.inputs[1] in recorded;
    assert ImportOp(o, st) == Append(o.name, o.operator, o.inputs, st);
  }

  /** A product of two known operands. */
  lemma AppendMatmul(a: string, b: string, name: string, st: Importer)
    requires a in st.ranks && b in st.ranks && a in st.reserved && b in st.reserved && name !in st.reserved
    ensures ImportOp(Operation(name, Matmul, [a, b]), st) ==
      if st.ranks[a] == 0 || st.ranks[b] == 0 then None
      else Some(st.(ranks := st.ranks[name := MatmulRank(st.ranks[a], st.ranks[b])], reserved := st.reserved + {name},
                    operations := st.operations + [Operation(name, Matmul, [a, b])]))
  {
  }

  lemma AppendAdd(a: string, b: string, name: string, st: Importer)
    requires a in st.ranks && a in st.reserved && b in st.reserved && name !in st.reserved
    ensures ImportOp(Operation(name, Add, [a, b]), st) ==
      Some(st.(ranks := st.ranks[name := st.ranks[a]], reserved := st.reserved + {name},
               operations := st.operations + [Operation(name, Add, [a, b])]))
  {
  }

  lemma AppendFlip(w: string, name: string, st: Importer)
    requires w in st.reserved && name !in st.reserved
    ensures ImportOp(Operation(name, Permute([1, 0]), [w]), st) ==
      Some(st.(ranks := st.ranks[name := 2], reserved := st.reserved + {name},
               operations := st.operations + [Operation(name, Permute([1, 0]), [w])]))
  {
  }

  /** What importing a linear node's operations leaves, from its final rank map. */
  predicate LinearRecorded(node: Operation, added: set<string>, ops: seq<Operation>, st: Importer, recorded: Ranks,
                           r: Option<nat>)
  {
    var next := ImportOps(ops, st);
    next.Some? == r.Some? &&
    (next.Some? ==>
      next.value == Importer(st.constants, next.value.ranks, st.reserved + {node.name} + added, st.operations + ops) &&
      RanksAgree(recorded[node.name := r.value], next.value.ranks))
  }

  /** Transposing the weight and multiplying. */
  lemma RecordProduct(x: string, w: string, t: string, name: string, st: Importer)
    requires x in st.ranks && x in st.reserved && w in st.reserved && t !in st.reserved && name !in st.reserved
    requires name != t
    ensures ImportOps([Operation(t, Permute([1, 0]), [w]), Operation(name, Matmul, [x, t])], st) ==
      if st.ranks[x] == 0 then None
      else Some(Importer(st.constants, st.ranks[t := 2][name := MatmulRank(st.ranks[x], 2)], st.reserved + {t} + {name},
                         st.operations + [Operation(t, Permute([1, 0]), [w]), Operation(name, Matmul, [x, t])]))
  {
    var unflip, o := Operation(t, Permute([1, 0]), [w]), Operation(name, Matmul, [x, t]);
    AppendFlip(w, t, st);
    var st1 := ImportOp(unflip, st).value;
    ImportOneOp(unflip, st);
    AppendMatmul(x, t, name, st1);
    ImportOneOp(o, st1);
    ImportOpsSplit([unflip], [o], st);
    assert [unflip] + [o] == [unflip, o];
    assert st.operations + [unflip] + [o] == st.operations + [unflip, o];
  }

  lemma RecordPair(node: Operation, t: string, st: Importer, recorded: Ranks)
    requires node.operator.Linear? && |node.inputs| == 2
    requires (forall x | x in node.inputs :: x in recorded) && RanksAgree(recorded, st.ranks) && Knows(st, node.inputs)
    requires t !in st.reserved && node.name !in st.reserved && node.name != t && t !in recorded
    ensures LinearRecorded(node, {t}, [Operation(t, Permute([1, 0]), [node.inputs[1]]),
                                       Operation(node.name, Matmul, [node.inputs[0], t])],
                           st, recorded, RecordedRank(Linear, node.inputs, 0, recorded))
  {
    assert node.inputs[0] in node.inputs && node.inputs[1] in node.inputs;
    RecordProduct(node.inputs[0], node.inputs[1], t, node.name, st);
    assert st.reserved + {t} + {node.name} == st.reserved + {node.name} + {t};
  }

  lemma RecordTriple(node: Operation, t: string, m: string, st: Importer, recorded: Ranks)
    requires node.operator.Linear? && |node.inputs| == 3
    requires (forall x | x in node.inputs :: x in recorded) && RanksAgree(recorded, st.ranks) && Knows(st, node.inputs)
    requires t !in st.reserved && m !in st.reserved && node.name !in st.reserved
    requires node.name != t && node.name != m && m != t && t !in recorded && m !in recorded
    ensures LinearRecorded(node, {t, m}, [Operation(t, Permute([1, 0]), [node.inputs[1]]),
                                          Operation(m, Matmul, [node.inputs[0], t]),
                                          Operation(node.name, Add, [m, node.inputs[2]])],
                           st, recorded, RecordedRank(Linear, node.inputs, 0, recorded))
  {
    var x, w, bias := node.inputs[0], node.inputs[1], node.inputs[2];
    assert x in node.inputs && w in node.inputs && bias in node.inputs;
    var product, sum := [Operation(t, Permute([1, 0]), [w]), Operation(m, Matmul, [x, t])],
      Operation(node.name, Add, [m, bias]);
    RecordProduct(x, w, t, m, st);
    ImportOpsSplit(product, [sum], st);
    assert product + [sum] == [product[0], product[1], sum];
    if st.ranks[x] != 0 {
      var st2 := ImportOps(product, st).value;
      AppendAdd(m, bias, node.name, st2);
      ImportOneOp(sum, st2);
      assert st.operations + product + [sum] == st.operations + [product[0], product[1], sum];
      assert st.reserved + {t} + {m} + {node.name} == st.reserved + {node.name} + {t, m};
    }
  }

  lemma RecordLinear(node: Operation, rank: nat, e: Exporter, st: Importer, recorded: Ranks)
    requires WellFormed(node.operator, |node.inputs|) && node.operator.Linear?
    requires (forall x | x in node.inputs :: x in recorded) && RanksAgree(recorded, st.ranks) && Knows(st, node.inputs)
    requires NewNames(node, e, st) && FreshOf(node, e) !! recorded.Keys
    ensures LinearRecorded(node, FreshOf(node, e), OpsOf(node, rank, e), st, recorded,
                           RecordedRank(node.operator, node.inputs, rank, recorded))
  {
    var (t, s1) := Fresh(e.reserved, e.serial);
    assert t in FreshOf(node, e);
    if |node.inputs| == 2 {
      assert FreshOf(node, e) == {t};
      RecordPair(node, t, st, recorded);
    } else {
      var m := Fresh(e.reserved + {t}, s1).0;
      assert m in FreshOf(node, e) && FreshOf(node, e) == {t, m};
      RecordTriple(node, t, m, st, recorded);
    }
  }
}
