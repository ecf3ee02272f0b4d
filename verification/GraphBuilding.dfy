/** Incremental graph construction (src/graph/mod.rs): what the builder keeps and
    when finishing succeeds. */
module GraphBuilding {
  import opened Wrappers
  import opened Tensors
  import opened Graphs
  import opened DeadNodes
  import opened GraphExecution
  import opened SpecInference
  import opened ShapePropagation
  import Lowering

  // ---- inferred specs are valid specs ----

  lemma {:induction false} MergedDimsValid(a: seq<Dim>, b: seq<Dim>)
    requires BroadcastDims(a, b).Some?
    requires (forall i | 0 <= i < |a| :: ValidDim(a[i])) && forall i | 0 <= i < |b| :: ValidDim(b[i])
    ensures forall i | 0 <= i < |BroadcastDims(a, b).value| :: ValidDim(BroadcastDims(a, b).value[i])
  {
    if a != [] && b != [] {
      MergedDimsValid(Front(a), Front(b));
    }
  }

  predicate DimsValid(s: TensorSpec)
  {
    s.dimensions.Some? ==>
      (s.rank.Some? ==> s.rank.value == |s.dimensions.value|) &&
      forall i | 0 <= i < |s.dimensions.value| :: ValidDim(s.dimensions.value[i])
  }

  lemma ValidByIndex(s: TensorSpec)
    ensures ValidTensorSpec(s) <==> DimsValid(s)
  {
    if s.dimensions.Some? {
      assert forall i | 0 <= i < |s.dimensions.value| :: s.dimensions.value[i] in s.dimensions.value;
    }
  }

  lemma BinaryValid(a: TensorSpec, b: TensorSpec)
    requires DimsValid(a) && DimsValid(b) && InferBinary(a, b).Some?
    ensures DimsValid(InferBinary(a, b).value)
  {
    if a.dimensions.Some? && b.dimensions.Some? {
      MergedDimsValid(a.dimensions.value, b.dimensions.value);
    }
  }

  lemma {:induction false} ProductValid(dims: seq<Dim>)
    requires KnownProduct(dims).Some? && forall i | 0 <= i < |dims| :: ValidDim(dims[i])
    ensures KnownProduct(dims).value >= 0
  {
    if dims != [] {
      ProductValid(Front(dims));
      assert ValidDim(Last(dims));
    }
  }

  lemma FlattenValid(s: TensorSpec, start: int, end: int)
    requires DimsValid(s) && InferFlatten(s, start, end).Some?
    ensures DimsValid(InferFlatten(s, start, end).value)
  {
    if RankValue(s).Some? && s.dimensions.Some? {
      var d := s.dimensions.value;
      var a, b := NormalizeDim(start, |d|).value, NormalizeDim(end, |d|).value;
      var part := d[a..b + 1];
      if KnownProduct(part).Some? {
        assert forall i | 0 <= i < |part| :: part[i] == d[a + i];
        ProductValid(part);
      }
    }
  }

  lemma {:induction false} AxisValid(first: seq<Dim>, rest: seq<TensorSpec>, axis: nat)
    requires axis < |first| && ValidDim(first[axis]) && forall i | 0 <= i < |rest| :: DimsValid(rest[i])
    requires ConcatAxis(first, rest, axis).Total? && ConcatAxis(first, rest, axis).size.Some?
    ensures ConcatAxis(first, rest, axis).size.value >= 0
  {
    if rest != [] {
      AxisValid(first, Front(rest), axis);
      assert DimsValid(Last(rest));
    }
  }

  lemma ConcatValid(specs: seq<TensorSpec>, dim: int)
    requires specs != [] && (forall i | 0 <= i < |specs| :: DimsValid(specs[i])) && InferConcat(specs, dim).Some?
    ensures DimsValid(InferConcat(specs, dim).value)
  {
    var first := specs[0];
    if RankValue(first).Some? && first.dimensions.Some? {
      var axis := NormalizeDim(dim, RankValue(first).value).value;
      var size := ConcatAxis(first.dimensions.value, specs[1..], axis);
      if size.Total? && size.size.Some? {
        AxisValid(first.dimensions.value, specs[1..], axis);
      }
    }
  }

  predicate AttributesValid(op: GraphOp)
  {
    match op
    case Linear(inFeatures, outFeatures, _) => inFeatures >= 0 && outFeatures >= 0
    case Dropout(probability) => 0.0 <= probability <= 1.0
    case _ => true
  }

  lemma InferValid(op: GraphOp, current: TensorSpec, specs: seq<TensorSpec>)
    requires ArityFits(op, |specs|) && AttributesValid(op) && DimsValid(current)
    requires (forall i | 0 <= i < |specs| :: DimsValid(specs[i])) && InferNode(op, current, specs).Some?
    ensures DimsValid(InferNode(op, current, specs).value)
  {
    match op
    case Flatten(start, end) => FlattenValid(specs[0], start, end);
    case Add => BinaryValid(specs[0], specs[1]);
    case Subtract => BinaryValid(specs[0], specs[1]);
    case Multiply => BinaryValid(specs[0], specs[1]);
    case Concatenate(dim) => ConcatValid(specs, dim);
    case _ =>
  }

  // ---- what the builder keeps ----

  /** One node as the builder makes it. */
  predicate NodeMade(nodes: seq<Node>, i: nat)
    requires i < |nodes|
  {
    && ValidNode(nodes, i) && nodes[i].active && AttributesValid(nodes[i].op)
    && (forall x | x in nodes[i].inputs :: x < i)
    && StructuredAt(nodes, i) && ConsistentAt(nodes, i) && LossScalar(nodes[i])
  }

  ghost predicate Made(nodes: seq<Node>, names: set<string>, inputs: map<string, nat>, outputs: map<string, nat>)
  {
    NodesMade(nodes, names) && DistinctNodeNames(nodes) && InputsMade(nodes, inputs) && OutputsMade(nodes, outputs)
  }

  predicate NodesMade(nodes: seq<Node>, names: set<string>)
  {
    forall i | 0 <= i < |nodes| :: NodeMade(nodes, i) && nodes[i].name in names
  }

  /** The inputs map lists exactly the input nodes, by name. */
  predicate InputsMade(nodes: seq<Node>, inputs: map<string, nat>)
  {
    && (forall n | n in inputs :: inputs[n] < |nodes| && nodes[inputs[n]].op.Input? && nodes[inputs[n]].name == n)
    && (forall i | 0 <= i < |nodes| && nodes[i].op.Input? :: nodes[i].name in inputs && inputs[nodes[i].name] == i)
  }

  predicate OutputsMade(nodes: seq<Node>, outputs: map<string, nat>)
  {
    forall n | n in outputs :: outputs[n] < |nodes| && nodes[outputs[n]].op.Output? && nodes[outputs[n]].name == n
  }

  /** A node appended to a made graph leaves the earlier nodes as they are. */
  lemma EarlierMade(nodes: seq<Node>, node: Node, i: nat)
    requires i < |nodes| && NodeMade(nodes, i)
    ensures NodeMade(nodes + [node], i)
  {
    var t := nodes + [node];
    InferenceLocalPrefix(nodes, t, i);
  }

  lemma InferenceLocalPrefix(a: seq<Node>, b: seq<Node>, i: nat)
    requires a <= b && i < |a| && StructuredAt(a, i)
    ensures StructuredAt(b, i) && Inferred(b, i) == Inferred(a, i)
  {
    SpecsPrefix(a, b, a[i].inputs);
  }

  lemma SpecsPrefix(a: seq<Node>, b: seq<Node>, values: seq<nat>)
    requires a <= b && forall x | x in values :: x < |a|
    ensures SpecsOf(b, values) == SpecsOf(a, values)
  {
    var p, q := SpecsOf(a, values), SpecsOf(b, values);
    forall i | 0 <= i < |values|
      ensures q[i] == p[i]
    {
      assert values[i] in values;
    }
    assert p == q;
  }

  lemma AppendNodes(nodes: seq<Node>, names: set<string>, node: Node)
    requires NodesMade(nodes, names) && NodeMade(nodes + [node], |nodes|)
    ensures NodesMade(nodes + [node], names + {node.name})
  {
    var t := nodes + [node];
    forall i | 0 <= i < |t|
      ensures NodeMade(t, i) && t[i].name in names + {node.name}
    {
      if i < |nodes| {
        EarlierMade(nodes, node, i);
      }
    }
  }

  lemma AppendInputs(nodes: seq<Node>, inputs: map<string, nat>, node: Node)
    requires InputsMade(nodes, inputs) && forall i | 0 <= i < |nodes| :: nodes[i].name != node.name
    ensures InputsMade(nodes + [node], if node.op.Input? then inputs[node.name := |nodes|] else inputs)
  {
  }

  lemma AppendOutputs(nodes: seq<Node>, outputs: map<string, nat>, node: Node)
    requires OutputsMade(nodes, outputs)
    ensures OutputsMade(nodes + [node], if node.op.Output? then outputs[node.name := |nodes|] else outputs)
  {
  }

  lemma AppendMade(nodes: seq<Node>, names: set<string>, inputs: map<string, nat>, outputs: map<string, nat>,
                   node: Node)
    requires Made(nodes, names, inputs, outputs) && node.name !in names && NodeMade(nodes + [node], |nodes|)
    ensures Made(nodes + [node], names + {node.name},
                 if node.op.Input? then inputs[node.name := |nodes|] else inputs,
                 if node.op.Output? then outputs[node.name := |nodes|] else outputs)
  {
    AppendNodes(nodes, names, node);
    AppendInputs(nodes, inputs, node);
    AppendOutputs(nodes, outputs, node);
  }

  lemma NewNodeMade(nodes: seq<Node>, node: Node)
    requires forall i | 0 <= i < |nodes| :: NodeMade(nodes, i)
    requires ValidNodeName(node.name) && node.active && AttributesValid(node.op) && ArityFits(node.op, |node.inputs|)
    requires (forall x | x in node.inputs :: x < |nodes|) && LossScalar(node)
    requires (node.op.Input? || node.op.MseLoss? || node.op.CrossEntropyLoss? ==> ValidTensorSpec(node.spec))
    requires InferNode(node.op, node.spec, SpecsOf(nodes, node.inputs)) == Some(node.spec)
    ensures NodeMade(nodes + [node], |nodes|)
  {
    var t, i := nodes + [node], |nodes|;
    SpecsPrefix(nodes, t, node.inputs);
    var specs := SpecsOf(nodes, node.inputs);
    forall j | 0 <= j < |specs|
      ensures DimsValid(specs[j])
    {
      assert node.inputs[j] in node.inputs;
      assert NodeMade(nodes, node.inputs[j]);
      ValidByIndex(specs[j]);
    }
    NewSpecValid(node, specs);
  }

  lemma NewSpecValid(node: Node, specs: seq<TensorSpec>)
    requires ArityFits(node.op, |specs|) && AttributesValid(node.op)
    requires forall j | 0 <= j < |specs| :: DimsValid(specs[j])
    requires (node.op.Input? || node.op.MseLoss? || node.op.CrossEntropyLoss? ==> ValidTensorSpec(node.spec))
    requires InferNode(node.op, node.spec, specs) == Some(node.spec)
    ensures ValidTensorSpec(node.spec)
  {
    ValidByIndex(node.spec);
    if !(node.op.Input? || node.op.MseLoss? || node.op.CrossEntropyLoss?) {
      var blank := TensorSpec(None, None, None, None);
      InferValid(node.op, blank, specs);
    }
  }

  // ---- finishing ----

  lemma MadeBackward(g: Graph, names: set<string>)
    requires Made(g.nodes, names, g.inputs, g.outputs)
    ensures Backward(g) && Acyclic(g) && TopologicalOrder(g).Some?
    ensures Elements(Schedule(g, {})) == Active(g)
  {
    forall i | 0 <= i < |g.nodes|
      ensures forall x | x in g.nodes[i].inputs :: x < i
    {
      assert NodeMade(g.nodes, i);
    }
    BackwardIsAcyclic(g);
    OrderIsTopological(g);
  }

  lemma {:induction false} AllReachable(g: Graph, order: seq<nat>)
    requires InRange(g, order) && Respects(g, {}, order)
    requires forall i | 0 <= i < |g.nodes| :: g.nodes[i].active && forall x | x in g.nodes[i].inputs :: x < |g.nodes|
    ensures Reachable(g, order) == Elements(order)
  {
    if order != [] {
      var front, n := Front(order), Last(order);
      forall k | 0 <= k < |front|
        ensures ProducersDone(g, {} + Elements(front[..k]), front[k])
      {
        assert front[..k] == order[..k];
        assert ProducersDone(g, {} + Elements(order[..k]), order[k]);
      }
      AllReachable(g, front);
      assert ProducersDone(g, {} + Elements(order[..|order| - 1]), order[|order| - 1]);
      assert order == front + [n];
      ElementsAppend(front, n);
    }
  }

  lemma MadeActive(g: Graph, names: set<string>)
    requires Made(g.nodes, names, g.inputs, g.outputs)
    ensures forall i | 0 <= i < |g.nodes| :: g.nodes[i].active && forall x | x in g.nodes[i].inputs :: x < |g.nodes|
  {
    forall i | 0 <= i < |g.nodes|
      ensures g.nodes[i].active && forall x | x in g.nodes[i].inputs :: x < |g.nodes|
    {
      assert NodeMade(g.nodes, i);
    }
  }

  lemma MadeNodesValid(g: Graph, names: set<string>)
    requires Made(g.nodes, names, g.inputs, g.outputs)
    ensures forall i | 0 <= i < |g.nodes| :: ValidNode(g.nodes, i)
  {
    MadeBackward(g, names);
    MadeActive(g, names);
    forall i | 0 <= i < |g.nodes|
      ensures ValidNode(g.nodes, i)
    {
      assert NodeMade(g.nodes, i);
    }
  }

  lemma MadeReaches(g: Graph, names: set<string>)
    requires Made(g.nodes, names, g.inputs, g.outputs)
    ensures InRange(g, Schedule(g, {}))
    ensures forall name | name in g.outputs :: g.outputs[name] in Reachable(g, Schedule(g, {}))
  {
    MadeBackward(g, names);
    MadeActive(g, names);
    ScheduleInRange(g);
    ScheduleRespects(g, {});
    AllReachable(g, Schedule(g, {}));
    forall name | name in g.outputs
      ensures g.outputs[name] in Reachable(g, Schedule(g, {}))
    {
      assert g.outputs[name] in Active(g);
    }
  }

  lemma MadeHeader(g: Graph, names: set<string>)
    requires Made(g.nodes, names, g.inputs, g.outputs)
    ensures ValidHeader(g) <==> g.outputs != map[]
  {
    MadeNodesValid(g, names);
  }

  /** A builder's graph validates exactly when it has an output. */
  lemma MadeValidates(g: Graph, names: set<string>)
    requires Made(g.nodes, names, g.inputs, g.outputs)
    ensures Validates(g) <==> g.outputs != map[]
  {
    MadeBackward(g, names);
    MadeHeader(g, names);
    MadeReaches(g, names);
  }

  /** Activity flags do not enter inference. */
  lemma RestrictedConsistent(nodes: seq<Node>, live: set<nat>, order: seq<nat>)
    requires (forall i | 0 <= i < |nodes| :: NodeMade(nodes, i)) && Listed(nodes, order)
    ensures Structured(Restricted(nodes, live)) && Listed(Restricted(nodes, live), order)
    ensures Consistent(Restricted(nodes, live), order)
  {
    var t := Restricted(nodes, live);
    forall i | 0 <= i < |nodes|
      ensures StructuredAt(t, i) && ConsistentAt(t, i)
    {
      assert NodeMade(nodes, i);
      var a, b := SpecsOf(nodes, nodes[i].inputs), SpecsOf(t, nodes[i].inputs);
      forall j | 0 <= j < |a|
        ensures b[j] == a[j]
      {
        assert nodes[i].inputs[j] in nodes[i].inputs;
      }
      assert a == b;
    }
  }

  /** On a builder's graph, after dead-node elimination, shape propagation changes nothing. */
  lemma FinishKeepsSpecs(g: Graph, names: set<string>, live: set<nat>)
    requires Made(g.nodes, names, g.inputs, g.outputs) && g.outputs != map[]
    requires IsLive(g.nodes, Targets(g.outputs), live)
    ensures Validates(Pruned(g, live)) && Structured(Pruned(g, live).nodes)
    ensures Listed(Pruned(g, live).nodes, Schedule(Pruned(g, live), {}))
    ensures Propagated(Pruned(g, live).nodes, Schedule(Pruned(g, live), {})) == Some(Pruned(g, live).nodes)
  {
    MadeValidates(g, names);
    EliminateKeepsValid(g, live);
    var t := Pruned(g, live);
    ScheduleInRange(t);
    RestrictedConsistent(g.nodes, live, Schedule(t, {}));
    PropagationIdentity(t.nodes, Schedule(t, {}));
  }

  lemma RestrictedInputs(nodes: seq<Node>, inputs: map<string, nat>, live: set<nat>)
    requires InputsMade(nodes, inputs)
    ensures InputsMade(Restricted(nodes, live), inputs)
  {
  }

  lemma FinishedHeader(g: Graph, names: set<string>, live: set<nat>)
    requires Made(g.nodes, names, g.inputs, g.outputs) && Validates(Pruned(g, live))
    ensures Lowering.BuilderMade(Pruned(g, live))
  {
    RestrictedInputs(g.nodes, g.inputs, live);
  }

  lemma FinishedClosed(g: Graph, names: set<string>, live: set<nat>)
    requires NodesMade(g.nodes, names) && IsLive(g.nodes, Targets(g.outputs), live)
    ensures Lowering.ActiveClosed(Pruned(g, live))
    ensures forall i | 0 <= i < |g.nodes| :: LossScalar(Pruned(g, live).nodes[i])
  {
    var t := Pruned(g, live);
    forall i | 0 <= i < |t.nodes|
      ensures LossScalar(t.nodes[i])
      ensures t.nodes[i].active ==> forall x | x in t.nodes[i].inputs :: x < |t.nodes| && t.nodes[x].active
    {
      assert NodeMade(g.nodes, i);
    }
  }

  /** What lowering and shape soundness ask of a finished graph. */
  lemma FinishedGraph(g: Graph, names: set<string>, live: set<nat>)
    requires Made(g.nodes, names, g.inputs, g.outputs) && g.outputs != map[]
    requires IsLive(g.nodes, Targets(g.outputs), live)
    ensures Lowering.BuilderMade(Pruned(g, live)) && Lowering.ActiveClosed(Pruned(g, live))
    ensures forall i | 0 <= i < |g.nodes| :: LossScalar(Pruned(g, live).nodes[i])
  {
    MadeValidates(g, names);
    EliminateKeepsValid(g, live);
    FinishedHeader(g, names, live);
    FinishedClosed(g, names, live);
  }

  const SCALAR: TensorSpec := TensorSpec(Some([]), Some(0), None, None)

  /** A scalar of the same element type, float when it is unknown. */
  function ScalarLike(spec: TensorSpec): TensorSpec
  {
    SCALAR.(kind := if spec.kind.Some? then spec.kind else Some(Float))
  }

  class GraphBuilder {
    var nodes: seq<Node>
    var names: set<string>
    var inputs: map<string, nat>
    var outputs: map<string, nat>

    ghost predicate Valid()
      reads this
    {
      Made(nodes, names, inputs, outputs)
    }

    constructor ()
      ensures Valid() && nodes == [] && names == {} && inputs == map[] && outputs == map[]
    {
      nodes, names, inputs, outputs := [], {}, map[], map[];
    }

    /** Whether a value exists. */
    predicate Exists(value: nat)
      reads this
    {
      value < |nodes|
    }

    /** `push_node`: appends an active node under a fresh valid name. */
    method PushNode(name: string, op: GraphOp, operands: seq<nat>, spec: TensorSpec) returns (r: Option<nat>)
      requires Valid() && AttributesValid(op) && ArityFits(op, |operands|) && forall x | x in operands :: x < |nodes|
      requires !op.Input? && !op.Output? && LossScalar(Node(name, op, operands, spec, true))
      requires op.MseLoss? || op.CrossEntropyLoss? ==> ValidTensorSpec(spec)
      requires InferNode(op, spec, SpecsOf(nodes, operands)) == Some(spec)
      modifies this
      ensures Valid() && inputs == old(inputs) && outputs == old(outputs)
      ensures r.Some? <==> ValidNodeName(name) && name !in old(names)
      ensures r.Some? ==> r.value == |old(nodes)| && nodes == old(nodes) + [Node(name, op, operands, spec, true)]
      ensures names == if r.Some? then old(names) + {name} else old(names)
      ensures r.None? ==> nodes == old(nodes)
    {
      if !ValidNodeName(name) || name in names {
        return None;
      }
      var node := Node(name, op, operands, spec, true);
      NewNodeMade(nodes, node);
      AppendMade(nodes, names, inputs, outputs, node);
      r := Some(|nodes|);
      names := names + {name};
      nodes := nodes + [node];
    }

    /** `input`: a named runtime input. */
    method Input(name: string, spec: TensorSpec) returns (r: Option<nat>)
      requires Valid()
      modifies this
      ensures Valid() && outputs == old(outputs)
      ensures r.Some? <==> ValidTensorSpec(spec) && ValidNodeName(name) && name !in old(names)
      ensures r.Some? ==> r.value == |old(nodes)| && nodes == old(nodes) + [Node(name, GraphOp.Input, [], spec, true)]
      ensures r.Some? ==> inputs == old(inputs)[name := r.value]
      ensures r.None? ==> nodes == old(nodes) && inputs == old(inputs)
      ensures names == if r.Some? then old(names) + {name} else old(names)
    {
      if !ValidTensorSpec(spec) || !ValidNodeName(name) || name in names {
        return None;
      }
      var node := Node(name, GraphOp.Input, [], spec, true);
      NewNodeMade(nodes, node);
      AppendMade(nodes, names, inputs, outputs, node);
      r := Some(|nodes|);
      inputs := inputs[name := |nodes|];
      names := names + {name};
      nodes := nodes + [node];
    }

    /** Identity, relu, gelu, dropout and output nodes take over their input's spec. */
    method Unary(name: string, op: GraphOp, value: nat) returns (r: Option<nat>)
      requires Valid() && AttributesValid(op) && (op.Identity? || op.ReLU? || op.Gelu? || op.Dropout?)
      modifies this
      ensures Valid() && inputs == old(inputs) && outputs == old(outputs)
      ensures r.Some? <==> value < |old(nodes)| && ValidNodeName(name) && name !in old(names)
      ensures r.Some? ==>
        r.value == |old(nodes)| &&
        nodes == old(nodes) + [Node(name, op, [value], old(nodes)[value].spec, true)]
      ensures r.None? ==> nodes == old(nodes)
      ensures names == if r.Some? then old(names) + {name} else old(names)
    {
      if !Exists(value) {
        return None;
      }
      assert SpecsOf(nodes, [value]) == [nodes[value].spec];
      r := PushNode(name, op, [value], nodes[value].spec);
    }

    /** `add_output`: an output node registered under its name. */
    method AddOutput(name: string, value: nat) returns (r: Option<nat>)
      requires Valid()
      modifies this
      ensures Valid() && inputs == old(inputs)
      ensures r.Some? <==> value < |old(nodes)| && ValidNodeName(name) && name !in old(names)
      ensures r.Some? ==>
        r.value == |old(nodes)| && outputs == old(outputs)[name := r.value] &&
        nodes == old(nodes) + [Node(name, GraphOp.Output, [value], old(nodes)[value].spec, true)]
      ensures r.None? ==> nodes == old(nodes) && outputs == old(outputs)
      ensures names == if r.Some? then old(names) + {name} else old(names)
    {
      if !Exists(value) || !ValidNodeName(name) || name in names {
        return None;
      }
      var node := Node(name, GraphOp.Output, [value], nodes[value].spec, true);
      assert SpecsOf(nodes, [value]) == [nodes[value].spec];
      NewNodeMade(nodes, node);
      AppendMade(nodes, names, inputs, outputs, node);
      r := Some(|nodes|);
      outputs := outputs[name := |nodes|];
      names := names + {name};
      nodes := nodes + [node];
    }

    /** The last dimension of a value is known not to be the expected one. */
    predicate Mismatched(value: nat, inFeatures: int)
      requires value < |nodes|
      reads this
    {
      var spec := nodes[value].spec;
      spec.dimensions.Some? && spec.dimensions.value != [] &&
      Last(spec.dimensions.value).Known? && Last(spec.dimensions.value).size != inFeatures
    }

    /** `linear_config`: rejects negative sizes and a known mismatching last dimension. */
    method Linear(name: string, value: nat, inFeatures: int, outFeatures: int, bias: bool) returns (r: Option<nat>)
      requires Valid()
      modifies this
      ensures Valid() && inputs == old(inputs) && outputs == old(outputs)
      ensures r.Some? <==>
        inFeatures >= 0 && outFeatures >= 0 && value < |old(nodes)| &&
          !old(value < |nodes| && Mismatched(value, inFeatures)) &&
        ValidNodeName(name) && name !in old(names)
      ensures r.Some? ==>
        r.value == |old(nodes)| &&
        nodes == old(nodes) + [Node(name, GraphOp.Linear(inFeatures, outFeatures, bias), [value],
                                    LinearSpec(old(nodes)[value].spec, outFeatures), true)]
      ensures r.None? ==> nodes == old(nodes)
      ensures names == if r.Some? then old(names) + {name} else old(names)
    {
      if inFeatures < 0 || outFeatures < 0 || !Exists(value) || Mismatched(value, inFeatures) {
        return None;
      }
      var spec := nodes[value].spec;
      assert SpecsOf(nodes, [value]) == [spec];
      r := PushNode(name, GraphOp.Linear(inFeatures, outFeatures, bias), [value], LinearSpec(spec, outFeatures));
    }

    /** Flatten, element-wise and concatenation nodes: inference decides. */
    method Derived(name: string, op: GraphOp, operands: seq<nat>) returns (r: Option<nat>)
      requires Valid() && (op.Flatten? || op.Add? || op.Subtract? || op.Multiply? || op.Concatenate?)
      requires !op.Concatenate? ==> ArityFits(op, |operands|)
      modifies this
      ensures Valid() && inputs == old(inputs) && outputs == old(outputs)
      ensures r.Some? <==>
        operands != [] && (forall x | x in operands :: x < |old(nodes)|) &&
        InferNode(op, SCALAR, SpecsOf(old(nodes), operands)).Some? && ValidNodeName(name) && name !in old(names)
      ensures r.Some? ==>
        r.value == |old(nodes)| &&
        nodes == old(nodes) + [Node(name, op, operands, InferNode(op, SCALAR, SpecsOf(old(nodes), operands)).value,
                                    true)]
      ensures r.None? ==> nodes == old(nodes)
      ensures names == if r.Some? then old(names) + {name} else old(names)
    {
      if operands == [] || exists x | x in operands :: !Exists(x) {
        return None;
      }
      var spec := InferNode(op, SCALAR, SpecsOf(nodes, operands));
      if spec.None? {
        return None;
      }
      InferenceSettles(op, SCALAR, SpecsOf(nodes, operands));
      r := PushNode(name, op, operands, spec.value);
    }

    /** The element types of a prediction and a target suit the loss, where known. */
    predicate KindsSuit(op: GraphOp, value: nat, target: nat)
      requires value < |nodes| && target < |nodes|
      reads this
    {
      var left, right := nodes[value].spec.kind, nodes[target].spec.kind;
      (op.CrossEntropyLoss? && right.Some? ==> right.value == Int64) &&
      (op.MseLoss? && left.Some? && right.Some? ==> left == right)
    }

    /** `loss`: a scalar of the prediction's dtype, or float when it is unknown. */
    method Loss(name: string, op: GraphOp, value: nat, target: nat) returns (r: Option<nat>)
      requires Valid() && (op.MseLoss? || op.CrossEntropyLoss?)
      modifies this
      ensures Valid() && inputs == old(inputs) && outputs == old(outputs)
      ensures r.Some? <==>
        value < |old(nodes)| && target < |old(nodes)| &&
        old(value < |nodes| && target < |nodes| && KindsSuit(op, value, target)) &&
        ValidNodeName(name) && name !in old(names)
      ensures r.Some? ==>
        r.value == |old(nodes)| &&
        nodes == old(nodes) + [Node(name, op, [value, target], ScalarLike(old(nodes)[value].spec), true)]
      ensures r.None? ==> nodes == old(nodes)
      ensures names == if r.Some? then old(names) + {name} else old(names)
    {
      if !Exists(value) || !Exists(target) || !KindsSuit(op, value, target) {
        return None;
      }
      var spec := ScalarLike(nodes[value].spec);
      assert ValidTensorSpec(spec);
      r := PushNode(name, op, [value, target], spec);
    }

    /** `finish`: succeeds exactly when an output was added; only activity flags change. */
    method Finish() returns (r: Option<Graph>, ghost live: set<nat>)
      requires Valid()
      ensures r.Some? <==> outputs != map[]
      ensures r.Some? ==>
        IsLive(nodes, Targets(outputs), live) && r.value == Pruned(Graph(nodes, inputs, outputs), live)
      ensures r.Some? ==> Validates(r.value) && Lowering.BuilderMade(r.value) && Lowering.ActiveClosed(r.value)
    {
      var g := Graph(nodes, inputs, outputs);
      live := {};
      MadeValidates(g, names);
      if !Validates(g) {
        return None, live;
      }
      r, live := RunPasses(g, names);
      FinishedGraph(g, names, live);
    }
  }

  /** What the second pass needs of the graph the first one leaves. */
  lemma PassesReady(g: Graph, names: set<string>, live: set<nat>)
    requires Made(g.nodes, names, g.inputs, g.outputs) && g.outputs != map[]
    requires IsLive(g.nodes, Targets(g.outputs), live)
    ensures var t := Pruned(g, live);
      Validates(t) && Structured(t.nodes) && TopologicalOrder(t).Some? && Listed(t.nodes, TopologicalOrder(t).value) &&
      Distinct(TopologicalOrder(t).value) && Propagated(t.nodes, TopologicalOrder(t).value) == Some(t.nodes)
  {
    FinishKeepsSpecs(g, names, live);
    OrderIsTopological(Pruned(g, live));
  }

  /** Dead-node elimination, shape propagation and the final validation. */
  method RunPasses(g: Graph, ghost names: set<string>) returns (r: Option<Graph>, ghost live: set<nat>)
    requires Made(g.nodes, names, g.inputs, g.outputs) && g.outputs != map[]
    ensures IsLive(g.nodes, Targets(g.outputs), live) && r == Some(Pruned(g, live)) && Validates(r.value)
  {
    var cells := new Node[|g.nodes|](i requires 0 <= i < |g.nodes| => g.nodes[i]);
    assert cells[..] == g.nodes;
    var start := Enumerate(Targets(g.outputs));
    var dropped, marked := Eliminate(cells, g.outputs, start);
    live := marked;
    PassesReady(g, names, live);
    var order := Order(g.(nodes := cells[..]));
    var changed := Propagate(cells, order.value);
    var finished := g.(nodes := cells[..]);
    return if Validates(finished) then Some(finished) else None, live;
  }

  /** A set's elements in ascending order. */
  method Enumerate(s: set<nat>) returns (q: seq<nat>)
    ensures Elements(q) == s
  {
    q := [];
    var left := s;
    while left != {}
      invariant left <= s && Elements(q) == s - left
      decreases left
    {
      var m := Min(left);
      ElementsAppend(q, m);
      q := q + [m];
      left := left - {m};
    }
  }
}
