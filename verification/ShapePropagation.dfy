/** Shape propagation over graphs (src/graph/mod.rs): what the pass computes and
    that execution agrees with it. */
module ShapePropagation {
  import opened Wrappers
  import opened Tensors
  import Programs
  import opened Graphs
  import opened GraphExecution
  import opened SpecInference
  import opened ConcatShapes
  import Lowering

  // ---- the pass ----

  function SpecsOf(nodes: seq<Node>, values: seq<nat>): (r: seq<TensorSpec>)
    requires forall x | x in values :: x < |nodes|
    ensures |r| == |values|
  {
    seq(|values|, i requires 0 <= i < |values| => assert values[i] in values; nodes[values[i]].spec)
  }

  /** Only specs differ. */
  predicate SameButSpecs(a: seq<Node>, b: seq<Node>)
  {
    |a| == |b| && forall i | 0 <= i < |a| :: b[i] == a[i].(spec := b[i].spec)
  }

  predicate Structured(nodes: seq<Node>)
  {
    forall i | 0 <= i < |nodes| :: StructuredAt(nodes, i)
  }

  /** What inference needs of a node: its arity and input range. */
  predicate StructuredAt(nodes: seq<Node>, i: nat)
    requires i < |nodes|
  {
    ArityFits(nodes[i].op, |nodes[i].inputs|) && forall x | x in nodes[i].inputs :: x < |nodes|
  }

  function Inferred(nodes: seq<Node>, id: nat): Option<TensorSpec>
    requires id < |nodes| && StructuredAt(nodes, id)
  {
    InferNode(nodes[id].op, nodes[id].spec, SpecsOf(nodes, nodes[id].inputs))
  }

  predicate Listed(nodes: seq<Node>, order: seq<nat>)
  {
    forall k | 0 <= k < |order| :: order[k] < |nodes|
  }

  /** The nodes after the pass has visited `order`, or an inference error. */
  function Propagated(nodes: seq<Node>, order: seq<nat>): (r: Option<seq<Node>>)
    requires Structured(nodes) && Listed(nodes, order)
    ensures r.Some? ==> SameButSpecs(nodes, r.value) && Structured(r.value)
  {
    if order == [] then Some(nodes)
    else
      var before, id := Propagated(nodes, Front(order)), Last(order);
      if before.None? then None
      else
        assert StructuredAt(before.value, id);
        var spec := Inferred(before.value, id);
        if spec.None? then None
        else
          StructuredUpdate(before.value, id, spec.value);
          Some(before.value[id := before.value[id].(spec := spec.value)])
  }

  lemma StructuredUpdate(nodes: seq<Node>, id: nat, spec: TensorSpec)
    requires Structured(nodes) && id < |nodes|
    ensures Structured(nodes[id := nodes[id].(spec := spec)])
  {
    var t := nodes[id := nodes[id].(spec := spec)];
    forall i | 0 <= i < |t|
      ensures StructuredAt(t, i)
    {
      assert StructuredAt(nodes, i);
    }
  }

  /** The pass rewrites the specs in place, in dependency order, and reports the changed nodes. */
  method Propagate(nodes: array<Node>, order: seq<nat>) returns (changed: Option<seq<nat>>)
    requires Structured(nodes[..]) && Listed(nodes[..], order) && Distinct(order)
    modifies nodes
    ensures changed.Some? <==> Propagated(old(nodes[..]), order).Some?
    ensures changed.Some? ==> nodes[..] == Propagated(old(nodes[..]), order).value
    ensures changed.Some? ==> forall i: nat :: i in changed.value <==> i < nodes.Length && old(nodes[i]) != nodes[i]
  {
    var reported: seq<nat> := [];
    ghost var start := nodes[..];
    for k := 0 to |order|
      invariant Listed(start, order[..k]) && Propagated(start, order[..k]) == Some(nodes[..])
      invariant forall j | k <= j < |order| :: nodes[order[j]] == start[order[j]]
      invariant forall i: nat :: i in reported <==> i < nodes.Length && start[i] != nodes[i]
    {
      assert Front(order[..k + 1]) == order[..k] && Last(order[..k + 1]) == order[k];
      assert Listed(start, order[..k + 1]);
      var id := order[k];
      assert StructuredAt(nodes[..], id);
      var inferred := Inferred(nodes[..], id);
      if inferred.None? {
        PropagationFails(start, order, k + 1);
        return None;
      }
      ghost var before := nodes[..];
      if inferred.value != nodes[id].spec {
        nodes[id] := nodes[id].(spec := inferred.value);
        reported := reported + [id];
      }
      assert nodes[..] == before[id := before[id].(spec := inferred.value)];
    }
    assert order[..|order|] == order;
    return Some(reported);
  }

  lemma {:induction false} PropagationFails(nodes: seq<Node>, order: seq<nat>, k: nat)
    requires k <= |order| && Structured(nodes) && Listed(nodes, order) && Listed(nodes, order[..k])
    requires Propagated(nodes, order[..k]).None?
    ensures Propagated(nodes, order).None?
    decreases |order| - k
  {
    if k < |order| {
      assert Front(order[..k + 1]) == order[..k];
      assert Listed(nodes, order[..k + 1]);
      PropagationFails(nodes, order, k + 1);
    } else {
      assert order[..k] == order;
    }
  }

  // ---- consistency ----

  /** The node's spec is what inference gives from its inputs' specs. */
  predicate ConsistentAt(nodes: seq<Node>, id: nat)
    requires id < |nodes| && StructuredAt(nodes, id)
  {
    Inferred(nodes, id) == Some(nodes[id].spec)
  }

  predicate Consistent(nodes: seq<Node>, order: seq<nat>)
    requires Structured(nodes) && Listed(nodes, order)
  {
    forall k | 0 <= k < |order| :: StructuredAt(nodes, order[k]) && ConsistentAt(nodes, order[k])
  }

  /** The pass changes nothing on a consistent graph. */
  lemma {:induction false} PropagationIdentity(nodes: seq<Node>, order: seq<nat>)
    requires Structured(nodes) && Listed(nodes, order) && Consistent(nodes, order)
    ensures Propagated(nodes, order) == Some(nodes)
  {
    if order != [] {
      assert Consistent(nodes, Front(order));
      PropagationIdentity(nodes, Front(order));
      assert ConsistentAt(nodes, order[|order| - 1]);
      assert nodes[Last(order) := nodes[Last(order)].(spec := nodes[Last(order)].spec)] == nodes;
    }
  }

  /** Inference for a node looks only at the specs of its inputs and its own. */
  lemma InferenceLocal(a: seq<Node>, b: seq<Node>, id: nat)
    requires |a| == |b| && id < |a| && StructuredAt(a, id) && b[id] == a[id]
    requires forall x | x in a[id].inputs :: b[x].spec == a[x].spec
    ensures StructuredAt(b, id) && Inferred(b, id) == Inferred(a, id)
  {
    assert SpecsOf(b, b[id].inputs) == SpecsOf(a, a[id].inputs);
  }

  /** Inferring again from the inferred spec gives the same: inputs and losses keep
      their own spec, every other operation ignores it. */
  lemma InferenceSettles(op: GraphOp, current: TensorSpec, inputs: seq<TensorSpec>)
    requires ArityFits(op, |inputs|) && InferNode(op, current, inputs).Some?
    ensures InferNode(op, InferNode(op, current, inputs).value, inputs) == InferNode(op, current, inputs)
  {
  }

  /** Producers come first, so a visited node's inputs are never rewritten later. */
  ghost predicate Ordered(nodes: seq<Node>, order: seq<nat>)
    requires Listed(nodes, order)
  {
    forall i, j | 0 <= i <= j < |order| :: order[j] !in nodes[order[i]].inputs && (i < j ==> order[i] != order[j])
  }

  lemma {:induction false} PropagatedConsistent(nodes: seq<Node>, order: seq<nat>)
    requires Structured(nodes) && Listed(nodes, order) && Ordered(nodes, order) && Propagated(nodes, order).Some?
    ensures Listed(Propagated(nodes, order).value, order) && Consistent(Propagated(nodes, order).value, order)
  {
    if order != [] {
      var front, id := Front(order), Last(order);
      assert Ordered(nodes, front);
      PropagatedConsistent(nodes, front);
      var before := Propagated(nodes, front).value;
      assert StructuredAt(before, id);
      UpdateConsistent(before, order, Inferred(before, id).value);
    }
  }

  lemma UpdateConsistent(before: seq<Node>, order: seq<nat>, spec: TensorSpec)
    requires Structured(before) && order != [] && Listed(before, order) && Ordered(before, order)
    requires Listed(before, Front(order)) && Consistent(before, Front(order))
    requires StructuredAt(before, Last(order)) && Inferred(before, Last(order)) == Some(spec)
    ensures var t := before[Last(order) := before[Last(order)].(spec := spec)];
      Structured(t) && Listed(t, order) && Consistent(t, order)
  {
    var id, n := Last(order), |order| - 1;
    var t := before[id := before[id].(spec := spec)];
    StructuredUpdate(before, id, spec);
    forall k | 0 <= k < |order|
      ensures StructuredAt(t, order[k]) && ConsistentAt(t, order[k])
    {
      assert order[n] !in before[order[k]].inputs;
      if k < n {
        var front := Front(order);
        assert front[k] == order[k] && StructuredAt(before, front[k]) && ConsistentAt(before, front[k]);
        InferenceLocal(before, t, order[k]);
      } else {
        var a, b := SpecsOf(before, before[id].inputs), SpecsOf(t, t[id].inputs);
        forall i | 0 <= i < |a|
          ensures b[i] == a[i]
        {
          assert before[id].inputs[i] in before[id].inputs;
        }
        assert a == b;
        InferenceSettles(before[id].op, before[id].spec, SpecsOf(before, before[id].inputs));
      }
    }
  }

  // ---- what execution leaves behind ----

  lemma {:induction false} CheckDimsFits(dims: seq<Dim>, shape: seq<nat>, symbols: Symbols)
    requires |dims| == |shape| && CheckDims(dims, shape, symbols).Some?
    ensures FitsDims(shape, dims, CheckDims(dims, shape, symbols).value)
    ensures Subsumes(symbols, CheckDims(dims, shape, symbols).value)
  {
    if dims != [] {
      CheckDimsFits(Front(dims), Front(shape), symbols);
      var before, after := CheckDims(Front(dims), Front(shape), symbols).value, CheckDims(dims, shape, symbols).value;
      FitsLater(Front(shape), Front(dims), before, after);
      forall d | 0 <= d < |shape|
        ensures FitsDim(shape[d], dims[d], after)
      {
        assert d < |shape| - 1 ==> FitsDim(Front(shape)[d], Front(dims)[d], after);
      }
    }
  }

  lemma FitsLater(shape: seq<nat>, dims: seq<Dim>, v: Symbols, w: Symbols)
    requires FitsDims(shape, dims, v) && Subsumes(v, w)
    ensures FitsDims(shape, dims, w)
  {
    forall d | 0 <= d < |shape|
      ensures FitsDim(shape[d], dims[d], w)
    {
      assert FitsDim(shape[d], dims[d], v);
    }
  }

  lemma ConformsLater(shape: seq<nat>, s: TensorSpec, v: Symbols, w: Symbols)
    requires Conforms(shape, s, v) && Subsumes(v, w)
    ensures Conforms(shape, s, w)
  {
    if s.dimensions.Some? {
      FitsLater(shape, s.dimensions.value, v, w);
    }
  }

  /** The defining equation of one node, over the final values and symbols. */
  ghost predicate SolvedAt(k: Kernels, g: Graph, linears: Linears, p: Progress, id: nat)
  {
    && id < |g.nodes| && ValidNode(g.nodes, id) && id in p.values
    && if g.nodes[id].op.Input? then Conforms(p.values[id].shape, g.nodes[id].spec, p.symbols)
       else Operands(g.nodes[id], p.values).Some? &&
            ApplyNode(k, g.nodes[id], ParametersOf(linears, id), Operands(g.nodes[id], p.values).value) ==
              Ok(p.values[id])
  }

  /** Later steps keep what is there. */
  predicate Later(p: Progress, q: Progress)
  {
    Subsumes(p.symbols, q.symbols) && forall v | v in p.values :: v in q.values && q.values[v] == p.values[v]
  }

  lemma SolvedLater(k: Kernels, g: Graph, linears: Linears, p: Progress, q: Progress, id: nat)
    requires SolvedAt(k, g, linears, p, id) && Later(p, q)
    ensures SolvedAt(k, g, linears, q, id)
  {
    if g.nodes[id].op.Input? {
      ConformsLater(p.values[id].shape, g.nodes[id].spec, p.symbols, q.symbols);
    } else {
      var a, b := Operands(g.nodes[id], p.values), Operands(g.nodes[id], q.values);
      assert forall i | 0 <= i < |g.nodes[id].inputs| :: g.nodes[id].inputs[i] in g.nodes[id].inputs;
      assert a.value == b.value;
    }
  }

  lemma NodeSolves(k: Kernels, g: Graph, linears: Linears, inputs: map<string, Tensor>, p: Progress, id: nat)
    requires id < |g.nodes| && ValidNode(g.nodes, id) && id !in p.values && id !in g.nodes[id].inputs
    requires ExecuteNode(k, g, linears, inputs, p, id).Ok?
    ensures Later(p, ExecuteNode(k, g, linears, inputs, p, id).value)
    ensures SolvedAt(k, g, linears, ExecuteNode(k, g, linears, inputs, p, id).value, id)
    ensures ExecuteNode(k, g, linears, inputs, p, id).value.values.Keys == p.values.Keys + {id}
  {
    var node, q := g.nodes[id], ExecuteNode(k, g, linears, inputs, p, id).value;
    if node.op.Input? {
      if node.spec.dimensions.Some? {
        CheckDimsFits(node.spec.dimensions.value, inputs[node.name].shape, p.symbols);
      }
    } else {
      var a, b := Operands(node, p.values), Operands(node, q.values);
      assert forall i | 0 <= i < |node.inputs| :: node.inputs[i] in node.inputs;
      assert a.value == b.value;
    }
  }

  lemma {:induction false} ExecutionSolves(k: Kernels, g: Graph, linears: Linears, inputs: map<string, Tensor>,
                                           order: seq<nat>)
    requires Lowering.Scheduled(g, order) && Lowering.ActiveClosed(g) && ExecuteOver(k, g, linears, inputs, order).Ok?
    ensures ExecuteOver(k, g, linears, inputs, order).value.values.Keys == Elements(order)
    ensures forall id | id in order :: SolvedAt(k, g, linears, ExecuteOver(k, g, linears, inputs, order).value, id)
  {
    if order != [] {
      var front, id := Front(order), Last(order);
      OverLast(k, g, linears, inputs, order);
      Lowering.ScheduledFront(g, order);
      ExecutionSolves(k, g, linears, inputs, front);
      var p, q := ExecuteOver(k, g, linears, inputs, front).value, ExecuteOver(k, g, linears, inputs, order).value;
      NodeSolves(k, g, linears, inputs, p, id);
      forall x | x in order
        ensures SolvedAt(k, g, linears, q, x)
      {
        if x != id {
          assert x in Elements(order);
          assert x in front;
          SolvedLater(k, g, linears, p, q, x);
        }
      }
    }
  }

  // ---- soundness ----

  /** Losses are declared scalar by the builder. */
  predicate LossScalar(node: Node)
  {
    node.op.MseLoss? || node.op.CrossEntropyLoss? ==> node.spec.dimensions == Some([])
  }

  /** The kernel's shape rule behind a node. */
  lemma {:induction false} ApplyShape(k: Kernels, op: Programs.Operator, xs: seq<Tensor>)
    requires Programs.ArityOk(op, |xs|) && !op.Identity? && Programs.Apply(k, op, xs).Ok?
    ensures Programs.ShapeOf(op, Shapes(xs)) == Some(Programs.Apply(k, op, xs).value.shape)
  {
  }

  lemma FitsShapes(xs: seq<Tensor>, specs: seq<TensorSpec>, v: Symbols)
    requires |xs| == |specs| && forall i | 0 <= i < |xs| :: Conforms(xs[i].shape, specs[i], v)
    ensures AllConform(Shapes(xs), specs, v)
  {
  }

  /** At one node the inferred spec describes the result exactly when the node is
      not a concatenation whose first operand is skipped. */
  lemma NodeConformsIff(k: Kernels, node: Node, params: Option<Weights>, xs: seq<Tensor>, specs: seq<TensorSpec>,
                        v: Symbols)
    requires ArityFits(node.op, |xs|) && !node.op.Input? && |specs| == |xs| && LossScalar(node)
    requires node.op.Linear? ==> params.Some? && Lowering.WellShaped(node.op, params.value)
    requires forall i | 0 <= i < |xs| :: Conforms(xs[i].shape, specs[i], v)
    requires ApplyNode(k, node, params, xs).Ok? && SizesFit(ApplyNode(k, node, params, xs).value.shape)
    requires InferNode(node.op, node.spec, specs) == Some(node.spec)
    ensures Conforms(ApplyNode(k, node, params, xs).value.shape, node.spec, v) <==>
      !(node.op.Concatenate? && SkippedFirst(Shapes(xs), specs))
  {
    match node.op
    case Concatenate(dim) =>
      ApplyShape(k, Programs.Cat(dim), xs);
      FitsShapes(xs, specs, v);
      ConcatConformsIff(Shapes(xs), specs, dim, v);
    case Add =>
      ApplyShape(k, Programs.Add, xs);
      BinaryConforms(xs[0].shape, xs[1].shape, specs[0], specs[1], v);
    case Subtract =>
      ApplyShape(k, Programs.Subtract, xs);
      BinaryConforms(xs[0].shape, xs[1].shape, specs[0], specs[1], v);
    case Multiply =>
      ApplyShape(k, Programs.Multiply, xs);
      BinaryConforms(xs[0].shape, xs[1].shape, specs[0], specs[1], v);
    case Flatten(start, end) =>
      ApplyShape(k, Programs.Flatten(start, end), xs);
      FlattenConforms(xs[0].shape, specs[0], start, end, v);
    case Linear(_, out, _) => LinearNodeConforms(k, node, params.value, xs, specs, v);
    case ReLU => ApplyShape(k, Programs.Relu, xs);
    case _ =>
  }

  lemma LinearNodeConforms(k: Kernels, node: Node, w: Weights, xs: seq<Tensor>, specs: seq<TensorSpec>, v: Symbols)
    requires node.op.Linear? && |xs| == |specs| == 1 && Lowering.WellShaped(node.op, w)
    requires Conforms(xs[0].shape, specs[0], v) && ApplyLinear(k, xs[0], w).Ok?
    requires node.spec == LinearSpec(specs[0], node.op.outFeatures)
    ensures Conforms(ApplyLinear(k, xs[0], w).value.shape, node.spec, v)
  {
    var all := [xs[0], w.weight] + if w.bias.Some? then [w.bias.value] else [];
    ApplyShape(k, Programs.Linear, all);
    assert Shapes(all)[0] == xs[0].shape && Shapes(all)[1] == w.weight.shape;
    LinearConforms(xs[0].shape, specs[0], w.weight.shape[0], v);
  }

  /** The concatenations at which the propagated spec is wrong. */
  ghost predicate Misled(g: Graph, p: Progress, id: nat)
    requires id < |g.nodes| && ValidNode(g.nodes, id)
  {
    var node := g.nodes[id];
    node.op.Concatenate? && Operands(node, p.values).Some? &&
    SkippedFirst(Shapes(Operands(node, p.values).value), SpecsOf(g.nodes, node.inputs))
  }

  ghost predicate ConformsAt(g: Graph, p: Progress, id: nat)
  {
    id < |g.nodes| && id in p.values && Conforms(p.values[id].shape, g.nodes[id].spec, p.symbols)
  }

  lemma SolvedConformsIff(k: Kernels, m: Lowering.Module, p: Progress, id: nat)
    requires Lowering.Allocated(m) && id < |m.graph.nodes| && m.graph.nodes[id].active
    requires SolvedAt(k, m.graph, m.linears, p, id) && LossScalar(m.graph.nodes[id])
    requires StructuredAt(m.graph.nodes, id) && ConsistentAt(m.graph.nodes, id)
    requires SizesFit(p.values[id].shape)
    requires forall x | x in m.graph.nodes[id].inputs :: ConformsAt(m.graph, p, x)
    ensures ConformsAt(m.graph, p, id) <==> !Misled(m.graph, p, id)
  {
    var g, node := m.graph, m.graph.nodes[id];
    if !node.op.Input? {
      var xs, specs := Operands(node, p.values).value, SpecsOf(g.nodes, node.inputs);
      forall i | 0 <= i < |xs|
        ensures Conforms(xs[i].shape, specs[i], p.symbols)
      {
        assert node.inputs[i] in node.inputs;
        assert ConformsAt(g, p, node.inputs[i]);
      }
      NodeConformsIff(k, node, ParametersOf(m.linears, id), xs, specs, p.symbols);
    }
  }

  predicate MadeForShapes(m: Lowering.Module, order: seq<nat>)
    requires forall k | 0 <= k < |order| :: order[k] < |m.graph.nodes|
  {
    && Lowering.Allocated(m) && Lowering.ActiveClosed(m.graph) && Lowering.Scheduled(m.graph, order)
    && Structured(m.graph.nodes) && Consistent(m.graph.nodes, order)
    && forall i | 0 <= i < |m.graph.nodes| :: LossScalar(m.graph.nodes[i])
  }

  /** Nodes conform one after the other as long as none is misled. */
  lemma {:induction false} PrefixConforms(k: Kernels, m: Lowering.Module, order: seq<nat>, p: Progress, n: nat)
    requires Listed(m.graph.nodes, order) && MadeForShapes(m, order) && n <= |order|
    requires forall id | id in order :: SolvedAt(k, m.graph, m.linears, p, id) && SizesFit(p.values[id].shape)
    requires forall i | 0 <= i < n :: !Misled(m.graph, p, order[i])
    ensures forall i | 0 <= i < n :: ConformsAt(m.graph, p, order[i])
  {
    if n > 0 {
      PrefixConforms(k, m, order, p, n - 1);
      InputsConform(m, order, p, n - 1);
      assert order[n - 1] in order;
      SolvedConformsIff(k, m, p, order[n - 1]);
    }
  }

  lemma InputsConform(m: Lowering.Module, order: seq<nat>, p: Progress, n: nat)
    requires Listed(m.graph.nodes, order) && MadeForShapes(m, order) && n < |order|
    requires forall i | 0 <= i < n :: ConformsAt(m.graph, p, order[i])
    ensures forall x | x in m.graph.nodes[order[n]].inputs :: ConformsAt(m.graph, p, x)
  {
    assert ProducersDone(m.graph, {} + Elements(order[..n]), order[n]);
    forall x | x in m.graph.nodes[order[n]].inputs
      ensures ConformsAt(m.graph, p, x)
    {
      assert x in Elements(order[..n]);
      var i :| 0 <= i < n && order[..n][i] == x;
      assert order[i] == x;
    }
  }

  /** In every successful execution every value has its node's propagated rank and
      dimensions under the symbols bound by the inputs, exactly when no
      concatenation skipped its first operand beside operands of another rank. */
  lemma PropagationSound(k: Kernels, m: Lowering.Module, inputs: map<string, Tensor>, order: seq<nat>)
    requires Listed(m.graph.nodes, order) && MadeForShapes(m, order)
    requires ExecuteOver(k, m.graph, m.linears, inputs, order).Ok?
    requires forall id | id in ExecuteOver(k, m.graph, m.linears, inputs, order).value.values ::
      SizesFit(ExecuteOver(k, m.graph, m.linears, inputs, order).value.values[id].shape)
    ensures var p := ExecuteOver(k, m.graph, m.linears, inputs, order).value;
      (forall i | 0 <= i < |order| :: ConformsAt(m.graph, p, order[i])) <==>
      (forall i | 0 <= i < |order| :: !Misled(m.graph, p, order[i]))
  {
    var p := ExecuteOver(k, m.graph, m.linears, inputs, order).value;
    ExecutionSolves(k, m.graph, m.linears, inputs, order);
    if forall i | 0 <= i < |order| :: !Misled(m.graph, p, order[i]) {
      PrefixConforms(k, m, order, p, |order|);
    }
    if forall i | 0 <= i < |order| :: ConformsAt(m.graph, p, order[i]) {
      forall i | 0 <= i < |order|
        ensures !Misled(m.graph, p, order[i])
      {
        InputsConform(m, order, p, i);
        assert order[i] in order;
        SolvedConformsIff(k, m, p, order[i]);
      }
    }
  }
}
