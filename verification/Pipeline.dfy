/** The compiler from end to end: a finished graph, its allocated parameters
    (`GraphModule::from_graph`, src/graph/mod.rs), and the lowered program. */
module Pipeline {
  import opened Wrappers
  import opened Tensors
  import Programs
  import opened Graphs
  import opened DeadNodes
  import opened GraphExecution
  import opened SpecInference
  import opened ConcatShapes
  import opened ShapePropagation
  import opened GraphBuilding
  import Lowering

  // ---- allocation ----

  /** What a linear node's weight (`false`) or bias (`true`) holds. */
  type Content = (nat, bool) -> (seq<nat> -> Cell)

  function Size(n: int): nat
  {
    if n < 0 then 0 else n
  }

  function LayerOf(node: Node, id: nat, dtype: DType, content: Content): Weights
    requires node.op.Linear?
  {
    var rows, columns := Size(node.op.outFeatures), Size(node.op.inFeatures);
    Weights(Build(dtype, [rows, columns], content(id, false)),
            if node.op.bias then Some(Build(dtype, [rows], content(id, true))) else None)
  }

  /** One layer per active linear node, with any contents. */
  function Layers(g: Graph, dtype: DType, content: Content): Linears
  {
    map id: nat | id < |g.nodes| && g.nodes[id].active && g.nodes[id].op.Linear? ::
      LayerOf(g.nodes[id], id, dtype, content)
  }

  /** The module of a graph, in evaluation mode. */
  function ModuleOf(g: Graph, dtype: DType, content: Content): Lowering.Module
  {
    Lowering.Module(g, Layers(g, dtype, content), false)
  }

  lemma AllocatedLayers(g: Graph, dtype: DType, content: Content)
    requires forall i | 0 <= i < |g.nodes| :: AttributesValid(g.nodes[i].op)
    ensures Lowering.Allocated(ModuleOf(g, dtype, content))
  {
  }

  /** A graph the builder can hold, and the live nodes `finish` keeps of it. */
  ghost predicate Finished(g: Graph, names: set<string>, live: set<nat>)
  {
    Made(g.nodes, names, g.inputs, g.outputs) && g.outputs != map[] && IsLive(g.nodes, Targets(g.outputs), live)
  }

  lemma FinishedModule(g: Graph, names: set<string>, live: set<nat>, dtype: DType, content: Content)
    requires Finished(g, names, live)
    ensures var m := ModuleOf(Pruned(g, live), dtype, content);
      Lowering.BuilderMade(m.graph) && Lowering.Allocated(m) && Lowering.ActiveClosed(m.graph) && Validates(m.graph)
  {
    FinishedGraph(g, names, live);
    FinishKeepsSpecs(g, names, live);
    forall i | 0 <= i < |g.nodes|
      ensures AttributesValid(Pruned(g, live).nodes[i].op)
    {
      assert NodeMade(g.nodes, i);
    }
    AllocatedLayers(Pruned(g, live), dtype, content);
  }

  // ---- finish, lower, run ----

  /** Whatever the parameters hold: running the program lowered from a finished graph, on inputs its
      guards accept, gives the graph's evaluation-mode outputs in name order, or an error in both. */
  lemma FinishedLowersCorrectly(k: Kernels, g: Graph, names: set<string>, live: set<nat>, dtype: DType,
                                content: Content,
                                inputs: map<string, Tensor>)
    requires Finished(g, names, live) && inputs.Keys == g.inputs.Keys
    requires forall i | 0 <= i < |Lowering.InputNames(g)| :: Lowering.InputNames(g)[i] in inputs
    requires Lowering.BuilderMade(Pruned(g, live))
    requires Lowering.FromGraph(ModuleOf(Pruned(g, live), dtype, content)).Some?
    requires Programs.CheckInputs(Lowering.FromGraph(ModuleOf(Pruned(g, live), dtype, content)).value.0.inputs,
                                  Lowering.InOrder(inputs, Lowering.InputNames(g))).Some?
    ensures var (p, state) := Lowering.FromGraph(ModuleOf(Pruned(g, live), dtype, content)).value;
      var r := Programs.Execute(k, p, Lowering.InOrder(inputs, Lowering.InputNames(g)), state);
      match Execute(k, Pruned(g, live), Layers(Pruned(g, live), dtype, content), inputs)
      case Ok(out) =>
        (forall i | 0 <= i < |Lowering.OutputNames(g)| :: Lowering.OutputNames(g)[i] in out) &&
        r == Ok(Lowering.Listed(out, Lowering.OutputNames(g)))
      case _ => r.Failed?
  {
    FinishedModule(g, names, live, dtype, content);
    Lowering.LoweringCorrect(k, ModuleOf(Pruned(g, live), dtype, content), inputs);
  }

  /** And those are the outputs of the graph as built, dead nodes included, where it executes. */
  lemma UnprunedLowersCorrectly(k: Kernels, g: Graph, names: set<string>, live: set<nat>, dtype: DType,
                                content: Content,
                                inputs: map<string, Tensor>)
    requires Finished(g, names, live) && inputs.Keys == g.inputs.Keys
    requires forall i | 0 <= i < |Lowering.InputNames(g)| :: Lowering.InputNames(g)[i] in inputs
    requires Lowering.BuilderMade(Pruned(g, live))
    requires Lowering.FromGraph(ModuleOf(Pruned(g, live), dtype, content)).Some?
    requires Programs.CheckInputs(Lowering.FromGraph(ModuleOf(Pruned(g, live), dtype, content)).value.0.inputs,
                                  Lowering.InOrder(inputs, Lowering.InputNames(g))).Some?
    requires Execute(k, g, Layers(Pruned(g, live), dtype, content), inputs).Ok?
    ensures var (p, state) := Lowering.FromGraph(ModuleOf(Pruned(g, live), dtype, content)).value;
      var out := Execute(k, g, Layers(Pruned(g, live), dtype, content), inputs).value;
      (forall i | 0 <= i < |Lowering.OutputNames(g)| :: Lowering.OutputNames(g)[i] in out) &&
      Programs.Execute(k, p, Lowering.InOrder(inputs, Lowering.InputNames(g)), state) ==
        Ok(Lowering.Listed(out, Lowering.OutputNames(g)))
  {
    FinishedLowersCorrectly(k, g, names, live, dtype, content, inputs);
    EliminatePreservesExecution(k, g, Layers(Pruned(g, live), dtype, content), inputs, live);
  }

  // ---- shapes of a finished graph ----

  /** The concatenation has operands of declared rank only. */
  predicate RanksKnown(g: Graph, id: nat)
    requires id < |g.nodes|
  {
    g.nodes[id].op.Concatenate? ==> forall x | x in g.nodes[id].inputs ::
      x < |g.nodes| && RankValue(g.nodes[x].spec).Some?
  }

  /** Operands of known rank conform to one rank, so no empty vector is skipped beside another rank. */
  lemma KnownRanksNotSkipped(shapes: seq<seq<nat>>, specs: seq<TensorSpec>, dim: int, v: Symbols)
    requires AllConform(shapes, specs, v) && specs != [] && InferConcat(specs, dim).Some?
    requires forall i | 0 <= i < |specs| :: RankValue(specs[i]).Some?
    ensures !SkippedFirst(shapes, specs)
  {
    forall i | 0 <= i < |shapes|
      ensures |shapes[i]| == |shapes[0]|
    {
      assert Conforms(shapes[i], specs[i], v) && Conforms(shapes[0], specs[0], v);
      if i > 0 {
        HeaderRanks(specs[0], specs[1..], i - 1);
      }
    }
  }

  lemma KnownNotMisled(k: Kernels, m: Lowering.Module, p: Progress, id: nat)
    requires id < |m.graph.nodes| && ValidNode(m.graph.nodes, id)
    requires StructuredAt(m.graph.nodes, id) && ConsistentAt(m.graph.nodes, id)
    requires RanksKnown(m.graph, id) && forall x | x in m.graph.nodes[id].inputs :: ConformsAt(m.graph, p, x)
    ensures !Misled(m.graph, p, id)
  {
    var g, node := m.graph, m.graph.nodes[id];
    if node.op.Concatenate? && Operands(node, p.values).Some? {
      var xs, specs := Operands(node, p.values).value, SpecsOf(g.nodes, node.inputs);
      forall i | 0 <= i < |xs|
        ensures Conforms(Shapes(xs)[i], specs[i], p.symbols) && RankValue(specs[i]).Some?
      {
        assert node.inputs[i] in node.inputs;
        assert ConformsAt(g, p, node.inputs[i]);
      }
      KnownRanksNotSkipped(Shapes(xs), specs, node.op.dim, p.symbols);
    }
  }

  lemma {:induction false} KnownPrefixConforms(k: Kernels, m: Lowering.Module, order: seq<nat>, p: Progress, n: nat)
    requires Listed(m.graph.nodes, order) && MadeForShapes(m, order) && n <= |order|
    requires forall id | id in order :: SolvedAt(k, m.graph, m.linears, p, id) && SizesFit(p.values[id].shape)
    requires forall i: nat | i < |m.graph.nodes| :: RanksKnown(m.graph, i)
    ensures forall i | 0 <= i < n :: ConformsAt(m.graph, p, order[i])
  {
    if n > 0 {
      KnownPrefixConforms(k, m, order, p, n - 1);
      InputsConform(m, order, p, n - 1);
      assert order[n - 1] in order;
      KnownNotMisled(k, m, p, order[n - 1]);
      SolvedConformsIff(k, m, p, order[n - 1]);
    }
  }

  /** In a graph whose concatenations have operands of declared rank only, every value of every
      successful execution has its propagated rank and dimensions. */
  lemma KnownRanksSound(k: Kernels, m: Lowering.Module, inputs: map<string, Tensor>, order: seq<nat>)
    requires Listed(m.graph.nodes, order) && MadeForShapes(m, order)
    requires forall i: nat | i < |m.graph.nodes| :: RanksKnown(m.graph, i)
    requires ExecuteOver(k, m.graph, m.linears, inputs, order).Ok?
    requires forall id | id in ExecuteOver(k, m.graph, m.linears, inputs, order).value.values ::
      SizesFit(ExecuteOver(k, m.graph, m.linears, inputs, order).value.values[id].shape)
    ensures forall i | 0 <= i < |order| :: ConformsAt(m.graph, ExecuteOver(k, m.graph, m.linears, inputs, order).value,
                                                      order[i])
  {
    ExecutionSolves(k, m.graph, m.linears, inputs, order);
    KnownPrefixConforms(k, m, order, ExecuteOver(k, m.graph, m.linears, inputs, order).value, |order|);
  }

  /** A finished graph with allocated parameters is one the shape theorems speak about. */
  lemma FinishedForShapes(g: Graph, names: set<string>, live: set<nat>, dtype: DType, content: Content)
    requires Finished(g, names, live)
    ensures var t := Pruned(g, live);
      Listed(t.nodes, Schedule(t, {})) && MadeForShapes(ModuleOf(t, dtype, content), Schedule(t, {})) &&
        Runnable(t, Schedule(t, {}))
  {
    var t := Pruned(g, live);
    FinishedModule(g, names, live, dtype, content);
    FinishedGraph(g, names, live);
    FinishKeepsSpecs(g, names, live);
    RestrictedConsistent(g.nodes, live, Schedule(t, {}));
    Lowering.ScheduleScheduled(t);
    ScheduleRunnable(t);
  }

  /** In every successful execution of a finished graph every value has its node's rank and dimensions,
      exactly when no concatenation skipped its first operand beside operands of another rank. */
  lemma FinishedShapesSound(k: Kernels, g: Graph, names: set<string>, live: set<nat>, dtype: DType, content: Content,
                            inputs: map<string, Tensor>)
    requires Finished(g, names, live) && Runnable(Pruned(g, live), Schedule(Pruned(g, live), {}))
    requires ExecuteOver(k, Pruned(g, live), Layers(Pruned(g, live), dtype, content), inputs,
                         Schedule(Pruned(g, live), {})).Ok?
    requires var p := ExecuteOver(k, Pruned(g, live), Layers(Pruned(g, live), dtype, content), inputs,
                                  Schedule(Pruned(g, live), {})).value;
      forall id | id in p.values :: SizesFit(p.values[id].shape)
    ensures var t := Pruned(g, live);
      var p := ExecuteOver(k, t, Layers(t, dtype, content), inputs, Schedule(t, {})).value;
      (forall i | 0 <= i < |Schedule(t, {})| :: ConformsAt(t, p, Schedule(t, {})[i])) <==>
      (forall i | 0 <= i < |Schedule(t, {})| :: !Misled(t, p, Schedule(t, {})[i]))
  {
    var t := Pruned(g, live);
    FinishedForShapes(g, names, live, dtype, content);
    PropagationSound(k, ModuleOf(t, dtype, content), inputs, Schedule(t, {}));
  }
}
