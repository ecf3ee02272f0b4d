/** Lowering a graph module to a portable program (`Model::from_graph`,
    src/deployment/mod.rs) against the graph executor (src/graph/mod.rs). */
module Lowering {
  import opened Wrappers
  import opened Tensors
  import Programs
  import Validation
  import opened Names
  import opened Graphs
  import opened GraphExecution

  datatype Module = Module(graph: Graph, linears: Linears, training: bool)

  function WeightName(node: Node): string
  {
    node.name + ".weight"
  }

  function BiasName(node: Node): string
  {
    node.name + ".bias"
  }

  // ---- translation ----

  function LowerDim(d: Dim): Option<Programs.Dimension>
  {
    match d
    case Known(n) => Some(Programs.Dimension.Known(n))
    case Symbol(s) => Some(Programs.Dimension.Symbol(s, 0, None))
    case Dynamic => None
  }

  function LowerDims(dims: seq<Dim>): (r: Option<seq<Programs.Dimension>>)
    ensures r.Some? ==> |r.value| == |dims| && forall i | 0 <= i < |dims| :: LowerDim(dims[i]) == Some(r.value[i])
    ensures r.None? ==> exists i :: 0 <= i < |dims| && LowerDim(dims[i]).None?
  {
    if dims == [] then Some([])
    else
      var before, last := LowerDims(Front(dims)), LowerDim(Last(dims));
      if before.None? || last.None? then None else Some(before.value + [last.value])
  }

  function LowerInput(g: Graph, name: string): Option<Programs.ValueSpec>
    requires name in g.inputs && g.inputs[name] < |g.nodes|
  {
    var spec := g.nodes[g.inputs[name]].spec;
    if spec.dimensions.None? then None
    else
      var dims := LowerDims(spec.dimensions.value);
      if dims.None? || spec.kind.None? then None else Some(Programs.ValueSpec(name, spec.kind.value, dims.value))
  }

  predicate InputsInRange(g: Graph, names: seq<string>)
  {
    forall i | 0 <= i < |names| :: names[i] in g.inputs && g.inputs[names[i]] < |g.nodes|
  }

  function LowerInputs(g: Graph, names: seq<string>): (r: Option<seq<Programs.ValueSpec>>)
    requires InputsInRange(g, names)
    ensures r.Some? ==> |r.value| == |names|
    ensures r.Some? ==> forall i | 0 <= i < |names| :: LowerInput(g, names[i]) == Some(r.value[i])
  {
    if names == [] then Some([])
    else
      var before, last := LowerInputs(g, Front(names)), LowerInput(g, Last(names));
      if before.None? || last.None? then None else Some(before.value + [last.value])
  }

  function LowerOp(op: GraphOp): Option<Programs.Operator>
  {
    match op
    case Identity => Some(Programs.Identity)
    case Output => Some(Programs.Identity)
    case Dropout(_) => Some(Programs.Identity)
    case ReLU => Some(Programs.Relu)
    case Add => Some(Programs.Add)
    case Subtract => Some(Programs.Subtract)
    case Multiply => Some(Programs.Multiply)
    case Flatten(start, end) => Some(Programs.Flatten(start, end))
    case Concatenate(dim) => Some(Programs.Cat(dim))
    case Linear(_, _, _) => Some(Programs.Linear)
    case _ => None
  }

  function NodeNames(g: Graph, values: seq<nat>): (r: seq<string>)
    requires forall x | x in values :: x < |g.nodes|
    ensures |r| == |values|
  {
    seq(|values|, i requires 0 <= i < |values| => assert values[i] in values; g.nodes[values[i]].name)
  }

  function ParameterNames(node: Node): seq<string>
  {
    if !node.op.Linear? then []
    else if node.op.bias then [WeightName(node), BiasName(node)]
    else [WeightName(node)]
  }

  function LowerNode(g: Graph, id: nat): Option<Programs.Operation>
    requires id < |g.nodes| && ValidNode(g.nodes, id)
  {
    var node := g.nodes[id];
    var op := LowerOp(node.op);
    if op.None? then None
    else Some(Programs.Operation(node.name, op.value, NodeNames(g, node.inputs) + ParameterNames(node)))
  }

  /** The operations of the scheduled nodes; inputs have none. */
  function LowerOver(g: Graph, order: seq<nat>): Option<seq<Programs.Operation>>
    requires Runnable(g, order)
  {
    if order == [] then Some([])
    else
      var before := LowerOver(g, Front(order));
      if before.None? then None
      else if g.nodes[Last(order)].op.Input? then before
      else
        var last := LowerNode(g, Last(order));
        if last.None? then None else Some(before.value + [last.value])
  }

  method LowerLoop(g: Graph, order: seq<nat>) returns (operations: Option<seq<Programs.Operation>>)
    requires Runnable(g, order)
    ensures operations == LowerOver(g, order)
  {
    var done: seq<Programs.Operation> := [];
    for i := 0 to |order|
      invariant Runnable(g, order[..i]) && LowerOver(g, order[..i]) == Some(done)
    {
      assert Front(order[..i + 1]) == order[..i] && Last(order[..i + 1]) == order[i];
      assert Runnable(g, order[..i + 1]);
      if !g.nodes[order[i]].op.Input? {
        var next := LowerNode(g, order[i]);
        if next.None? {
          LowerFailsForGood(g, order, i + 1);
          return None;
        }
        done := done + [next.value];
      }
    }
    assert order[..|order|] == order;
    return Some(done);
  }

  lemma {:induction false} LowerFailsForGood(g: Graph, order: seq<nat>, i: nat)
    requires i <= |order| && Runnable(g, order) && Runnable(g, order[..i]) && LowerOver(g, order[..i]).None?
    ensures LowerOver(g, order).None?
    decreases |order| - i
  {
    if i < |order| {
      assert Front(order[..i + 1]) == order[..i];
      assert Runnable(g, order[..i + 1]);
      LowerFailsForGood(g, order, i + 1);
    } else {
      assert order[..i] == order;
    }
  }

  /** The parameter store: the weights of each allocated linear node under dotted names. */
  function StateTo(m: Module, n: nat): Programs.Env
    requires n <= |m.graph.nodes|
  {
    if n == 0 then map[]
    else
      var before, node := StateTo(m, n - 1), m.graph.nodes[n - 1];
      if n - 1 !in m.linears then before
      else
        var weighted := before[WeightName(node) := m.linears[n - 1].weight];
        if m.linears[n - 1].bias.Some? then weighted[BiasName(node) := m.linears[n - 1].bias.value] else weighted
  }

  function StateOf(m: Module): Programs.Env
  {
    StateTo(m, |m.graph.nodes|)
  }

  function OutputEntries(g: Graph, names: seq<string>): (r: seq<Programs.Entry>)
    requires forall i | 0 <= i < |names| :: names[i] in g.outputs && g.outputs[names[i]] < |g.nodes|
    ensures |r| == |names|
  {
    seq(|names|, i requires 0 <= i < |names| => Programs.Entry(names[i],
                                                               Programs.Leaf(g.nodes[g.outputs[names[i]]].name)))
  }

  /** The structure the builder gives every graph. */
  predicate BuilderMade(g: Graph)
  {
    && ValidHeader(g)
    && (forall name | name in g.inputs ::
          g.inputs[name] < |g.nodes| && g.nodes[g.inputs[name]].op.Input? && g.nodes[g.inputs[name]].name == name)
    && (forall i | 0 <= i < |g.nodes| && g.nodes[i].op.Input? ::
        g.nodes[i].name in g.inputs && g.inputs[g.nodes[i].name] == i)
    && (forall name | name in g.outputs :: g.nodes[g.outputs[name]].name == name)
  }

  /** Allocated parameters: one layer per active linear node, of the declared shape. */
  predicate Allocated(m: Module)
  {
    && (forall id | id in m.linears :: id < |m.graph.nodes| && m.graph.nodes[id].op.Linear?)
    && forall id | 0 <= id < |m.graph.nodes| && m.graph.nodes[id].active && m.graph.nodes[id].op.Linear? ::
      id in m.linears && WellShaped(m.graph.nodes[id].op, m.linears[id])
  }

  predicate WellShaped(op: GraphOp, w: Weights)
    requires op.Linear?
  {
    |w.weight.shape| == 2 && w.weight.shape[0] == op.outFeatures && w.weight.shape[1] == op.inFeatures &&
    w.bias.Some? == op.bias && (w.bias.Some? ==> w.bias.value.shape == [w.weight.shape[0]])
  }

  lemma MembersIn(s: set<string>, names: seq<string>)
    requires Members(names) == s
    ensures forall i | 0 <= i < |names| :: names[i] in s
  {
    forall i | 0 <= i < |names|
      ensures names[i] in s
    {
      assert names[i] in Members(names);
    }
  }

  function InputNames(g: Graph): seq<string>
  {
    Sorted(g.inputs.Keys)
  }

  function OutputNames(g: Graph): seq<string>
  {
    Sorted(g.outputs.Keys)
  }

  function Portable(g: Graph, inputs: seq<Programs.ValueSpec>, operations: seq<Programs.Operation>): Programs.Program
    requires BuilderMade(g)
  {
    MembersIn(g.outputs.Keys, OutputNames(g));
    var leaves := seq(|inputs|, i requires 0 <= i < |inputs| => Programs.Leaf(inputs[i].name));
    Programs.Program(1, 1, inputs, Programs.Tuple(leaves), operations, Programs.Dict(OutputEntries(g, OutputNames(g))))
  }

  /** The program and state `from_graph` hands to model construction, or an error. */
  function Translate(m: Module): Option<(Programs.Program, Programs.Env)>
    requires BuilderMade(m.graph)
  {
    var g := m.graph;
    MembersIn(g.inputs.Keys, InputNames(g));
    ScheduleInRange(g);
    var inputs := LowerInputs(g, InputNames(g));
    if m.training || inputs.None? || TopologicalOrder(g).None? then None
    else
      var operations := LowerOver(g, Schedule(g, {}));
      if operations.None? then None else Some((Portable(g, inputs.value, operations.value), StateOf(m)))
  }

  /** `from_graph`: translation, then validation as part of model construction. */
  function FromGraph(m: Module): Option<(Programs.Program, Programs.Env)>
    requires BuilderMade(m.graph)
  {
    var t := Translate(m);
    if t.Some? && Validation.Valid(t.value.0, t.value.1.Keys) then t else None
  }

  method TranslateModule(m: Module) returns (r: Option<(Programs.Program, Programs.Env)>)
    requires BuilderMade(m.graph)
    ensures r == Translate(m)
  {
    MembersIn(m.graph.inputs.Keys, InputNames(m.graph));
    ScheduleInRange(m.graph);
    var inputs := LowerInputs(m.graph, InputNames(m.graph));
    var order := Order(m.graph);
    if m.training || inputs.None? || order.None? {
      return None;
    }
    var operations := LowerLoop(m.graph, order.value);
    return if operations.None? then None else Some((Portable(m.graph, inputs.value, operations.value), StateOf(m)));
  }

  method LowerModule(m: Module) returns (r: Option<(Programs.Program, Programs.Env)>)
    requires BuilderMade(m.graph)
    ensures r == FromGraph(m)
  {
    var t := TranslateModule(m);
    if t.None? {
      return None;
    }
    var spent := Validation.ValidateProgram(t.value.0, t.value.1.Keys, 0, 0);
    return if spent.Some? then t else None;
  }

  // ---- names ----

  function FirstDot(s: string): nat
  {
    if s == "" || s[0] == '.' then 0 else 1 + FirstDot(s[1..])
  }

  lemma {:induction false} FirstDotAt(a: string, x: string)
    requires '.' !in a
    ensures FirstDot(a + "." + x) == |a|
  {
    if a != "" {
      FirstDotAt(a[1..], x);
      assert (a + "." + x)[1..] == a[1..] + "." + x;
    }
  }

  /** A dotted name determines its two parts when the first has no dot. */
  lemma DottedInjective(a: string, b: string, x: string, y: string)
    requires '.' !in a && '.' !in b && a + "." + x == b + "." + y
    ensures a == b && x == y
  {
    FirstDotAt(a, x);
    FirstDotAt(b, y);
    var u, w := a + "." + x, b + "." + y;
    assert u[..|a|] == a && w[..|b|] == b;
    assert u[|a| + 1..] == x && w[|b| + 1..] == y;
  }

  predicate Dotted(name: string)
  {
    '.' in name
  }

  lemma ParametersDotted(node: Node)
    ensures Dotted(WeightName(node)) && Dotted(BiasName(node))
  {
    assert WeightName(node)[|node.name|] == '.' && BiasName(node)[|node.name|] == '.';
  }

  /** Parameter names can collide neither with each other nor with node names. */
  lemma ParameterNamesDistinct(a: Node, b: Node)
    requires ValidNodeName(a.name) && ValidNodeName(b.name)
    ensures WeightName(a) != BiasName(b) && WeightName(a) != b.name && BiasName(a) != b.name
    ensures WeightName(a) == WeightName(b) ==> a.name == b.name
    ensures BiasName(a) == BiasName(b) ==> a.name == b.name
  {
    ParametersDotted(a);
    assert WeightName(a) == a.name + "." + "weight" && WeightName(b) == b.name + "." + "weight";
    assert BiasName(a) == a.name + "." + "bias" && BiasName(b) == b.name + "." + "bias";
    if WeightName(a) == BiasName(b) {
      DottedInjective(a.name, b.name, "weight", "bias");
    }
    if WeightName(a) == WeightName(b) {
      DottedInjective(a.name, b.name, "weight", "weight");
    }
    if BiasName(a) == BiasName(b) {
      DottedInjective(a.name, b.name, "bias", "bias");
    }
  }

  /** The store holds every allocated layer under its node's name, and only dotted names. */
  lemma {:induction false} StateHolds(m: Module, n: nat, id: nat)
    requires BuilderMade(m.graph) && n <= |m.graph.nodes|
    ensures forall name | name in StateTo(m, n) :: Dotted(name)
    ensures id < n && id in m.linears ==>
      WeightName(m.graph.nodes[id]) in StateTo(m, n) &&
      StateTo(m, n)[WeightName(m.graph.nodes[id])] == m.linears[id].weight &&
      (m.linears[id].bias.Some? ==>
         BiasName(m.graph.nodes[id]) in StateTo(m, n) &&
         StateTo(m, n)[BiasName(m.graph.nodes[id])] == m.linears[id].bias.value)
  {
    if n > 0 {
      StateHolds(m, n - 1, id);
      var node := m.graph.nodes[n - 1];
      ParametersDotted(node);
      if id < n {
        assert ValidNode(m.graph.nodes, n - 1) && ValidNode(m.graph.nodes, id);
        ParameterNamesDistinct(m.graph.nodes[id], node);
        ParameterNamesDistinct(node, m.graph.nodes[id]);
      }
    }
  }

  // ---- one node ----

  lemma LinearAgrees(k: Kernels, x: Tensor, w: Weights, op: GraphOp)
    requires op.Linear? && WellShaped(op, w)
    ensures var r := Programs.Apply(k, Programs.Linear, [x, w.weight] + if w.bias.Some? then [w.bias.value] else []);
      if r.Ok? then ApplyLinear(k, x, w) == r else ApplyLinear(k, x, w).Failed? && r.Failed?
  {
    var xs := [x, w.weight] + if w.bias.Some? then [w.bias.value] else [];
    var s := Shapes(xs);
    assert s[0] == x.shape && s[1] == w.weight.shape;
    assert Programs.ShapeOf(Programs.Linear, s) == LinearShape(x.shape, w.weight.shape,
                                                               if |s| > 2 then Some(s[2]) else None);
  }

  /** The kernel behind a lowered operation is the one behind the node. */
  lemma NodeAgrees(k: Kernels, node: Node, params: Option<Weights>, xs: seq<Tensor>)
    requires ArityFits(node.op, |xs|) && !node.op.Input? && LowerOp(node.op).Some?
    requires node.op.Linear? ==> params.Some? && WellShaped(node.op, params.value)
    ensures var extra := if !node.op.Linear? then [] else [params.value.weight] + if params.value.bias.Some? then
      [params.value.bias.value] else [];
      var r := Programs.Apply(k, LowerOp(node.op).value, xs + extra);
      if r.Ok? then ApplyNode(k, node, params, xs) == r else ApplyNode(k, node, params, xs).Failed? && r.Failed?
  {
    if node.op.Linear? {
      LinearAgrees(k, xs[0], params.value, node.op);
      assert xs == [xs[0]];
      assert xs + ([params.value.weight] + if params.value.bias.Some? then [params.value.bias.value] else []) ==
        [xs[0], params.value.weight] + if params.value.bias.Some? then [params.value.bias.value] else [];
    } else {
      assert xs + [] == xs;
    }
  }

  // ---- simulation ----

  /** The program's loop over a list of operations. */
  function RunOps(k: Kernels, ops: seq<Programs.Operation>, env: Programs.Env,
                  state: Programs.Env): Outcome<Programs.Env>
  {
    if ops == [] then Ok(env)
    else
      match RunOps(k, Front(ops), env, state)
      case Ok(e) => Programs.Advance(k, Last(ops), e, state)
      case Failed => Failed
      case Stuck => Stuck
  }

  lemma {:induction false} RunToIsRunOps(k: Kernels, p: Programs.Program, inputs: seq<Tensor>, state: Programs.Env,
                                         n: nat)
    requires n <= |p.operations| && Programs.CheckInputs(p.inputs, inputs).Some?
    ensures Programs.RunTo(k, p, inputs, state, n) ==
      RunOps(k, p.operations[..n], Programs.Bind(state, p.inputs, inputs), state)
  {
    if n > 0 {
      RunToIsRunOps(k, p, inputs, state, n - 1);
      assert Front(p.operations[..n]) == p.operations[..n - 1] && Last(p.operations[..n]) == p.operations[n - 1];
    }
  }

  lemma RunIsRunOps(k: Kernels, p: Programs.Program, inputs: seq<Tensor>, state: Programs.Env)
    requires Programs.CheckInputs(p.inputs, inputs).Some?
    ensures Programs.RunTo(k, p, inputs, state, |p.operations|) ==
      RunOps(k, p.operations, Programs.Bind(state, p.inputs, inputs), state)
  {
    RunToIsRunOps(k, p, inputs, state, |p.operations|);
    assert p.operations[..|p.operations|] == p.operations;
  }

  /** The program's environment shows the graph's values under their node names. */
  ghost predicate Mirrors(g: Graph, inputs: map<string, Tensor>, state: Programs.Env, p: Progress, env: Programs.Env)
  {
    && (forall v | v in p.values :: MirrorsAt(g, p, env, v))
    && (forall n | n in inputs :: n in env && env[n] == inputs[n])
    && (forall n | n in state :: n in env && env[n] == state[n])
  }

  ghost predicate MirrorsAt(g: Graph, p: Progress, env: Programs.Env, v: nat)
    requires v in p.values
  {
    v < |g.nodes| && g.nodes[v].name in env && env[g.nodes[v].name] == p.values[v]
  }

  lemma OperandsMirrored(g: Graph, inputs: map<string, Tensor>, state: Programs.Env, p: Progress, env: Programs.Env,
                         id: nat)
    requires id < |g.nodes| && ValidNode(g.nodes, id) && Mirrors(g, inputs, state, p, env)
    requires Operands(g.nodes[id], p.values).Some?
    ensures Programs.Bound(env, NodeNames(g, g.nodes[id].inputs))
    ensures Programs.Lookup(env, NodeNames(g, g.nodes[id].inputs)) == Operands(g.nodes[id], p.values).value
  {
    var node := g.nodes[id];
    var names := NodeNames(g, node.inputs);
    forall i | 0 <= i < |names|
      ensures names[i] in env && env[names[i]] == p.values[node.inputs[i]]
    {
      assert node.inputs[i] in node.inputs;
      assert MirrorsAt(g, p, env, node.inputs[i]);
    }
    assert Programs.Lookup(env, names) == Operands(node, p.values).value;
  }

  function Extra(w: Option<Weights>, op: GraphOp): seq<Tensor>
    requires op.Linear? ==> w.Some?
  {
    if !op.Linear? then [] else [w.value.weight] + if w.value.bias.Some? then [w.value.bias.value] else []
  }

  lemma ParametersBound(m: Module, env: Programs.Env, id: nat)
    requires BuilderMade(m.graph) && Allocated(m) && id < |m.graph.nodes| && m.graph.nodes[id].active
    requires forall n | n in StateOf(m) :: n in env && env[n] == StateOf(m)[n]
    ensures m.graph.nodes[id].op.Linear? ==>
      ParametersOf(m.linears, id).Some? && WellShaped(m.graph.nodes[id].op, m.linears[id])
    ensures Programs.Bound(env, ParameterNames(m.graph.nodes[id]))
    ensures Programs.Lookup(env, ParameterNames(m.graph.nodes[id])) ==
      Extra(ParametersOf(m.linears, id), m.graph.nodes[id].op)
  {
    StateHolds(m, |m.graph.nodes|, id);
  }

  lemma LookupAppend(env: Programs.Env, a: seq<string>, b: seq<string>)
    requires Programs.Bound(env, a) && Programs.Bound(env, b)
    ensures Programs.Bound(env, a + b)
    ensures Programs.Lookup(env, a + b) == Programs.Lookup(env, a) + Programs.Lookup(env, b)
  {
    forall n | n in a + b
      ensures n in env
    {
      assert n in a || n in b;
    }
  }

  /** Every value the node needs has been computed. */
  predicate Supplied(g: Graph, id: nat, p: Progress)
    requires id < |g.nodes|
  {
    forall x | x in g.nodes[id].inputs :: x in p.values
  }

  lemma AdvanceApplies(k: Kernels, node: Programs.Operation, env: Programs.Env, state: Programs.Env, args: seq<Tensor>)
    requires Programs.Bound(env, node.inputs) && Programs.Lookup(env, node.inputs) == args && !node.operator.If?
    ensures var r := Programs.Apply(k, node.operator, args);
      Programs.Advance(k, node, env, state) == if r.Ok? then Ok(env[node.name := r.value]) else if r.Failed? then
        Failed else Stuck
  {
  }

  lemma ExecuteApplies(k: Kernels, g: Graph, linears: Linears, inputs: map<string, Tensor>, p: Progress, id: nat)
    requires id < |g.nodes| && ValidNode(g.nodes, id) && !g.nodes[id].op.Input? && Supplied(g, id, p)
    ensures Operands(g.nodes[id], p.values).Some?
    ensures var r := ApplyNode(k, g.nodes[id], ParametersOf(linears, id), Operands(g.nodes[id], p.values).value);
      ExecuteNode(k, g, linears, inputs, p, id) == if r.Ok? then
        Ok(Progress(p.symbols, p.values[id := r.value])) else Failed
  {
  }

  lemma ArgumentsMirrored(m: Module, inputs: map<string, Tensor>, p: Progress, env: Programs.Env, id: nat)
    requires BuilderMade(m.graph) && Allocated(m) && id < |m.graph.nodes| && m.graph.nodes[id].active
    requires ValidNode(m.graph.nodes, id) && Mirrors(m.graph, inputs, StateOf(m), p, env) && Supplied(m.graph, id, p)
    ensures m.graph.nodes[id].op.Linear? ==>
      ParametersOf(m.linears, id).Some? && WellShaped(m.graph.nodes[id].op, m.linears[id])
    ensures Operands(m.graph.nodes[id], p.values).Some?
    ensures var names := NodeNames(m.graph, m.graph.nodes[id].inputs) + ParameterNames(m.graph.nodes[id]);
      Programs.Bound(env, names) &&
      Programs.Lookup(env, names) == Operands(m.graph.nodes[id], p.values).value +
        Extra(ParametersOf(m.linears, id), m.graph.nodes[id].op)
  {
    OperandsMirrored(m.graph, inputs, StateOf(m), p, env, id);
    ParametersBound(m, env, id);
    LookupAppend(env, NodeNames(m.graph, m.graph.nodes[id].inputs), ParameterNames(m.graph.nodes[id]));
  }

  /** One lowered operation does what the executor does at its node. */
  lemma StepMirrored(k: Kernels, m: Module, inputs: map<string, Tensor>, p: Progress, env: Programs.Env, id: nat)
    requires BuilderMade(m.graph) && Allocated(m) && id < |m.graph.nodes| && m.graph.nodes[id].active
    requires ValidNode(m.graph.nodes, id) && !m.graph.nodes[id].op.Input? && LowerNode(m.graph, id).Some?
    requires Mirrors(m.graph, inputs, StateOf(m), p, env) && Supplied(m.graph, id, p)
    ensures var r := Programs.Advance(k, LowerNode(m.graph, id).value, env, StateOf(m));
      match ExecuteNode(k, m.graph, m.linears, inputs, p, id)
      case Ok(q) => q.symbols == p.symbols && id in q.values && q.values == p.values[id := q.values[id]] &&
                    r == Ok(env[m.graph.nodes[id].name := q.values[id]])
      case _ => r.Failed?
  {
    var node, op := m.graph.nodes[id], LowerNode(m.graph, id).value;
    ArgumentsMirrored(m, inputs, p, env, id);
    ExecuteApplies(k, m.graph, m.linears, inputs, p, id);
    var xs := Operands(node, p.values).value;
    NodeAgrees(k, node, ParametersOf(m.linears, id), xs);
    AdvanceApplies(k, op, env, StateOf(m), xs + Extra(ParametersOf(m.linears, id), node.op));
  }

  // ---- inputs ----

  lemma {:induction false} DimsAccepted(dims: seq<Dim>, lowered: seq<Programs.Dimension>, shape: seq<nat>,
                                        symbols: Symbols, v: Programs.Valuation)
    requires LowerDims(dims) == Some(lowered) && Programs.MeetsAll(shape, lowered, v) && Subsumes(symbols, v)
    ensures |dims| == |shape| && CheckDims(dims, shape, symbols).Some?
    ensures Subsumes(CheckDims(dims, shape, symbols).value, v)
  {
    if dims != [] {
      assert lowered == Front(lowered) + [Last(lowered)];
      forall d | 0 <= d < |Front(shape)|
        ensures Programs.Meets(Front(shape)[d], Front(lowered)[d], v)
      {
        assert Programs.Meets(shape[d], lowered[d], v);
      }
      DimsAccepted(Front(dims), Front(lowered), Front(shape), symbols, v);
      assert Programs.Meets(Last(shape), Last(lowered), v);
      assert LowerDim(Last(dims)) == Some(Last(lowered));
    }
  }

  /** What the program's guards promise about one graph input. */
  ghost predicate Guarded(g: Graph, inputs: map<string, Tensor>, v: Programs.Valuation, name: string)
  {
    && name in inputs && name in g.inputs && g.inputs[name] < |g.nodes|
    && var lowered := LowerInput(g, name);
       lowered.Some? && inputs[name].dtype == lowered.value.dtype &&
         Programs.MeetsAll(inputs[name].shape, lowered.value.dimensions, v)
  }

  lemma InputAccepted(g: Graph, inputs: map<string, Tensor>, v: Programs.Valuation, name: string, symbols: Symbols)
    requires Guarded(g, inputs, v, name) && Subsumes(symbols, v)
    ensures var r := CheckSpec(inputs[name], g.nodes[g.inputs[name]].spec, symbols); r.Some? && Subsumes(r.value, v)
  {
    var spec := g.nodes[g.inputs[name]].spec;
    DimsAccepted(spec.dimensions.value, LowerDims(spec.dimensions.value).value, inputs[name].shape, symbols, v);
  }

  /** Every active node consumes active nodes only, as after dead-node elimination. */
  predicate ActiveClosed(g: Graph)
  {
    forall i | 0 <= i < |g.nodes| && g.nodes[i].active :: forall x | x in g.nodes[i].inputs ::
      x < |g.nodes| && g.nodes[x].active
  }

  predicate Scheduled(g: Graph, order: seq<nat>)
  {
    Runnable(g, order) && Respects(g, {}, order) && Distinct(order) && forall k | 0 <= k < |order| ::
      g.nodes[order[k]].active
  }

  lemma ScheduledFront(g: Graph, order: seq<nat>)
    requires Scheduled(g, order) && order != []
    ensures Scheduled(g, Front(order)) && Last(order) !in Elements(Front(order))
    ensures Elements(order) == Elements(Front(order)) + {Last(order)}
    ensures ActiveClosed(g) ==> forall x | x in g.nodes[Last(order)].inputs :: x in Elements(Front(order))
  {
    var front := Front(order);
    forall k | 0 <= k < |front|
      ensures ProducersDone(g, {} + Elements(front[..k]), front[k])
    {
      assert front[..k] == order[..k];
      assert ProducersDone(g, {} + Elements(order[..k]), order[k]);
    }
    assert ProducersDone(g, {} + Elements(order[..|order| - 1]), order[|order| - 1]);
    assert order == front + [Last(order)];
    assert forall i | 0 <= i < |front| :: front[i] != Last(order);
    forall x | x in front
      ensures x in order
    {
    }
  }

  /** What the two executions of a schedule prefix share. */
  ghost predicate Together(g: Graph, inputs: map<string, Tensor>, state: Programs.Env, v: Programs.Valuation,
                           order: seq<nat>,
                           graphRun: Outcome<Progress>, programRun: Outcome<Programs.Env>)
  {
    match graphRun
    case Ok(p) =>
      && programRun.Ok? && p.values.Keys == Elements(order) && Subsumes(p.symbols, v)
      && Mirrors(g, inputs, state, p, programRun.value)
    case _ => programRun.Failed?
  }

  lemma FreshName(m: Module, inputs: map<string, Tensor>, id: nat)
    requires BuilderMade(m.graph) && inputs.Keys == m.graph.inputs.Keys && id < |m.graph.nodes|
    requires !m.graph.nodes[id].op.Input?
    ensures m.graph.nodes[id].name !in inputs && m.graph.nodes[id].name !in StateOf(m)
    ensures forall i | 0 <= i < |m.graph.nodes| && i != id :: m.graph.nodes[i].name != m.graph.nodes[id].name
  {
    StateHolds(m, |m.graph.nodes|, 0);
    assert ValidNode(m.graph.nodes, id);
    forall i | 0 <= i < |m.graph.nodes| && i != id
      ensures m.graph.nodes[i].name != m.graph.nodes[id].name
    {
      if i < id {
        assert DistinctNodeNames(m.graph.nodes);
      }
    }
  }

  lemma MirrorsNext(m: Module, inputs: map<string, Tensor>, p: Progress, env: Programs.Env, id: nat, value: Tensor)
    requires BuilderMade(m.graph) && inputs.Keys == m.graph.inputs.Keys && id < |m.graph.nodes|
    requires !m.graph.nodes[id].op.Input?
    requires Mirrors(m.graph, inputs, StateOf(m), p, env)
    ensures Mirrors(m.graph, inputs, StateOf(m), Progress(p.symbols, p.values[id := value]),
                    env[m.graph.nodes[id].name := value])
  {
    var q, e := Progress(p.symbols, p.values[id := value]), env[m.graph.nodes[id].name := value];
    FreshName(m, inputs, id);
    forall x | x in q.values
      ensures MirrorsAt(m.graph, q, e, x)
    {
      if x != id {
        assert MirrorsAt(m.graph, p, env, x);
      }
    }
  }

  lemma InputMirrors(m: Module, inputs: map<string, Tensor>, p: Progress, q: Progress, env: Programs.Env, id: nat)
    requires id < |m.graph.nodes| && m.graph.nodes[id].name in inputs
    requires Mirrors(m.graph, inputs, StateOf(m), p, env) && q.values == p.values[id := inputs[m.graph.nodes[id].name]]
    ensures Mirrors(m.graph, inputs, StateOf(m), q, env)
  {
    forall x | x in q.values
      ensures MirrorsAt(m.graph, q, env, x)
    {
      if x != id {
        assert MirrorsAt(m.graph, p, env, x);
      }
    }
  }

  lemma InputStep(k: Kernels, m: Module, inputs: map<string, Tensor>, v: Programs.Valuation, p: Progress,
                  env: Programs.Env, id: nat)
    requires BuilderMade(m.graph) && inputs.Keys == m.graph.inputs.Keys && id < |m.graph.nodes|
    requires m.graph.nodes[id].op.Input?
    requires ValidNode(m.graph.nodes, id) && Guarded(m.graph, inputs, v, m.graph.nodes[id].name)
    requires Mirrors(m.graph, inputs, StateOf(m), p, env) && Subsumes(p.symbols, v)
    ensures var r := ExecuteNode(k, m.graph, m.linears, inputs, p, id);
      r.Ok? && r.value.values.Keys == p.values.Keys + {id} && Subsumes(r.value.symbols, v) &&
      Mirrors(m.graph, inputs, StateOf(m), r.value, env)
  {
    var name := m.graph.nodes[id].name;
    assert m.graph.inputs[name] == id;
    InputAccepted(m.graph, inputs, v, name, p.symbols);
    InputMirrors(m, inputs, p, ExecuteNode(k, m.graph, m.linears, inputs, p, id).value, env, id);
  }

  lemma {:induction false} RunMirrored(k: Kernels, m: Module, inputs: map<string, Tensor>, v: Programs.Valuation,
                                       env: Programs.Env, order: seq<nat>)
    requires BuilderMade(m.graph) && Allocated(m) && ActiveClosed(m.graph) && inputs.Keys == m.graph.inputs.Keys
    requires Scheduled(m.graph, order) && LowerOver(m.graph, order).Some?
    requires forall n | n in inputs :: n in env && env[n] == inputs[n] && Guarded(m.graph, inputs, v, n)
    requires forall n | n in StateOf(m) :: n in env && env[n] == StateOf(m)[n]
    ensures Together(m.graph, inputs, StateOf(m), v, order, ExecuteOver(k, m.graph, m.linears, inputs, order),
                     RunOps(k, LowerOver(m.graph, order).value, env, StateOf(m)))
  {
    if order != [] {
      var front, id := Front(order), Last(order);
      ScheduledFront(m.graph, order);
      RunMirrored(k, m, inputs, v, env, front);
      NextMirrored(k, m, inputs, v, env, order);
    }
  }

  lemma OperationStep(k: Kernels, m: Module, inputs: map<string, Tensor>, v: Programs.Valuation, p: Progress,
                      env: Programs.Env, id: nat)
    requires BuilderMade(m.graph) && Allocated(m) && inputs.Keys == m.graph.inputs.Keys
    requires id < |m.graph.nodes| && m.graph.nodes[id].active && ValidNode(m.graph.nodes, id)
    requires !m.graph.nodes[id].op.Input? && LowerNode(m.graph, id).Some?
    requires Mirrors(m.graph, inputs, StateOf(m), p, env) && Supplied(m.graph, id, p) && Subsumes(p.symbols, v)
    ensures var r := ExecuteNode(k, m.graph, m.linears, inputs, p, id);
      var t := Programs.Advance(k, LowerNode(m.graph, id).value, env, StateOf(m));
      if r.Ok? then t.Ok? && r.value.values.Keys == p.values.Keys + {id} && Subsumes(r.value.symbols, v) &&
                    Mirrors(m.graph, inputs, StateOf(m), r.value, t.value)
      else t.Failed?
  {
    StepMirrored(k, m, inputs, p, env, id);
    var r := ExecuteNode(k, m.graph, m.linears, inputs, p, id);
    if r.Ok? {
      MirrorsNext(m, inputs, p, env, id, r.value.values[id]);
      assert r.value == Progress(p.symbols, p.values[id := r.value.values[id]]);
    }
  }

  lemma InputMirrored(k: Kernels, m: Module, inputs: map<string, Tensor>, v: Programs.Valuation, env: Programs.Env,
                      order: seq<nat>)
    requires BuilderMade(m.graph) && Allocated(m) && ActiveClosed(m.graph) && inputs.Keys == m.graph.inputs.Keys
    requires Scheduled(m.graph, order) && order != [] && Runnable(m.graph, Front(order))
    requires LowerOver(m.graph, order).Some? && m.graph.nodes[Last(order)].op.Input?
    requires forall n | n in inputs :: Guarded(m.graph, inputs, v, n)
    requires Together(m.graph, inputs, StateOf(m), v, Front(order),
                      ExecuteOver(k, m.graph, m.linears, inputs, Front(order)),
                      RunOps(k, LowerOver(m.graph, Front(order)).value, env, StateOf(m)))
    ensures Together(m.graph, inputs, StateOf(m), v, order, ExecuteOver(k, m.graph, m.linears, inputs, order),
                     RunOps(k, LowerOver(m.graph, order).value, env, StateOf(m)))
  {
    var g, front, id := m.graph, Front(order), Last(order);
    ScheduledFront(g, order);
    var before := ExecuteOver(k, g, m.linears, inputs, front);
    if before.Ok? {
      InputStep(k, m, inputs, v, before.value, RunOps(k, LowerOver(g, front).value, env, StateOf(m)).value, id);
    }
  }

  lemma OperationMirrored(k: Kernels, m: Module, inputs: map<string, Tensor>, v: Programs.Valuation, env: Programs.Env,
                          order: seq<nat>)
    requires BuilderMade(m.graph) && Allocated(m) && ActiveClosed(m.graph) && inputs.Keys == m.graph.inputs.Keys
    requires Scheduled(m.graph, order) && order != [] && Runnable(m.graph, Front(order))
    requires LowerOver(m.graph, order).Some? && !m.graph.nodes[Last(order)].op.Input?
    requires forall n | n in inputs :: Guarded(m.graph, inputs, v, n)
    requires Together(m.graph, inputs, StateOf(m), v, Front(order),
                      ExecuteOver(k, m.graph, m.linears, inputs, Front(order)),
                      RunOps(k, LowerOver(m.graph, Front(order)).value, env, StateOf(m)))
    ensures Together(m.graph, inputs, StateOf(m), v, order, ExecuteOver(k, m.graph, m.linears, inputs, order),
                     RunOps(k, LowerOver(m.graph, order).value, env, StateOf(m)))
  {
    var g, front, id := m.graph, Front(order), Last(order);
    ScheduledFront(g, order);
    var before := ExecuteOver(k, g, m.linears, inputs, front);
    var ops, all := LowerOver(g, front).value, LowerOver(g, order).value;
    assert Front(all) == ops && Last(all) == LowerNode(g, id).value;
    if before.Ok? {
      OperationStep(k, m, inputs, v, before.value, RunOps(k, ops, env, StateOf(m)).value, id);
    }
  }

  lemma NextMirrored(k: Kernels, m: Module, inputs: map<string, Tensor>, v: Programs.Valuation, env: Programs.Env,
                     order: seq<nat>)
    requires BuilderMade(m.graph) && Allocated(m) && ActiveClosed(m.graph) && inputs.Keys == m.graph.inputs.Keys
    requires Scheduled(m.graph, order) && order != [] && Runnable(m.graph, Front(order))
    requires LowerOver(m.graph, order).Some?
    requires forall n | n in inputs :: Guarded(m.graph, inputs, v, n)
    requires Together(m.graph, inputs, StateOf(m), v, Front(order),
                      ExecuteOver(k, m.graph, m.linears, inputs, Front(order)),
                      RunOps(k, LowerOver(m.graph, Front(order)).value, env, StateOf(m)))
    ensures Together(m.graph, inputs, StateOf(m), v, order, ExecuteOver(k, m.graph, m.linears, inputs, order),
                     RunOps(k, LowerOver(m.graph, order).value, env, StateOf(m)))
  {
    if m.graph.nodes[Last(order)].op.Input? {
      InputMirrored(k, m, inputs, v, env, order);
    } else {
      OperationMirrored(k, m, inputs, v, env, order);
    }
  }

  // ---- the theorem ----

  /** The inputs as the program takes them: by name order. */
  function InOrder(inputs: map<string, Tensor>, names: seq<string>): (r: seq<Tensor>)
    requires forall i | 0 <= i < |names| :: names[i] in inputs
    ensures |r| == |names|
  {
    seq(|names|, i requires 0 <= i < |names| => inputs[names[i]])
  }

  lemma {:induction false} SpecNamesLowered(g: Graph, names: seq<string>)
    requires InputsInRange(g, names) && LowerInputs(g, names).Some?
    ensures forall i | 0 <= i < |names| :: LowerInputs(g, names).value[i].name == names[i]
  {
    if names != [] {
      SpecNamesLowered(g, Front(names));
    }
  }

  /** The environment after the header holds the inputs and the state. */
  lemma HeaderBound(m: Module, inputs: map<string, Tensor>, specs: seq<Programs.ValueSpec>, names: seq<string>)
    requires BuilderMade(m.graph) && inputs.Keys == m.graph.inputs.Keys && Members(names) == inputs.Keys
    requires Names.Ascending(names)
    requires InputsInRange(m.graph, names) && LowerInputs(m.graph, names) == Some(specs)
    requires forall i | 0 <= i < |names| :: names[i] in inputs
    ensures var env := Programs.Bind(StateOf(m), specs, InOrder(inputs, names));
      (forall n | n in inputs :: n in env && env[n] == inputs[n]) &&
      (forall n | n in StateOf(m) :: n in env && env[n] == StateOf(m)[n])
  {
    SpecNamesLowered(m.graph, names);
    forall i, j | 0 <= i < j < |specs|
      ensures specs[i].name != specs[j].name
    {
      AscendingDistinct(names, i, j);
    }
    forall x | x in Validation.NameSet(specs)
      ensures x !in StateOf(m)
    {
      var i := Validation.NameSetMembers(specs, x);
      StateHolds(m, |m.graph.nodes|, 0);
      assert ValidNode(m.graph.nodes, m.graph.inputs[names[i]]);
    }
    Validation.BindKeys(StateOf(m), specs, InOrder(inputs, names));
    forall n | n in inputs
      ensures n in Programs.Bind(StateOf(m), specs, InOrder(inputs, names)) &&
        Programs.Bind(StateOf(m), specs, InOrder(inputs, names))[n] == inputs[n]
    {
      assert n in Members(names);
      var i :| 0 <= i < |names| && names[i] == n;
      assert specs[i].name == n;
    }
  }

  lemma InputsGuarded(m: Module, inputs: map<string, Tensor>, specs: seq<Programs.ValueSpec>, names: seq<string>,
                      v: Programs.Valuation, n: string)
    requires inputs.Keys == m.graph.inputs.Keys && Members(names) == inputs.Keys && n in inputs
    requires InputsInRange(m.graph, names) && LowerInputs(m.graph, names) == Some(specs)
    requires forall i | 0 <= i < |names| :: names[i] in inputs
    requires Programs.Accepted(specs, InOrder(inputs, names), v)
    ensures Guarded(m.graph, inputs, v, n)
  {
    assert n in Members(names);
    var i :| 0 <= i < |names| && names[i] == n;
    assert LowerInput(m.graph, names[i]) == Some(specs[i]);
    assert InOrder(inputs, names)[i].dtype == specs[i].dtype;
  }

  lemma {:induction false} EntryLeaves(entries: seq<Programs.Entry>, depth: nat, found: seq<string>)
    requires forall i | 0 <= i < |entries| :: entries[i].tree.Leaf?
    requires Programs.WalkEntries(entries, depth, found).Some?
    ensures Programs.WalkEntries(entries, depth, found).value ==
      found + seq(|entries|, i requires 0 <= i < |entries| => entries[i].tree.name)
  {
    if entries != [] {
      EntryLeaves(entries[1..], depth, found + [entries[0].tree.name]);
    } else {
      assert found + [] == found;
    }
  }

  lemma ScheduleScheduled(g: Graph)
    requires Validates(g)
    ensures Scheduled(g, Schedule(g, {}))
    ensures forall name | name in g.outputs :: g.outputs[name] in Elements(Schedule(g, {}))
  {
    var order := Schedule(g, {});
    ScheduleRunnable(g);
    ScheduleRespects(g, {});
    ScheduleDistinct(g, {});
    ScheduleWithin(g, {});
    ReachableClosed(g, order);
    forall i | 0 <= i < |order|
      ensures g.nodes[order[i]].active
    {
      assert order[i] in Elements(order);
    }
  }

  /** Outputs in name order. */
  function Listed(out: map<string, Tensor>, names: seq<string>): (r: seq<Tensor>)
    requires forall i | 0 <= i < |names| :: names[i] in out
  {
    seq(|names|, i requires 0 <= i < |names| => out[names[i]])
  }

  lemma NamedLeaves(entries: seq<Programs.Entry>, names: seq<string>)
    requires Programs.Leaves(Programs.Dict(entries)).Some? && |entries| == |names|
    requires forall i | 0 <= i < |entries| :: entries[i].tree == Programs.Leaf(names[i])
    ensures Programs.Leaves(Programs.Dict(entries)) == Some(names)
  {
    assert Programs.Leaves(Programs.Dict(entries)) == Programs.WalkEntries(entries, 1, []);
    EntryLeaves(entries, 1, []);
    assert [] + seq(|entries|, i requires 0 <= i < |entries| => entries[i].tree.name) == names;
  }

  lemma LoweredTree(m: Module)
    requires BuilderMade(m.graph) && FromGraph(m).Some?
    ensures forall i | 0 <= i < |OutputNames(m.graph)| :: OutputNames(m.graph)[i] in m.graph.outputs
    ensures FromGraph(m).value.0.outputTree == Programs.Dict(OutputEntries(m.graph, OutputNames(m.graph)))
    ensures Programs.Leaves(FromGraph(m).value.0.outputTree).Some?
  {
    MembersIn(m.graph.outputs.Keys, OutputNames(m.graph));
  }

  /** The program's leaves are the output names in order. */
  lemma LoweredLeaves(m: Module)
    requires BuilderMade(m.graph) && FromGraph(m).Some?
    ensures Programs.Leaves(FromGraph(m).value.0.outputTree) == Some(OutputNames(m.graph))
  {
    LoweredTree(m);
    OutputsNamed(m.graph);
    NamedLeaves(OutputEntries(m.graph, OutputNames(m.graph)), OutputNames(m.graph));
  }

  lemma OutputsNamed(g: Graph)
    requires BuilderMade(g) && forall i | 0 <= i < |OutputNames(g)| :: OutputNames(g)[i] in g.outputs
    ensures forall i | 0 <= i < |OutputNames(g)| ::
      OutputEntries(g, OutputNames(g))[i].tree == Programs.Leaf(OutputNames(g)[i])
  {
  }

  lemma OutputsMirrored(m: Module, inputs: map<string, Tensor>, p: Progress, env: Programs.Env)
    requires BuilderMade(m.graph) && Mirrors(m.graph, inputs, StateOf(m), p, env)
    requires forall name | name in m.graph.outputs :: m.graph.outputs[name] in p.values
    ensures Collect(m.graph, p.values).Ok? && Programs.Bound(env, OutputNames(m.graph))
    ensures (forall i | 0 <= i < |OutputNames(m.graph)| ::
             OutputNames(m.graph)[i] in Collect(m.graph, p.values).value) &&
      Programs.Lookup(env, OutputNames(m.graph)) == Listed(Collect(m.graph, p.values).value, OutputNames(m.graph))
  {
    var g, names := m.graph, OutputNames(m.graph);
    MembersIn(g.outputs.Keys, names);
    forall i | 0 <= i < |names|
      ensures names[i] in env && env[names[i]] == p.values[g.outputs[names[i]]]
    {
      assert MirrorsAt(g, p, env, g.outputs[names[i]]);
    }
  }

  lemma TranslatedParts(m: Module)
    requires BuilderMade(m.graph) && FromGraph(m).Some? && Runnable(m.graph, Schedule(m.graph, {}))
    ensures FromGraph(m).value.1 == StateOf(m) && InputsInRange(m.graph, InputNames(m.graph))
    ensures LowerInputs(m.graph, InputNames(m.graph)) == Some(FromGraph(m).value.0.inputs)
    ensures LowerOver(m.graph, Schedule(m.graph, {})) == Some(FromGraph(m).value.0.operations)
  {
    MembersIn(m.graph.inputs.Keys, InputNames(m.graph));
  }

  lemma AllGuarded(m: Module, inputs: map<string, Tensor>, specs: seq<Programs.ValueSpec>, names: seq<string>,
                   v: Programs.Valuation)
    requires inputs.Keys == m.graph.inputs.Keys && Members(names) == inputs.Keys
    requires InputsInRange(m.graph, names) && LowerInputs(m.graph, names) == Some(specs)
    requires forall i | 0 <= i < |names| :: names[i] in inputs
    requires Programs.CheckInputs(specs, InOrder(inputs, names)) == Some(v)
    ensures forall n | n in inputs :: Guarded(m.graph, inputs, v, n)
  {
    Programs.GuardsAreExact(specs, InOrder(inputs, names));
    forall n | n in inputs
      ensures Guarded(m.graph, inputs, v, n)
    {
      InputsGuarded(m, inputs, specs, names, v, n);
    }
  }

  /** The two complete runs correspond. */
  lemma BoundRunMirrored(k: Kernels, m: Module, specs: seq<Programs.ValueSpec>, inputs: map<string, Tensor>,
                         names: seq<string>,
                         v: Programs.Valuation, order: seq<nat>)
    requires BuilderMade(m.graph) && Allocated(m) && ActiveClosed(m.graph)
    requires inputs.Keys == m.graph.inputs.Keys && Members(names) == inputs.Keys && Names.Ascending(names)
    requires InputsInRange(m.graph, names) && LowerInputs(m.graph, names) == Some(specs)
    requires Scheduled(m.graph, order) && LowerOver(m.graph, order).Some?
    requires forall i | 0 <= i < |names| :: names[i] in inputs
    requires Programs.CheckInputs(specs, InOrder(inputs, names)) == Some(v)
    ensures Together(m.graph, inputs, StateOf(m), v, order, ExecuteOver(k, m.graph, m.linears, inputs, order),
                     RunOps(k, LowerOver(m.graph, order).value, Programs.Bind(StateOf(m), specs,
                         InOrder(inputs, names)), StateOf(m)))
  {
    AllGuarded(m, inputs, specs, names, v);
    HeaderBound(m, inputs, specs, names);
    RunMirrored(k, m, inputs, v, Programs.Bind(StateOf(m), specs, InOrder(inputs, names)), order);
  }

  lemma TranslatedMirrors(k: Kernels, m: Module, inputs: map<string, Tensor>)
    requires BuilderMade(m.graph) && Allocated(m) && ActiveClosed(m.graph) && Validates(m.graph) && FromGraph(m).Some?
    requires inputs.Keys == m.graph.inputs.Keys
    requires forall i | 0 <= i < |InputNames(m.graph)| :: InputNames(m.graph)[i] in inputs
    requires Programs.CheckInputs(FromGraph(m).value.0.inputs, InOrder(inputs, InputNames(m.graph))).Some?
    ensures Runnable(m.graph, Schedule(m.graph, {})) && FromGraph(m).value.1 == StateOf(m)
    ensures var p, ordered := FromGraph(m).value.0, InOrder(inputs, InputNames(m.graph));
      Together(m.graph, inputs, StateOf(m), Programs.CheckInputs(p.inputs, ordered).value, Schedule(m.graph, {}),
               ExecuteOver(k, m.graph, m.linears, inputs, Schedule(m.graph, {})),
               Programs.RunTo(k, p, ordered, StateOf(m), |p.operations|))
  {
    var g, p := m.graph, FromGraph(m).value.0;
    ScheduleScheduled(g);
    TranslatedParts(m);
    BoundRunMirrored(k, m, p.inputs, inputs, InputNames(g),
                     Programs.CheckInputs(p.inputs, InOrder(inputs, InputNames(g))).value, Schedule(g, {}));
    RunIsRunOps(k, p, InOrder(inputs, InputNames(g)), StateOf(m));
  }

  /** Running the lowered program on guarded inputs is evaluating the graph:
      the same outputs in the same name order, or an error in both. */
  lemma LoweringCorrect(k: Kernels, m: Module, inputs: map<string, Tensor>)
    requires BuilderMade(m.graph) && Allocated(m) && ActiveClosed(m.graph) && Validates(m.graph) && FromGraph(m).Some?
    requires inputs.Keys == m.graph.inputs.Keys
    requires forall i | 0 <= i < |InputNames(m.graph)| :: InputNames(m.graph)[i] in inputs
    requires Programs.CheckInputs(FromGraph(m).value.0.inputs, InOrder(inputs, InputNames(m.graph))).Some?
    ensures var r := Programs.Execute(k, FromGraph(m).value.0, InOrder(inputs, InputNames(m.graph)),
                                      FromGraph(m).value.1);
      match Execute(k, m.graph, m.linears, inputs)
      case Ok(out) => (forall i | 0 <= i < |OutputNames(m.graph)| :: OutputNames(m.graph)[i] in out) &&
        r == Ok(Listed(out, OutputNames(m.graph)))
      case _ => r.Failed?
  {
    var g, p := m.graph, FromGraph(m).value.0;
    ScheduleScheduled(g);
    TranslatedMirrors(k, m, inputs);
    LoweredLeaves(m);
    var run := ExecuteOver(k, g, m.linears, inputs, Schedule(g, {}));
    if run.Ok? {
      OutputsMirrored(m, inputs, run.value,
                      Programs.RunTo(k, p, InOrder(inputs, InputNames(g)), StateOf(m), |p.operations|).value);
    }
  }
}
