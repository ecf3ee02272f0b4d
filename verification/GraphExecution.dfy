/** Graph validation and evaluation-mode execution (src/graph/mod.rs), and what
    dead-node elimination keeps of them. */
module GraphExecution {
  import opened Wrappers
  import opened Tensors
  import Programs
  import opened Graphs
  import opened DeadNodes

  // ---- validation ----

  predicate ValidNodeName(name: string)
  {
    name != "" && '.' !in name && '/' !in name
  }

  predicate ValidDim(d: Dim)
  {
    match d
    case Known(n) => n >= 0
    case Symbol(s) => s != ""
    case Dynamic => true
  }

  predicate ValidTensorSpec(s: TensorSpec)
  {
    s.dimensions.Some? ==>
      (s.rank.Some? ==> s.rank.value == |s.dimensions.value|) && forall d | d in s.dimensions.value :: ValidDim(d)
  }

  predicate ArityFits(op: GraphOp, n: nat)
  {
    match op
    case Input => n == 0
    case Add => n == 2
    case Subtract => n == 2
    case Multiply => n == 2
    case MseLoss => n == 2
    case CrossEntropyLoss => n == 2
    case Concatenate(_) => n > 0
    case _ => n == 1
  }

  predicate ValidNode(nodes: seq<Node>, i: nat)
    requires i < |nodes|
  {
    && ValidNodeName(nodes[i].name) && ValidTensorSpec(nodes[i].spec) && ArityFits(nodes[i].op, |nodes[i].inputs|)
    && (forall x | x in nodes[i].inputs :: x < |nodes|)
    && (nodes[i].op.Dropout? ==> 0.0 <= nodes[i].op.probability <= 1.0)
  }

  predicate DistinctNodeNames(nodes: seq<Node>)
  {
    forall i, j | 0 <= i < j < |nodes| :: nodes[i].name != nodes[j].name
  }

  predicate InRange(g: Graph, order: seq<nat>)
  {
    forall k | 0 <= k < |order| :: order[k] < |g.nodes|
  }

  /** Values producible from graph inputs, following the schedule. */
  function Reachable(g: Graph, order: seq<nat>): set<nat>
    requires InRange(g, order)
  {
    if order == [] then {}
    else
      var before, n := Reachable(g, Front(order)), Last(order);
      if g.nodes[n].op.Input? || forall x | x in g.nodes[n].inputs :: x in before then before + {n} else before
  }

  predicate ValidHeader(g: Graph)
  {
    && g.outputs != map[] && DistinctNodeNames(g.nodes)
    && (forall i | 0 <= i < |g.nodes| :: ValidNode(g.nodes, i))
    && forall name | name in g.outputs :: g.outputs[name] < |g.nodes|
  }

  lemma ScheduleInRange(g: Graph)
    ensures InRange(g, Schedule(g, {}))
  {
    ScheduleWithin(g, {});
    var order := Schedule(g, {});
    forall k | 0 <= k < |order|
      ensures order[k] < |g.nodes|
    {
      assert order[k] in Elements(order);
    }
  }

  /** `Graph::validate`. */
  predicate Validates(g: Graph)
  {
    ScheduleInRange(g);
    && ValidHeader(g) && TopologicalOrder(g).Some?
    && forall name | name in g.outputs :: g.outputs[name] in Reachable(g, Schedule(g, {}))
  }

  // ---- execution ----

  type Symbols = map<string, nat>

  /** Parameters of the linear nodes. */
  datatype Weights = Weights(weight: Tensor, bias: Option<Tensor>)

  type Linears = map<nat, Weights>

  datatype Progress = Progress(symbols: Symbols, values: map<nat, Tensor>)

  function CheckDims(dims: seq<Dim>, shape: seq<nat>, symbols: Symbols): Option<Symbols>
    requires |dims| == |shape|
  {
    if dims == [] then Some(symbols)
    else
      var before := CheckDims(Front(dims), Front(shape), symbols);
      if before.None? then None
      else
        match Last(dims)
        case Known(n) => if n == Last(shape) then before else None
        case Dynamic => before
        case Symbol(s) =>
          if s in before.value then if before.value[s] == Last(shape) then before else None
          else Some(before.value[s := Last(shape)])
  }

  /** `validate_runtime_spec`, devices aside. */
  function CheckSpec(t: Tensor, s: TensorSpec, symbols: Symbols): Option<Symbols>
  {
    if s.kind.Some? && t.dtype != s.kind.value then None
    else if RankValue(s).Some? && |t.shape| != RankValue(s).value then None
    else if s.dimensions.Some? then CheckDims(s.dimensions.value, t.shape, symbols)
    else Some(symbols)
  }

  /** `functional::linear`: explicit checks, then the kernel. */
  function ApplyLinear(k: Kernels, x: Tensor, w: Weights): Outcome<Tensor>
  {
    if |w.weight.shape| != 2 || x.shape == [] || Last(x.shape) != w.weight.shape[1] then Failed
    else if w.bias.Some? && w.bias.value.shape != [w.weight.shape[0]] then Failed
    else Programs.Apply(k, Programs.Linear, [x, w.weight] + if w.bias.Some? then [w.bias.value] else [])
  }

  function Scalar(dtype: DType, value: Option<Cell>): Outcome<Tensor>
  {
    if value.Some? then Ok(Build(dtype, [], _ => value.value)) else Failed
  }

  /** One node other than an input, in evaluation mode. */
  function ApplyNode(k: Kernels, node: Node, params: Option<Weights>, xs: seq<Tensor>): Outcome<Tensor>
    requires ArityFits(node.op, |xs|) && !node.op.Input?
  {
    match node.op
    case Output => Ok(xs[0])
    case Identity => Ok(xs[0])
    case Dropout(_) => Ok(xs[0])
    case Linear(_, _, _) => if params.Some? then ApplyLinear(k, xs[0], params.value) else Failed
    case ReLU => Programs.Apply(k, Programs.Relu, xs)
    case Gelu =>
      var kind := k.floating(xs[0].dtype);
      if kind.None? then Failed else Ok(Build(kind.value, xs[0].shape,
                                              index => k.gelu(kind.value, ValueAt(xs[0], index))))
    case Flatten(start, end) => Programs.Apply(k, Programs.Flatten(start, end), xs)
    case Add => Programs.Apply(k, Programs.Add, xs)
    case Subtract => Programs.Apply(k, Programs.Subtract, xs)
    case Multiply => Programs.Apply(k, Programs.Multiply, xs)
    case Concatenate(dim) => Programs.Apply(k, Programs.Cat(dim), xs)
    case MseLoss => Scalar(xs[0].dtype, k.mse(xs[0], xs[1]))
    case CrossEntropyLoss => Scalar(xs[0].dtype, k.crossEntropy(xs[0], xs[1]))
  }

  function Operands(node: Node, values: map<nat, Tensor>): Option<seq<Tensor>>
  {
    if exists x | x in node.inputs :: x !in values then None
    else Some(seq(|node.inputs|, i requires 0 <= i < |node.inputs| => values[node.inputs[i]]))
  }

  function ParametersOf(linears: Linears, id: nat): Option<Weights>
  {
    if id in linears then Some(linears[id]) else None
  }

  /** One step of the executor's loop. */
  function ExecuteNode(k: Kernels, g: Graph, linears: Linears, inputs: map<string, Tensor>, p: Progress,
                       id: nat): Outcome<Progress>
    requires id < |g.nodes| && ValidNode(g.nodes, id)
  {
    var node := g.nodes[id];
    if node.op.Input? then
      if node.name !in inputs then Failed
      else
        var symbols := CheckSpec(inputs[node.name], node.spec, p.symbols);
        if symbols.None? then Failed
        else Ok(Progress(symbols.value, p.values[id := inputs[node.name]]))
    else
      var xs := Operands(node, p.values);
      if xs.None? then Failed
      else
        match ApplyNode(k, node, ParametersOf(linears, id), xs.value)
        case Ok(value) => Ok(Progress(p.symbols, p.values[id := value]))
        case _ => Failed
  }

  predicate Runnable(g: Graph, order: seq<nat>)
  {
    forall i | 0 <= i < |order| :: order[i] < |g.nodes| && ValidNode(g.nodes, order[i])
  }

  function ExecuteOver(k: Kernels, g: Graph, linears: Linears, inputs: map<string, Tensor>,
                       order: seq<nat>): Outcome<Progress>
    requires Runnable(g, order)
  {
    if order == [] then Ok(Progress(map[], map[]))
    else
      match ExecuteOver(k, g, linears, inputs, Front(order))
      case Ok(p) => ExecuteNode(k, g, linears, inputs, p, Last(order))
      case _ => Failed
  }

  function Collect(g: Graph, values: map<nat, Tensor>): Outcome<map<string, Tensor>>
  {
    if exists name | name in g.outputs :: g.outputs[name] !in values then Failed
    else Ok(map name | name in g.outputs :: values[g.outputs[name]])
  }

  lemma ScheduleRunnable(g: Graph)
    requires Validates(g)
    ensures Runnable(g, Schedule(g, {}))
  {
    ScheduleInRange(g);
  }

  /** The executor: validation, exact input names, the nodes in order, the outputs by name. */
  function Execute(k: Kernels, g: Graph, linears: Linears, inputs: map<string, Tensor>): Outcome<map<string, Tensor>>
  {
    if !Validates(g) || inputs.Keys != g.inputs.Keys then Failed
    else
      ScheduleRunnable(g);
      match ExecuteOver(k, g, linears, inputs, Schedule(g, {}))
      case Ok(p) => Collect(g, p.values)
      case _ => Failed
  }

  /** The executor's loop. */
  method ExecuteLoop(k: Kernels, g: Graph, linears: Linears,
                     inputs: map<string, Tensor>) returns (r: Outcome<map<string, Tensor>>)
    ensures r == Execute(k, g, linears, inputs)
  {
    if !Validates(g) || inputs.Keys != g.inputs.Keys {
      return Failed;
    }
    ScheduleRunnable(g);
    var order := Schedule(g, {});
    r := ExecuteNodes(k, g, linears, inputs, order);
  }

  /** The nodes in order, then the outputs. */
  method ExecuteNodes(k: Kernels, g: Graph, linears: Linears, inputs: map<string, Tensor>, order: seq<nat>)
    returns (r: Outcome<map<string, Tensor>>)
    requires Runnable(g, order)
    ensures var run := ExecuteOver(k, g, linears, inputs, order);
      r == if run.Ok? then Collect(g, run.value.values) else Failed
  {
    var p := Progress(map[], map[]);
    for i := 0 to |order|
      invariant Runnable(g, order[..i]) && ExecuteOver(k, g, linears, inputs, order[..i]) == Ok(p)
    {
      var next := ExecuteNode(k, g, linears, inputs, p, order[i]);
      assert Front(order[..i + 1]) == order[..i] && Last(order[..i + 1]) == order[i];
      assert Runnable(g, order[..i + 1]);
      if !next.Ok? {
        StopsForGood(k, g, linears, inputs, order, i + 1);
        assert order[..|order|] == order;
        return Failed;
      }
      p := next.value;
    }
    assert order[..|order|] == order;
    return Collect(g, p.values);
  }

  lemma {:induction false} StopsForGood(k: Kernels, g: Graph, linears: Linears, inputs: map<string, Tensor>,
                                        order: seq<nat>, i: nat)
    requires i <= |order| && Runnable(g, order) && Runnable(g, order[..i])
    requires !ExecuteOver(k, g, linears, inputs, order[..i]).Ok?
    ensures !ExecuteOver(k, g, linears, inputs, order).Ok?
    decreases |order| - i
  {
    if i < |order| {
      assert Front(order[..i + 1]) == order[..i];
      assert Runnable(g, order[..i + 1]);
      StopsForGood(k, g, linears, inputs, order, i + 1);
    } else {
      assert order[..i] == order;
    }
  }

  // ---- dead-node elimination preserves execution ----

  predicate Subsumes(a: Symbols, b: Symbols)
  {
    forall s | s in a :: s in b && b[s] == a[s]
  }

  lemma {:induction false} CheckDimsWithFewer(dims: seq<Dim>, shape: seq<nat>, few: Symbols, many: Symbols)
    requires |dims| == |shape| && Subsumes(few, many) && CheckDims(dims, shape, many).Some?
    ensures CheckDims(dims, shape, few).Some?
    ensures Subsumes(CheckDims(dims, shape, few).value, CheckDims(dims, shape, many).value)
    ensures Subsumes(many, CheckDims(dims, shape, many).value)
  {
    if dims != [] {
      CheckDimsWithFewer(Front(dims), Front(shape), few, many);
    }
  }

  lemma CheckSpecWithFewer(t: Tensor, s: TensorSpec, few: Symbols, many: Symbols)
    requires Subsumes(few, many) && CheckSpec(t, s, many).Some?
    ensures CheckSpec(t, s, few).Some?
    ensures Subsumes(CheckSpec(t, s, few).value, CheckSpec(t, s, many).value)
    ensures Subsumes(many, CheckSpec(t, s, many).value)
  {
    if s.dimensions.Some? {
      CheckDimsWithFewer(s.dimensions.value, t.shape, few, many);
    }
  }

  /** What the pruned run has computed: the kept values, under fewer bound symbols. */
  ghost predicate KeptPart(part: Progress, whole: Progress, keep: set<nat>)
  {
    && Subsumes(part.symbols, whole.symbols)
    && part.values.Keys == whole.values.Keys * keep
    && forall v | v in part.values :: part.values[v] == whole.values[v]
  }

  lemma {:induction false} FilterLast(order: seq<nat>, keep: set<nat>)
    requires order != []
    ensures Filter(order, keep) == Filter(Front(order), keep) + if Last(order) in keep then [Last(order)] else []
  {
    if |order| > 1 {
      FilterLast(order[1..], keep);
      assert Front(order)[1..] == Front(order[1..]) && Last(order) == Last(order[1..]);
      assert Front(order)[0] == order[0];
    } else {
      assert Front(order) == [] && order[1..] == [];
    }
  }

  lemma {:induction false} FilterRunnable(g: Graph, keep: set<nat>, order: seq<nat>)
    requires Runnable(g, order)
    ensures Runnable(Pruned(g, keep), Filter(order, keep))
  {
    if order != [] {
      var rest := order[1..];
      FilterRunnable(g, keep, rest);
      assert order[0] < |g.nodes| && ValidNode(g.nodes, order[0]);
    }
  }

  lemma SameOperands(g: Graph, keep: set<nat>, part: Progress, whole: Progress, id: nat)
    requires id < |g.nodes| && id in keep && Closed(g.nodes, keep) && KeptPart(part, whole, keep)
    requires Operands(g.nodes[id], whole.values).Some?
    ensures Operands(Pruned(g, keep).nodes[id], part.values) == Operands(g.nodes[id], whole.values)
  {
    var node := g.nodes[id];
    forall i | 0 <= i < |node.inputs|
      ensures node.inputs[i] in part.values && part.values[node.inputs[i]] == whole.values[node.inputs[i]]
    {
      assert node.inputs[i] in node.inputs;
    }
    var a, b := Operands(Pruned(g, keep).nodes[id], part.values), Operands(node, whole.values);
    assert a.value == b.value;
  }

  lemma InputKept(k: Kernels, g: Graph, linears: Linears, inputs: map<string, Tensor>, keep: set<nat>, part: Progress,
                  whole: Progress, id: nat)
    requires id < |g.nodes| && ValidNode(g.nodes, id) && ValidNode(Pruned(g, keep).nodes, id) && g.nodes[id].op.Input?
    requires KeptPart(part, whole, keep) && id in keep && ExecuteNode(k, g, linears, inputs, whole, id).Ok?
    ensures ExecuteNode(k, Pruned(g, keep), linears, inputs, part, id).Ok?
    ensures KeptPart(ExecuteNode(k, Pruned(g, keep), linears, inputs, part, id).value,
                     ExecuteNode(k, g, linears, inputs, whole, id).value, keep)
  {
    CheckSpecWithFewer(inputs[g.nodes[id].name], g.nodes[id].spec, part.symbols, whole.symbols);
  }

  lemma SameApplication(k: Kernels, a: Node, b: Node, params: Option<Weights>, xs: seq<Tensor>)
    requires a.op == b.op && ArityFits(a.op, |xs|) && !a.op.Input?
    ensures ApplyNode(k, a, params, xs) == ApplyNode(k, b, params, xs)
  {
  }

  lemma KeptUpdate(part: Progress, whole: Progress, keep: set<nat>, id: nat, value: Tensor)
    requires KeptPart(part, whole, keep) && id in keep
    ensures KeptPart(Progress(part.symbols, part.values[id := value]),
                     Progress(whole.symbols, whole.values[id := value]), keep)
  {
  }

  lemma OperationKept(k: Kernels, g: Graph, linears: Linears, inputs: map<string, Tensor>, keep: set<nat>,
                      part: Progress, whole: Progress, id: nat)
    requires id < |g.nodes| && ValidNode(g.nodes, id) && ValidNode(Pruned(g, keep).nodes, id) && !g.nodes[id].op.Input?
    requires Closed(g.nodes, keep) && KeptPart(part, whole, keep) && id in keep
    requires ExecuteNode(k, g, linears, inputs, whole, id).Ok?
    ensures ExecuteNode(k, Pruned(g, keep), linears, inputs, part, id).Ok?
    ensures KeptPart(ExecuteNode(k, Pruned(g, keep), linears, inputs, part, id).value,
                     ExecuteNode(k, g, linears, inputs, whole, id).value, keep)
  {
    SameOperands(g, keep, part, whole, id);
    SameApplication(k, g.nodes[id], Pruned(g, keep).nodes[id], ParametersOf(linears, id),
                    Operands(g.nodes[id], whole.values).value);
    KeptUpdate(part, whole, keep, id,
               ApplyNode(k, g.nodes[id], ParametersOf(linears, id), Operands(g.nodes[id], whole.values).value).value);
  }

  lemma NodeKept(k: Kernels, g: Graph, linears: Linears, inputs: map<string, Tensor>, keep: set<nat>, part: Progress,
                 whole: Progress, id: nat)
    requires id < |g.nodes| && ValidNode(g.nodes, id) && ValidNode(Pruned(g, keep).nodes, id)
    requires Closed(g.nodes, keep) && KeptPart(part, whole, keep) && id in keep
    requires ExecuteNode(k, g, linears, inputs, whole, id).Ok?
    ensures ExecuteNode(k, Pruned(g, keep), linears, inputs, part, id).Ok?
    ensures KeptPart(ExecuteNode(k, Pruned(g, keep), linears, inputs, part, id).value,
                     ExecuteNode(k, g, linears, inputs, whole, id).value, keep)
  {
    if g.nodes[id].op.Input? {
      InputKept(k, g, linears, inputs, keep, part, whole, id);
    } else {
      OperationKept(k, g, linears, inputs, keep, part, whole, id);
    }
  }

  lemma NodeDropped(k: Kernels, g: Graph, linears: Linears, inputs: map<string, Tensor>, keep: set<nat>,
                    part: Progress, whole: Progress, id: nat)
    requires id < |g.nodes| && ValidNode(g.nodes, id) && KeptPart(part, whole, keep) && id !in keep
    requires ExecuteNode(k, g, linears, inputs, whole, id).Ok?
    ensures KeptPart(part, ExecuteNode(k, g, linears, inputs, whole, id).value, keep)
  {
    if g.nodes[id].op.Input? {
      CheckSpecWithFewer(inputs[g.nodes[id].name], g.nodes[id].spec, part.symbols, whole.symbols);
    }
  }

  /** The last step of a successful run. */
  lemma OverLast(k: Kernels, g: Graph, linears: Linears, inputs: map<string, Tensor>, order: seq<nat>)
    requires Runnable(g, order) && order != [] && ExecuteOver(k, g, linears, inputs, order).Ok?
    ensures Runnable(g, Front(order)) && Last(order) < |g.nodes| && ValidNode(g.nodes, Last(order))
    ensures ExecuteOver(k, g, linears, inputs, Front(order)).Ok?
    ensures ExecuteOver(k, g, linears, inputs, order) ==
      ExecuteNode(k, g, linears, inputs, ExecuteOver(k, g, linears, inputs, Front(order)).value, Last(order))
  {
  }

  lemma OverAppend(k: Kernels, g: Graph, linears: Linears, inputs: map<string, Tensor>, front: seq<nat>, id: nat)
    requires Runnable(g, front) && Runnable(g, front + [id]) && ExecuteOver(k, g, linears, inputs, front).Ok?
    ensures id < |g.nodes| && ValidNode(g.nodes, id)
    ensures ExecuteOver(k, g, linears, inputs, front + [id]) ==
      ExecuteNode(k, g, linears, inputs, ExecuteOver(k, g, linears, inputs, front).value, id)
  {
    assert (front + [id])[|front|] == id;
    assert Front(front + [id]) == front && Last(front + [id]) == id;
  }

  lemma {:induction false} ExecuteFiltered(k: Kernels, g: Graph, linears: Linears, inputs: map<string, Tensor>,
                                           keep: set<nat>, order: seq<nat>)
    requires Runnable(g, order) && Closed(g.nodes, keep) && ExecuteOver(k, g, linears, inputs, order).Ok?
    requires Runnable(Pruned(g, keep), Filter(order, keep))
    ensures ExecuteOver(k, Pruned(g, keep), linears, inputs, Filter(order, keep)).Ok?
    ensures KeptPart(ExecuteOver(k, Pruned(g, keep), linears, inputs, Filter(order, keep)).value,
                     ExecuteOver(k, g, linears, inputs, order).value, keep)
  {
    if order == [] {
      assert Filter(order, keep) == [];
    } else {
      var front, id := Front(order), Last(order);
      FilterLast(order, keep);
      OverLast(k, g, linears, inputs, order);
      FilterRunnable(g, keep, front);
      ExecuteFiltered(k, g, linears, inputs, keep, front);
      var whole := ExecuteOver(k, g, linears, inputs, front).value;
      var part := ExecuteOver(k, Pruned(g, keep), linears, inputs, Filter(front, keep)).value;
      if id in keep {
        OverAppend(k, Pruned(g, keep), linears, inputs, Filter(front, keep), id);
        NodeKept(k, g, linears, inputs, keep, part, whole, id);
      } else {
        assert Filter(order, keep) == Filter(front, keep);
        NodeDropped(k, g, linears, inputs, keep, part, whole, id);
      }
    }
  }

  // ---- the pruned graph still validates ----

  lemma {:induction false} ReachableClosed(g: Graph, order: seq<nat>)
    requires Runnable(g, order)
    ensures Reachable(g, order) <= Elements(order) && Closed(g.nodes, Reachable(g, order))
  {
    if order != [] {
      ReachableClosed(g, Front(order));
      assert order == Front(order) + [Last(order)];
      ElementsAppend(Front(order), Last(order));
    }
  }

  lemma LiveIsActive(g: Graph, live: set<nat>)
    requires Validates(g) && IsLive(g.nodes, Targets(g.outputs), live)
    ensures ClosedKeep(g, live)
  {
    ScheduleRunnable(g);
    var reached := Reachable(g, Schedule(g, {}));
    ReachableClosed(g, Schedule(g, {}));
    ScheduleWithin(g, {});
    assert Targets(g.outputs) <= reached;
    assert live <= reached;
  }

  lemma {:induction false} FilterElements(order: seq<nat>, keep: set<nat>)
    ensures Elements(Filter(order, keep)) == Elements(order) * keep
  {
    if order != [] {
      FilterLast(order, keep);
      FilterElements(Front(order), keep);
      assert order == Front(order) + [Last(order)];
      ElementsAppend(Front(order), Last(order));
      if Last(order) in keep {
        ElementsAppend(Filter(Front(order), keep), Last(order));
      } else {
        assert Filter(order, keep) == Filter(Front(order), keep);
      }
    }
  }

  lemma ReachableLast(g: Graph, order: seq<nat>)
    requires InRange(g, order) && order != []
    ensures var before, n := Reachable(g, Front(order)), Last(order);
      Reachable(g, order) ==
      if g.nodes[n].op.Input? || forall x | x in g.nodes[n].inputs :: x in before then before + {n} else before
  {
  }

  lemma FedBoth(inputs: seq<nat>, before: set<nat>, keep: set<nat>)
    requires forall x | x in inputs :: x in keep
    ensures (forall x | x in inputs :: x in before) <==> (forall x | x in inputs :: x in before * keep)
  {
  }

  lemma ReachableNext(g: Graph, keep: set<nat>, order: seq<nat>, front: seq<nat>, filtered: seq<nat>)
    requires InRange(g, order) && order != [] && Closed(g.nodes, keep)
    requires InRange(Pruned(g, keep), front) && InRange(Pruned(g, keep), filtered)
    requires filtered == front + if Last(order) in keep then [Last(order)] else []
    requires Reachable(Pruned(g, keep), front) == Reachable(g, Front(order)) * keep
    ensures Reachable(Pruned(g, keep), filtered) == Reachable(g, order) * keep
  {
    var n, t := Last(order), Pruned(g, keep);
    ReachableLast(g, order);
    if n in keep {
      assert Front(filtered) == front && Last(filtered) == n;
      ReachableLast(t, filtered);
      FedBoth(g.nodes[n].inputs, Reachable(g, Front(order)), keep);
      assert t.nodes[n].op == g.nodes[n].op && t.nodes[n].inputs == g.nodes[n].inputs;
    } else {
      assert filtered == front;
    }
  }

  lemma FilterInRange(g: Graph, keep: set<nat>, order: seq<nat>)
    requires InRange(g, order)
    ensures InRange(Pruned(g, keep), Filter(order, keep))
  {
    FilterElements(order, keep);
    forall k | 0 <= k < |Filter(order, keep)|
      ensures Filter(order, keep)[k] < |g.nodes|
    {
      assert Filter(order, keep)[k] in Elements(Filter(order, keep));
    }
  }

  lemma {:induction false} ReachableKept(g: Graph, keep: set<nat>, order: seq<nat>)
    requires InRange(g, order) && Closed(g.nodes, keep) && InRange(Pruned(g, keep), Filter(order, keep))
    ensures Reachable(Pruned(g, keep), Filter(order, keep)) == Reachable(g, order) * keep
  {
    if order == [] {
      assert Filter(order, keep) == [];
    } else {
      FilterInRange(g, keep, Front(order));
      ReachableKept(g, keep, Front(order));
      FilterLast(order, keep);
      ReachableNext(g, keep, order, Filter(Front(order), keep), Filter(order, keep));
    }
  }

  lemma PrunedOrder(g: Graph, live: set<nat>)
    requires ClosedKeep(g, live) && TopologicalOrder(g).Some?
    ensures Schedule(Pruned(g, live), {}) == Filter(Schedule(g, {}), live)
    ensures TopologicalOrder(Pruned(g, live)).Some?
  {
    var none: set<nat> := {};
    assert none * live == none;
    PrunedSchedule(g, live, {});
    OrderIsTopological(g);
    FilterElements(Schedule(g, {}), live);
    PrunedActive(g, live);
    ScheduleDistinct(Pruned(g, live), {});
  }

  lemma PrunedHeader(g: Graph, live: set<nat>)
    requires ValidHeader(g)
    ensures ValidHeader(Pruned(g, live))
  {
    var t := Pruned(g, live);
    forall i | 0 <= i < |t.nodes|
      ensures ValidNode(t.nodes, i)
    {
      assert ValidNode(g.nodes, i);
    }
  }

  /** The pass keeps a valid graph valid and its schedule in the same relative order. */
  lemma EliminateKeepsValid(g: Graph, live: set<nat>)
    requires Validates(g) && IsLive(g.nodes, Targets(g.outputs), live)
    ensures Validates(Pruned(g, live))
    ensures Schedule(Pruned(g, live), {}) == Filter(Schedule(g, {}), live)
  {
    var t := Pruned(g, live);
    LiveIsActive(g, live);
    PrunedOrder(g, live);
    PrunedHeader(g, live);
    ScheduleRunnable(g);
    FilterInRange(g, live, Schedule(g, {}));
    ReachableKept(g, live, Schedule(g, {}));
    forall name | name in t.outputs
      ensures t.outputs[name] in Reachable(t, Schedule(t, {}))
    {
      assert g.outputs[name] in Targets(g.outputs);
    }
  }

  /** Whenever execution succeeds before the pass, it succeeds after it with the same outputs. */
  lemma EliminatePreservesExecution(k: Kernels, g: Graph, linears: Linears, inputs: map<string, Tensor>, live: set<nat>)
    requires IsLive(g.nodes, Targets(g.outputs), live) && Execute(k, g, linears, inputs).Ok?
    ensures Execute(k, Pruned(g, live), linears, inputs) == Execute(k, g, linears, inputs)
  {
    var t := Pruned(g, live);
    EliminateKeepsValid(g, live);
    ScheduleRunnable(g);
    ScheduleRunnable(t);
    ExecuteFiltered(k, g, linears, inputs, live, Schedule(g, {}));
    var whole := ExecuteOver(k, g, linears, inputs, Schedule(g, {})).value;
    var part := ExecuteOver(k, t, linears, inputs, Schedule(t, {})).value;
    SameCollected(g, live, part, whole);
  }

  lemma SameCollected(g: Graph, live: set<nat>, part: Progress, whole: Progress)
    requires IsLive(g.nodes, Targets(g.outputs), live) && KeptPart(part, whole, live) && Collect(g, whole.values).Ok?
    ensures Collect(Pruned(g, live), part.values) == Collect(g, whole.values)
  {
    forall name | name in g.outputs
      ensures g.outputs[name] in part.values && part.values[g.outputs[name]] == whole.values[g.outputs[name]]
    {
      assert g.outputs[name] in Targets(g.outputs);
    }
    assert Collect(Pruned(g, live), part.values).value == Collect(g, whole.values).value;
  }
}
