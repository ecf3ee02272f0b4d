/** Named dataflow graphs: scheduling, validation and dead-node elimination
    (src/graph/mod.rs). A node's identifier and the value it produces are its
    index in `nodes`, as `push_node` assigns them. */
module Graphs {
  import opened Wrappers
  import opened Tensors

  datatype Dim = Known(size: int) | Dynamic | Symbol(name: string)

  datatype TensorSpec = TensorSpec(dimensions: Option<seq<Dim>>, rank: Option<nat>, kind: Option<DType>,
                                   device: Option<nat>)

  datatype GraphOp =
    | Input | Output | Identity
    | Linear(inFeatures: int, outFeatures: int, bias: bool)
    | ReLU | Gelu
    | Dropout(probability: real)
    | Flatten(startDim: int, endDim: int)
    | Add | Subtract | Multiply
    | Concatenate(dim: int)
    | MseLoss | CrossEntropyLoss

  datatype Node = Node(name: string, op: GraphOp, inputs: seq<nat>, spec: TensorSpec, active: bool)

  datatype Graph = Graph(nodes: seq<Node>, inputs: map<string, nat>, outputs: map<string, nat>)

  function RankValue(s: TensorSpec): Option<nat>
  {
    if s.dimensions.Some? then Some(|s.dimensions.value|) else s.rank
  }

  // ---- scheduling ----

  function Active(g: Graph): (r: set<nat>)
    ensures forall i :: i in r <==> 0 <= i < |g.nodes| && g.nodes[i].active
  {
    set i: nat | i < |g.nodes| && g.nodes[i].active
  }

  predicate ProducersDone(g: Graph, done: set<nat>, i: nat)
    requires i < |g.nodes|
  {
    forall x | x in g.nodes[i].inputs :: x in Active(g) ==> x in done
  }

  /** Active nodes not yet done whose active producers are all done. */
  function Ready(g: Graph, done: set<nat>): (r: set<nat>)
    ensures r <= Active(g) - done
  {
    set i | i in Active(g) && i !in done && ProducersDone(g, done, i)
  }

  predicate Least(s: set<nat>, m: nat)
  {
    m in s && forall y | y in s :: m <= y
  }

  function Min(s: set<nat>): (m: nat)
    requires s != {}
    ensures Least(s, m)
  {
    LeastExists(s);
    var m :| m in s && Least(s, m);
    m
  }

  lemma LeastOfTwo(s: set<nat>, x: nat, m: nat)
    requires x in s && Least(s - {x}, m)
    ensures Least(s, if m <= x then m else x)
  {
    forall y | y in s
      ensures (if m <= x then m else x) <= y
    {
      assert y == x || y in s - {x};
    }
  }

  lemma {:induction false} LeastExists(s: set<nat>)
    requires s != {}
    ensures exists m :: m in s && Least(s, m)
  {
    var x :| x in s;
    if s == {x} {
      assert Least(s, x);
    } else {
      LeastExists(s - {x});
      var m :| m in s - {x} && Least(s - {x}, m);
      LeastOfTwo(s, x, m);
    }
  }

  /** The nodes scheduled after `done`, smallest ready node first. */
  function Schedule(g: Graph, done: set<nat>): seq<nat>
    decreases Active(g) - done
  {
    var ready := Ready(g, done);
    if ready == {} then []
    else
      var m := Min(ready);
      assert m in Active(g) - done;
      [m] + Schedule(g, done + {m})
  }

  /** `topological_order`, or an error when the active nodes contain a cycle. */
  function TopologicalOrder(g: Graph): Option<seq<nat>>
  {
    var order := Schedule(g, {});
    if |order| == |Active(g)| then Some(order) else None
  }

  function Elements(s: seq<nat>): set<nat>
  {
    set x | x in s
  }

  predicate Distinct(s: seq<nat>)
  {
    forall i, j | 0 <= i < j < |s| :: s[i] != s[j]
  }

  lemma ElementsCons(m: nat, rest: seq<nat>)
    ensures Elements([m] + rest) == {m} + Elements(rest)
  {
    assert ([m] + rest)[0] == m;
    forall x | x in Elements(rest)
      ensures x in [m] + rest
    {
      var i :| 0 <= i < |rest| && rest[i] == x;
      assert ([m] + rest)[i + 1] == x;
    }
  }

  lemma {:induction false} ScheduleWithin(g: Graph, done: set<nat>)
    ensures Elements(Schedule(g, done)) <= Active(g) - done
    decreases Active(g) - done
  {
    var ready := Ready(g, done);
    if ready != {} {
      var m := Min(ready);
      assert m in Active(g) - done;
      ScheduleWithin(g, done + {m});
      ElementsCons(m, Schedule(g, done + {m}));
    }
  }

  lemma {:induction false} ScheduleDistinct(g: Graph, done: set<nat>)
    ensures Distinct(Schedule(g, done)) && |Elements(Schedule(g, done))| == |Schedule(g, done)|
    decreases Active(g) - done
  {
    var ready := Ready(g, done);
    if ready != {} {
      var m := Min(ready);
      assert m in Active(g) - done;
      var rest := Schedule(g, done + {m});
      ScheduleDistinct(g, done + {m});
      ScheduleWithin(g, done + {m});
      ElementsCons(m, rest);
      forall j | 0 <= j < |rest|
        ensures rest[j] != m
      {
        assert rest[j] in Elements(rest);
      }
    }
  }

  lemma {:induction false} ScheduleExhausts(g: Graph, done: set<nat>)
    ensures Ready(g, done + Elements(Schedule(g, done))) == {}
    decreases Active(g) - done
  {
    var ready := Ready(g, done);
    if ready == {} {
      assert done + Elements([]) == done;
    } else {
      var m := Min(ready);
      assert m in Active(g) - done;
      var rest := Schedule(g, done + {m});
      ScheduleExhausts(g, done + {m});
      ElementsCons(m, rest);
      assert done + Elements([m] + rest) == done + {m} + Elements(rest);
    }
  }

  /** Each node comes after all of its active producers. */
  predicate Respects(g: Graph, done: set<nat>, order: seq<nat>)
  {
    forall k | 0 <= k < |order| ::
      order[k] < |g.nodes| && ProducersDone(g, done + Elements(order[..k]), order[k])
  }

  lemma {:induction false} ScheduleRespects(g: Graph, done: set<nat>)
    ensures Respects(g, done, Schedule(g, done))
    decreases Active(g) - done
  {
    var ready := Ready(g, done);
    if ready != {} {
      var m := Min(ready);
      assert m in Active(g) - done;
      ScheduleRespects(g, done + {m});
      var rest := Schedule(g, done + {m});
      var order := [m] + rest;
      forall k | 0 <= k < |order|
        ensures order[k] < |g.nodes|
        ensures ProducersDone(g, done + Elements(order[..k]), order[k])
      {
        if k == 0 {
          assert done + Elements(order[..0]) == done;
        } else {
          assert order[..k] == [m] + rest[..k - 1];
          ElementsCons(m, rest[..k - 1]);
          assert done + Elements(order[..k]) == done + {m} + Elements(rest[..k - 1]);
        }
      }
    }
  }

  predicate FedFrom(g: Graph, i: nat, s: set<nat>)
  {
    i < |g.nodes| && exists x | x in g.nodes[i].inputs :: x in s
  }

  /** A nonempty set of active nodes, each consuming a value from the set. */
  predicate CyclicCore(g: Graph, s: set<nat>)
  {
    s != {} && s <= Active(g) && forall i | i in s :: FedFrom(g, i, s)
  }

  ghost predicate Acyclic(g: Graph)
  {
    forall s :: !CyclicCore(g, s)
  }

  lemma CoreNotReady(g: Graph, done: set<nat>, s: set<nat>)
    requires CyclicCore(g, s) && s !! done
    ensures s !! Ready(g, done)
  {
    forall i | i in s
      ensures i !in Ready(g, done)
    {
      assert FedFrom(g, i, s);
    }
  }

  lemma ApartCons(s: set<nat>, m: nat, rest: seq<nat>)
    requires m !in s && s !! Elements(rest)
    ensures s !! Elements([m] + rest)
  {
    ElementsCons(m, rest);
  }

  lemma ScheduleFirst(g: Graph, done: set<nat>)
    requires Ready(g, done) != {}
    ensures Active(g) - (done + {Min(Ready(g, done))}) < Active(g) - done
    ensures Schedule(g, done) == [Min(Ready(g, done))] + Schedule(g, done + {Min(Ready(g, done))})
  {
    assert Min(Ready(g, done)) in Active(g) - done;
  }

  /** Whatever else is done, no node of the set becomes ready before another of them. */
  ghost predicate NeverReady(g: Graph, s: set<nat>)
  {
    forall done: set<nat> :: StaysUnready(g, s, done)
  }

  predicate StaysUnready(g: Graph, s: set<nat>, done: set<nat>)
  {
    s !! done ==> s !! Ready(g, done)
  }

  lemma {:induction false} NeverScheduled(g: Graph, done: set<nat>, s: set<nat>)
    requires NeverReady(g, s) && s !! done
    ensures s !! Elements(Schedule(g, done))
    decreases Active(g) - done
  {
    if Ready(g, done) != {} {
      var m := Min(Ready(g, done));
      assert StaysUnready(g, s, done);
      ScheduleFirst(g, done);
      NeverScheduled(g, done + {m}, s);
      ApartCons(s, m, Schedule(g, done + {m}));
    }
  }

  lemma CoreNeverScheduled(g: Graph, done: set<nat>, s: set<nat>)
    requires CyclicCore(g, s) && s !! done
    ensures s !! Elements(Schedule(g, done))
  {
    forall d: set<nat>
      ensures StaysUnready(g, s, d)
    {
      if s !! d {
        CoreNotReady(g, d, s);
      }
    }
    NeverScheduled(g, done, s);
  }

  lemma {:induction false} SubsetSize(a: set<nat>, b: set<nat>)
    requires a <= b
    ensures |a| <= |b| && (|a| == |b| ==> a == b)
  {
    if a != {} {
      var x :| x in a;
      SubsetSize(a - {x}, b - {x});
    }
  }

  lemma CompleteIsAcyclic(g: Graph)
    requires Elements(Schedule(g, {})) == Active(g)
    ensures Acyclic(g)
  {
    forall s
      ensures !CyclicCore(g, s)
    {
      if CyclicCore(g, s) {
        CoreNeverScheduled(g, {}, s);
        assert false;
      }
    }
  }

  lemma RestIsCore(g: Graph, done: set<nat>)
    requires Ready(g, done) == {} && done <= Active(g) && done != Active(g)
    ensures CyclicCore(g, Active(g) - done)
  {
    var rest := Active(g) - done;
    assert done + rest == Active(g);
    forall i | i in rest
      ensures FedFrom(g, i, rest)
    {
      assert i !in Ready(g, done);
    }
  }

  lemma IncompleteIsCyclic(g: Graph)
    requires Elements(Schedule(g, {})) != Active(g)
    ensures !Acyclic(g)
  {
    ScheduleWithin(g, {});
    ScheduleExhausts(g, {});
    var done := Elements(Schedule(g, {}));
    var none: set<nat> := {};
    assert none + done == done;
    RestIsCore(g, done);
  }

  /** The scheduler succeeds exactly on acyclic graphs, and then lists every
      active node once, after everything it depends on. */
  lemma OrderIsTopological(g: Graph)
    ensures TopologicalOrder(g).Some? <==> Acyclic(g)
    ensures TopologicalOrder(g).Some? ==>
      Elements(TopologicalOrder(g).value) == Active(g) && Distinct(TopologicalOrder(g).value) &&
      Respects(g, {}, TopologicalOrder(g).value)
  {
    var order := Schedule(g, {});
    ScheduleWithin(g, {});
    ScheduleDistinct(g, {});
    ScheduleRespects(g, {});
    SubsetSize(Elements(order), Active(g));
    if Elements(order) == Active(g) {
      CompleteIsAcyclic(g);
    } else {
      IncompleteIsCyclic(g);
    }
  }

  /** Every node consumes only values of earlier nodes, as the builder ensures. */
  predicate Backward(g: Graph)
  {
    forall i | 0 <= i < |g.nodes| :: forall x | x in g.nodes[i].inputs :: x < i
  }

  lemma BackwardIsAcyclic(g: Graph)
    requires Backward(g)
    ensures Acyclic(g)
  {
    forall s
      ensures !CyclicCore(g, s)
    {
      if CyclicCore(g, s) {
        var least := Min(s);
        assert false;
      }
    }
  }

  predicate Ascending(s: seq<nat>)
  {
    forall i, j | 0 <= i < j < |s| :: s[i] < s[j]
  }

  /** Everything done lies before everything still to do. */
  predicate Before(g: Graph, done: set<nat>)
  {
    forall i, j | i in done && j in Active(g) && j !in done :: i < j
  }

  lemma LeastIsReady(g: Graph, done: set<nat>)
    requires Backward(g) && Active(g) - done != {}
    ensures Ready(g, done) != {} && Min(Ready(g, done)) == Min(Active(g) - done)
  {
    var least := Min(Active(g) - done);
    assert ProducersDone(g, done, least) by {
      forall x | x in g.nodes[least].inputs && x in Active(g)
        ensures x in done
      {
        assert x < least;
        assert x !in done ==> x in Active(g) - done;
      }
    }
    assert least in Ready(g, done);
    assert Min(Ready(g, done)) in Active(g) - done;
  }

  lemma BeforeNext(g: Graph, done: set<nat>, m: nat)
    requires Before(g, done) && Least(Active(g) - done, m)
    ensures Before(g, done + {m})
  {
    forall i, j | i in done + {m} && j in Active(g) && j !in done + {m}
      ensures i < j
    {
      assert j in Active(g) - done;
    }
  }

  /** On a builder-made graph the schedule is the construction order. */
  lemma {:induction false} BackwardSchedule(g: Graph, done: set<nat>)
    requires Backward(g) && Before(g, done)
    ensures Ascending(Schedule(g, done))
    decreases Active(g) - done
  {
    var ready := Ready(g, done);
    if ready != {} {
      var m := Min(ready);
      assert m in Active(g) - done;
      LeastIsReady(g, done);
      var rest := Schedule(g, done + {m});
      BeforeNext(g, done, m);
      BackwardSchedule(g, done + {m});
      ScheduleWithin(g, done + {m});
      forall j | 0 <= j < |rest|
        ensures m < rest[j]
      {
        assert rest[j] in Elements(rest);
        assert rest[j] in Active(g) - done;
      }
    }
  }

  // ---- the scheduler's loops ----

  /** Input positions whose producer is active and not done. */
  function Missing(inputs: seq<nat>, active: set<nat>, done: set<nat>): nat
  {
    if inputs == [] then 0
    else Missing(Front(inputs), active, done) + if Last(inputs) in active && Last(inputs) !in done then 1 else 0
  }

  function Occurrences(inputs: seq<nat>, x: nat): nat
  {
    if inputs == [] then 0 else Occurrences(Front(inputs), x) + if Last(inputs) == x then 1 else 0
  }

  lemma {:induction false} MissingZero(inputs: seq<nat>, active: set<nat>, done: set<nat>)
    ensures Missing(inputs, active, done) == 0 <==> forall x | x in inputs :: x in active ==> x in done
  {
    if inputs != [] {
      MissingZero(Front(inputs), active, done);
      assert inputs == Front(inputs) + [Last(inputs)];
    }
  }

  lemma {:induction false} MissingAfter(inputs: seq<nat>, active: set<nat>, done: set<nat>, x: nat)
    requires x in active && x !in done
    ensures Missing(inputs, active, done) == Missing(inputs, active, done + {x}) + Occurrences(inputs, x)
  {
    if inputs != [] {
      MissingAfter(Front(inputs), active, done, x);
    }
  }

  /** How often `c` consumes `x`. */
  function Uses(g: Graph, c: nat, x: nat): nat
  {
    if c in Active(g) then Occurrences(g.nodes[c].inputs, x) else 0
  }

  /** Everything done had its producers done first. */
  predicate DoneClosed(g: Graph, done: set<nat>)
  {
    done <= Active(g) && forall c | c in done :: ProducersDone(g, done, c)
  }

  lemma {:induction false} OccursWhenUsed(inputs: seq<nat>, x: nat)
    requires Occurrences(inputs, x) > 0
    ensures x in inputs
  {
    if Last(inputs) != x {
      OccursWhenUsed(Front(inputs), x);
    }
  }

  type Consumers = map<nat, seq<nat>>

  function ConsumersOf(consumers: Consumers, x: nat): seq<nat>
  {
    if x in consumers then consumers[x] else []
  }

  /** Every edge between active nodes is recorded as often as it occurs. */
  ghost predicate EdgesRecorded(g: Graph, consumers: Consumers)
  {
    forall x: nat, c: nat | x in Active(g) :: multiset(ConsumersOf(consumers, x))[c] == Uses(g, c, x)
  }

  /** The edges of the nodes before `i` are recorded, and of `i` those to `seen`. */
  ghost predicate PartlyRecorded(g: Graph, consumers: Consumers, i: nat, seen: seq<nat>)
  {
    forall x: nat, c: nat | x in Active(g) ::
      multiset(ConsumersOf(consumers, x))[c] ==
      if c < i then Uses(g, c, x) else if c == i then Occurrences(seen, x) else 0
  }

  lemma EdgeRecorded(g: Graph, consumers: Consumers, i: nat, seen: seq<nat>, next: nat)
    requires PartlyRecorded(g, consumers, i, seen)
    ensures var t := if next in Active(g) then consumers[next := ConsumersOf(consumers, next) + [i]] else consumers;
      PartlyRecorded(g, t, i, seen + [next])
  {
    var t := if next in Active(g) then consumers[next := ConsumersOf(consumers, next) + [i]] else consumers;
    assert Front(seen + [next]) == seen && Last(seen + [next]) == next;
    forall x: nat, c: nat | x in Active(g)
      ensures multiset(ConsumersOf(t, x))[c] ==
              if c < i then Uses(g, c, x) else if c == i then Occurrences(seen + [next], x) else 0
    {
      var before := ConsumersOf(consumers, x);
      if x == next {
        assert ConsumersOf(t, x) == before + [i] && multiset(before + [i]) == multiset(before) + multiset{i};
      } else {
        assert ConsumersOf(t, x) == before;
      }
    }
  }

  lemma NodeRecorded(g: Graph, consumers: Consumers, i: nat, seen: seq<nat>)
    requires i < |g.nodes| && PartlyRecorded(g, consumers, i, seen)
    requires seen == if g.nodes[i].active then g.nodes[i].inputs else []
    ensures PartlyRecorded(g, consumers, i + 1, [])
  {
  }

  method CountNode(g: Graph, i: nat, before: Consumers) returns (count: nat, consumers: Consumers)
    requires i < |g.nodes| && PartlyRecorded(g, before, i, [])
    ensures count == Missing(g.nodes[i].inputs, Active(g), {})
    ensures PartlyRecorded(g, consumers, i, g.nodes[i].inputs)
  {
    var inputs := g.nodes[i].inputs;
    count, consumers := 0, before;
    for j := 0 to |inputs|
      invariant count == Missing(inputs[..j], Active(g), {}) && PartlyRecorded(g, consumers, i, inputs[..j])
    {
      assert Front(inputs[..j + 1]) == inputs[..j] && inputs[..j + 1] == inputs[..j] + [inputs[j]];
      EdgeRecorded(g, consumers, i, inputs[..j], inputs[j]);
      var producer := inputs[j];
      if producer in Active(g) {
        count := count + 1;
        consumers := consumers[producer := ConsumersOf(consumers, producer) + [i]];
      }
    }
    assert inputs[..|inputs|] == inputs;
  }

  method CountEdges(g: Graph) returns (indegree: map<nat, nat>, consumers: Consumers)
    ensures indegree.Keys == Active(g)
    ensures forall c | c in Active(g) :: indegree[c] == Missing(g.nodes[c].inputs, Active(g), {})
    ensures EdgesRecorded(g, consumers)
  {
    indegree, consumers := map[], map[];
    for i := 0 to |g.nodes|
      invariant indegree.Keys == set c | c in Active(g) && c < i
      invariant forall c | c in indegree :: indegree[c] == Missing(g.nodes[c].inputs, Active(g), {})
      invariant PartlyRecorded(g, consumers, i, [])
    {
      if g.nodes[i].active {
        var count;
        count, consumers := CountNode(g, i, consumers);
        indegree := indegree[i := count];
      }
      NodeRecorded(g, consumers, i, if g.nodes[i].active then g.nodes[i].inputs else []);
    }
  }

  /** The open degrees: how many active inputs of each unscheduled node are still to come. */
  predicate Degrees(g: Graph, indegree: map<nat, nat>, done: set<nat>)
  {
    indegree.Keys == Active(g) &&
    forall c | c in Active(g) && c !in done :: indegree[c] == Missing(g.nodes[c].inputs, Active(g), done)
  }

  lemma ZeroDegreesReady(g: Graph, indegree: map<nat, nat>, done: set<nat>)
    requires Degrees(g, indegree, done)
    ensures Ready(g, done) == set c | c in Active(g) && c !in done && indegree[c] == 0
  {
    forall c | c in Active(g) && c !in done
      ensures ProducersDone(g, done, c) <==> indegree[c] == 0
    {
      MissingZero(g.nodes[c].inputs, Active(g), done);
    }
  }

  /** Midway through releasing the consumers of `id`: `left` are still to be visited. */
  ghost predicate Releasing(g: Graph, indegree: map<nat, nat>, done: set<nat>, left: seq<nat>)
  {
    indegree.Keys == Active(g) &&
    forall c | c in Active(g) && c !in done ::
      indegree[c] == Missing(g.nodes[c].inputs, Active(g), done) + multiset(left)[c]
  }

  lemma ReleaseBegins(g: Graph, consumers: Consumers, degrees: map<nat, nat>, id: nat, done: set<nat>)
    requires EdgesRecorded(g, consumers) && Degrees(g, degrees, done) && id in Ready(g, done)
    ensures Releasing(g, degrees, done + {id}, ConsumersOf(consumers, id))
  {
    forall c | c in Active(g) && c !in done + {id}
      ensures degrees[c] == Missing(g.nodes[c].inputs, Active(g), done + {id}) + multiset(ConsumersOf(consumers, id))[c]
    {
      MissingAfter(g.nodes[c].inputs, Active(g), done, id);
    }
  }

  lemma ConsumersOpen(g: Graph, consumers: Consumers, id: nat, done: set<nat>, c: nat)
    requires EdgesRecorded(g, consumers) && DoneClosed(g, done) && id in Ready(g, done)
    requires c in ConsumersOf(consumers, id)
    ensures c in Active(g) && c !in done + {id}
  {
    assert multiset(ConsumersOf(consumers, id))[c] > 0;
    OccursWhenUsed(g.nodes[c].inputs, id);
    assert ProducersDone(g, done, id);
    assert c in done ==> ProducersDone(g, done, c);
  }

  lemma VisitOne(g: Graph, indegree: map<nat, nat>, done: set<nat>, left: seq<nat>)
    requires Releasing(g, indegree, done, left) && left != [] && left[0] in Active(g) && left[0] !in done
    ensures indegree[left[0]] > 0
    ensures Releasing(g, indegree[left[0] := indegree[left[0]] - 1], done, left[1..])
  {
    assert left == [left[0]] + left[1..];
    assert multiset(left) == multiset{left[0]} + multiset(left[1..]);
  }

  predicate ReadyAre(g: Graph, indegree: map<nat, nat>, done: set<nat>, ready: set<nat>)
    requires Active(g) <= indegree.Keys
  {
    ready == set c | c in Active(g) && c !in done && indegree[c] == 0
  }

  lemma VisitReadies(g: Graph, indegree: map<nat, nat>, done: set<nat>, ready: set<nat>, c: nat)
    requires Active(g) <= indegree.Keys && ReadyAre(g, indegree, done, ready)
    requires c in Active(g) && c !in done && indegree[c] > 0
    ensures ReadyAre(g, indegree[c := indegree[c] - 1], done, if indegree[c] == 1 then ready + {c} else ready)
  {
  }

  /** Lowers the degree of every consumer of `id`, and readies those that reach zero. */
  method Release(g: Graph, consumers: Consumers, degrees: map<nat, nat>, waiting: set<nat>, id: nat,
                 ghost done: set<nat>)
    returns (indegree: map<nat, nat>, ready: set<nat>)
    requires EdgesRecorded(g, consumers) && DoneClosed(g, done) && Degrees(g, degrees, done)
    requires id in Ready(g, done) && waiting == Ready(g, done) - {id}
    ensures Degrees(g, indegree, done + {id}) && ready == Ready(g, done + {id})
  {
    indegree, ready := degrees, waiting;
    var list := ConsumersOf(consumers, id);
    ReleaseBegins(g, consumers, degrees, id, done);
    ZeroDegreesReady(g, degrees, done);
    assert list[0..] == list;
    for j := 0 to |list|
      invariant Releasing(g, indegree, done + {id}, list[j..])
      invariant ReadyAre(g, indegree, done + {id}, ready)
    {
      var c := list[j];
      ConsumersOpen(g, consumers, id, done, c);
      VisitOne(g, indegree, done + {id}, list[j..]);
      VisitReadies(g, indegree, done + {id}, ready, c);
      assert list[j..][1..] == list[j + 1..];
      indegree := indegree[c := indegree[c] - 1];
      if indegree[c] == 0 {
        ready := ready + {c};
      }
    }
    ZeroDegreesReady(g, indegree, done + {id});
  }

  lemma DoneClosedNext(g: Graph, done: set<nat>, id: nat)
    requires DoneClosed(g, done) && id in Ready(g, done)
    ensures DoneClosed(g, done + {id})
  {
    forall c | c in done + {id}
      ensures ProducersDone(g, done + {id}, c)
    {
      assert ProducersDone(g, done, c);
    }
  }

  lemma ScheduleNext(g: Graph, done: set<nat>, order: seq<nat>)
    requires Ready(g, done) != {}
    ensures var id := Min(Ready(g, done));
      id in Active(g) - done && order + Schedule(g, done) == order + [id] + Schedule(g, done + {id})
  {
    var id := Min(Ready(g, done));
    assert id in Active(g) - done;
    assert order + ([id] + Schedule(g, done + {id})) == order + [id] + Schedule(g, done + {id});
  }

  /** `topological_order` as the source computes it. */
  method Order(g: Graph) returns (r: Option<seq<nat>>)
    ensures r == TopologicalOrder(g)
  {
    var indegree, consumers := CountEdges(g);
    ghost var done: set<nat> := {};
    ZeroDegreesReady(g, indegree, done);
    var ready := set c | c in Active(g) && indegree[c] == 0;
    var order: seq<nat> := [];
    assert order + Schedule(g, done) == Schedule(g, {});
    while ready != {}
      invariant DoneClosed(g, done) && Degrees(g, indegree, done) && EdgesRecorded(g, consumers)
      invariant ready == Ready(g, done)
      invariant order + Schedule(g, done) == Schedule(g, {})
      decreases Active(g) - done
    {
      var id := Min(ready);
      ScheduleNext(g, done, order);
      order := order + [id];
      DoneClosedNext(g, done, id);
      indegree, ready := Release(g, consumers, indegree, ready - {id}, id, done);
      done := done + {id};
    }
    assert order == Schedule(g, {});
    return if |order| == |Active(g)| then Some(order) else None;
  }
}
