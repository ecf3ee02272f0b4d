/** Dead-node elimination (src/graph/mod.rs). */
module DeadNodes {
  import opened Wrappers
  import opened Graphs

  // ---- live values ----

  function Targets(outputs: map<string, nat>): set<nat>
  {
    set name | name in outputs :: outputs[name]
  }

  /** `s` contains what its nodes consume. */
  ghost predicate Closed(nodes: seq<Node>, s: set<nat>)
  {
    forall v, x | v in s && v < |nodes| && x in nodes[v].inputs :: x in s
  }

  /** The values the outputs depend on: the least closed set containing them. */
  ghost predicate IsLive(nodes: seq<Node>, roots: set<nat>, live: set<nat>)
  {
    && roots <= live && Closed(nodes, live)
    && forall s | roots <= s && Closed(nodes, s) :: live <= s
  }

  lemma LiveUnique(nodes: seq<Node>, roots: set<nat>, a: set<nat>, b: set<nat>)
    requires IsLive(nodes, roots, a) && IsLive(nodes, roots, b)
    ensures a == b
  {
  }

  /** Everything the search can reach. */
  function Universe(nodes: seq<Node>, roots: set<nat>): set<nat>
  {
    if nodes == [] then roots
    else Universe(nodes[..|nodes| - 1], roots) + Elements(nodes[|nodes| - 1].inputs)
  }

  lemma {:induction false} UniverseBounds(nodes: seq<Node>, roots: set<nat>, v: nat)
    ensures roots <= Universe(nodes, roots)
    ensures v < |nodes| ==> Elements(nodes[v].inputs) <= Universe(nodes, roots)
  {
    if nodes != [] {
      UniverseBounds(nodes[..|nodes| - 1], roots, v);
    }
  }

  /** Everything outside the queue already has its inputs marked. */
  ghost predicate Frontier(nodes: seq<Node>, live: set<nat>, queue: seq<nat>)
  {
    Elements(queue) <= live &&
    forall v, x | v in live && v !in queue && v < |nodes| && x in nodes[v].inputs :: x in live
  }

  /** Only values every closed set has are marked. */
  ghost predicate Needed(nodes: seq<Node>, roots: set<nat>, live: set<nat>)
  {
    forall s | roots <= s && Closed(nodes, s) :: live <= s
  }

  /** Some inputs of a live node are marked; what is newly marked is queued. */
  ghost predicate Marking(nodes: seq<Node>, roots: set<nat>, live: set<nat>, queue: seq<nat>, seen: seq<nat>,
                          marked: set<nat>, rest: seq<nat>)
  {
    && live <= marked <= Universe(nodes, roots) && Needed(nodes, roots, marked)
    && Elements(rest) == Elements(queue) + (marked - live) && Elements(rest) <= marked
    && |rest| + |live| == |queue| + |marked| && Elements(seen) <= marked
  }

  lemma MarkNext(nodes: seq<Node>, roots: set<nat>, value: nat, live: set<nat>, queue: seq<nat>, seen: seq<nat>,
                 marked: set<nat>, rest: seq<nat>, x: nat)
    requires Marking(nodes, roots, live, queue, seen, marked, rest)
    requires value < |nodes| && value in live && x in nodes[value].inputs && x in Universe(nodes, roots)
    ensures Marking(nodes, roots, live, queue, seen + [x], if x in marked then marked else marked + {x},
                    if x in marked then rest else rest + [x])
  {
    ElementsAppend(seen, x);
    if x !in marked {
      NeededMore(nodes, roots, marked, value, x);
      ElementsAppend(rest, x);
    }
  }

  /** Marks the inputs of one node and queues the new ones. */
  method MarkInputs(nodes: seq<Node>, roots: set<nat>, value: nat, live: set<nat>, queue: seq<nat>)
    returns (marked: set<nat>, rest: seq<nat>)
    requires value < |nodes| && value in live && Frontier(nodes, live, [value] + queue) && Needed(nodes, roots, live)
    requires live <= Universe(nodes, roots)
    ensures Frontier(nodes, marked, rest) && Needed(nodes, roots, marked)
    ensures live <= marked <= Universe(nodes, roots)
    ensures |rest| + |live| == |queue| + |marked|
  {
    var inputs := nodes[value].inputs;
    marked, rest := live, queue;
    UniverseBounds(nodes, roots, value);
    for i := 0 to |inputs|
      invariant Marking(nodes, roots, live, queue, inputs[..i], marked, rest)
    {
      assert inputs[..i + 1] == inputs[..i] + [inputs[i]];
      MarkNext(nodes, roots, value, live, queue, inputs[..i], marked, rest, inputs[i]);
      if inputs[i] !in marked {
        marked := marked + {inputs[i]};
        rest := rest + [inputs[i]];
      }
    }
    assert inputs[..|inputs|] == inputs;
    FrontierAfter(nodes, value, live, queue, marked, rest);
  }

  lemma ElementsAppend(s: seq<nat>, x: nat)
    ensures Elements(s + [x]) == Elements(s) + {x}
  {
    forall y | y in s
      ensures y in s + [x]
    {
    }
    assert x in s + [x];
  }

  lemma NeededMore(nodes: seq<Node>, roots: set<nat>, live: set<nat>, value: nat, x: nat)
    requires Needed(nodes, roots, live) && value in live && value < |nodes| && x in nodes[value].inputs
    ensures Needed(nodes, roots, live + {x})
  {
  }

  lemma FrontierAfter(nodes: seq<Node>, value: nat, live: set<nat>, queue: seq<nat>, marked: set<nat>, rest: seq<nat>)
    requires value < |nodes| && Frontier(nodes, live, [value] + queue) && live <= marked
    requires Elements(rest) == Elements(queue) + (marked - live) && Elements(rest) <= marked
    requires forall k | 0 <= k < |nodes[value].inputs| :: nodes[value].inputs[k] in marked
    ensures Frontier(nodes, marked, rest)
  {
    forall v, x | v in marked && v !in rest && v < |nodes| && x in nodes[v].inputs
      ensures x in marked
    {
      assert v !in Elements(rest);
      if v != value {
        assert v in live && v !in queue by {
          assert v in queue ==> v in Elements(queue);
        }
        assert v !in [value] + queue;
      }
    }
  }

  /** The search from the output values. */
  method FindLive(nodes: seq<Node>, roots: set<nat>, start: seq<nat>) returns (live: set<nat>)
    requires Elements(start) == roots
    ensures IsLive(nodes, roots, live)
  {
    live := roots;
    var queue := start;
    UniverseBounds(nodes, roots, 0);
    while queue != []
      invariant roots <= live <= Universe(nodes, roots)
      invariant Frontier(nodes, live, queue) && Needed(nodes, roots, live)
      decreases |Universe(nodes, roots) - live|, |queue|
    {
      var value := queue[0];
      var rest := queue[1..];
      assert queue == [value] + rest;
      assert value in Elements(queue);
      if value < |nodes| {
        ghost var before := live;
        live, queue := MarkInputs(nodes, roots, value, live, rest);
        Shrinks(Universe(nodes, roots), before, live, |rest|, |queue|);
      } else {
        SkipMissing(nodes, live, value, rest);
        queue := rest;
      }
    }
  }

  lemma SkipMissing(nodes: seq<Node>, live: set<nat>, value: nat, rest: seq<nat>)
    requires Frontier(nodes, live, [value] + rest) && value >= |nodes|
    ensures Frontier(nodes, live, rest)
  {
    forall x | x in rest
      ensures x in live
    {
      assert x in [value] + rest;
      assert x in Elements([value] + rest);
    }
    forall v, x | v in live && v !in rest && v < |nodes| && x in nodes[v].inputs
      ensures x in live
    {
      assert v !in [value] + rest;
    }
  }

  lemma Shrinks(universe: set<nat>, before: set<nat>, after: set<nat>, rest: nat, queue: nat)
    requires before <= after <= universe && queue + |before| == rest + |after|
    ensures |universe - after| < |universe - before| || (|universe - after| == |universe - before| && queue == rest)
  {
    assert universe - after <= universe - before;
    SubsetSize(universe - after, universe - before);
    SubsetSize(before, after);
    if |before| == |after| {
      assert before == after;
    } else {
      assert |universe - after| == |universe| - |after| by {
        SplitSize(universe, after);
      }
      SplitSize(universe, before);
    }
  }

  lemma SplitSize(universe: set<nat>, part: set<nat>)
    requires part <= universe
    ensures |universe - part| == |universe| - |part|
  {
    assert universe == part + (universe - part);
  }

  // ---- the pass ----

  function Flagged(node: Node, active: bool): Node
  {
    node.(active := active)
  }

  /** The nodes with exactly `live` active. */
  function Restricted(nodes: seq<Node>, live: set<nat>): (r: seq<Node>)
    ensures |r| == |nodes|
    ensures forall i | 0 <= i < |nodes| :: r[i] == Flagged(nodes[i], i in live)
  {
    seq(|nodes|, i requires 0 <= i < |nodes| => Flagged(nodes[i], i in live))
  }

  /** The pass: activity flags rewritten in place, changed nodes reported in order. */
  method Eliminate(nodes: array<Node>, outputs: map<string, nat>, start: seq<nat>)
    returns (changed: seq<nat>, ghost live: set<nat>)
    requires Elements(start) == Targets(outputs)
    modifies nodes
    ensures IsLive(old(nodes[..]), Targets(outputs), live)
    ensures nodes[..] == Restricted(old(nodes[..]), live)
    ensures Ascending(changed)
    ensures forall i: nat :: i in changed <==> i < nodes.Length && old(nodes[i].active) != nodes[i].active
  {
    var marked := FindLive(nodes[..], Targets(outputs), start);
    live := marked;
    changed := [];
    for i := 0 to nodes.Length
      invariant forall k | 0 <= k < i :: nodes[k] == Flagged(old(nodes[k]), k in marked)
      invariant forall k | i <= k < nodes.Length :: nodes[k] == old(nodes[k])
      invariant Ascending(changed) && forall k | 0 <= k < |changed| :: changed[k] < i
      invariant forall k: nat :: k in changed <==> k < i && old(nodes[k].active) != nodes[k].active
    {
      var active := i in marked;
      if nodes[i].active != active {
        nodes[i] := Flagged(nodes[i], active);
        changed := changed + [i];
      }
    }
    assert nodes[..] == Restricted(old(nodes[..]), live);
  }

  /** What liveness depends on: the edges, not the activity flags. */
  lemma LiveIgnoresFlags(nodes: seq<Node>, roots: set<nat>, live: set<nat>, other: set<nat>)
    requires IsLive(nodes, roots, live)
    ensures IsLive(Restricted(nodes, other), roots, live)
  {
    var t := Restricted(nodes, other);
    assert forall s :: Closed(nodes, s) <==> Closed(t, s);
  }

  /** Running the pass again changes nothing. */
  lemma EliminateIdempotent(nodes: seq<Node>, roots: set<nat>, live: set<nat>, again: set<nat>)
    requires IsLive(nodes, roots, live) && IsLive(Restricted(nodes, live), roots, again)
    ensures Restricted(Restricted(nodes, live), again) == Restricted(nodes, live)
  {
    LiveIgnoresFlags(nodes, roots, live, live);
    LiveUnique(Restricted(nodes, live), roots, live, again);
  }

  function Pruned(g: Graph, live: set<nat>): Graph
  {
    g.(nodes := Restricted(g.nodes, live))
  }

  // ---- the schedule of the pruned graph ----

  function Filter(order: seq<nat>, keep: set<nat>): seq<nat>
  {
    if order == [] then [] else (if order[0] in keep then [order[0]] else []) + Filter(order[1..], keep)
  }

  /** Nodes kept consume only kept values, and all of them are active. */
  ghost predicate ClosedKeep(g: Graph, keep: set<nat>)
  {
    (forall v | v in keep && v < |g.nodes| :: g.nodes[v].active) && Closed(g.nodes, keep)
  }

  lemma PrunedActive(g: Graph, keep: set<nat>)
    requires ClosedKeep(g, keep)
    ensures Active(Pruned(g, keep)) == Active(g) * keep
  {
  }

  lemma PrunedProducers(g: Graph, keep: set<nat>, done: set<nat>, i: nat)
    requires ClosedKeep(g, keep) && i in keep && i < |g.nodes|
    ensures ProducersDone(g, done, i) <==> ProducersDone(Pruned(g, keep), done * keep, i)
  {
    PrunedActive(g, keep);
  }

  /** Ready nodes of the pruned graph are the kept ready nodes. */
  lemma PrunedReady(g: Graph, keep: set<nat>, done: set<nat>)
    requires ClosedKeep(g, keep)
    ensures Ready(Pruned(g, keep), done * keep) == Ready(g, done) * keep
  {
    PrunedActive(g, keep);
    forall i | i in Active(g) && i in keep
      ensures ProducersDone(g, done, i) <==> ProducersDone(Pruned(g, keep), done * keep, i)
    {
      PrunedProducers(g, keep, done, i);
    }
  }

  lemma LeastOfSubset(a: set<nat>, b: set<nat>, m: nat)
    requires b <= a && Least(a, m) && m in b
    ensures b != {} && Min(b) == m
  {
  }

  /** Surviving nodes keep their relative order. */
  lemma {:induction false} PrunedSchedule(g: Graph, keep: set<nat>, done: set<nat>)
    requires ClosedKeep(g, keep)
    ensures Schedule(Pruned(g, keep), done * keep) == Filter(Schedule(g, done), keep)
    decreases Active(g) - done
  {
    var t := Pruned(g, keep);
    PrunedReady(g, keep, done);
    if Ready(g, done) != {} {
      var m := Min(Ready(g, done));
      assert m in Active(g) - done;
      PrunedSchedule(g, keep, done + {m});
      PrunedStep(g, keep, done, m);
    }
  }

  lemma PrunedStep(g: Graph, keep: set<nat>, done: set<nat>, m: nat)
    requires ClosedKeep(g, keep) && Least(Ready(g, done), m)
    requires Ready(Pruned(g, keep), done * keep) == Ready(g, done) * keep
    requires Schedule(Pruned(g, keep), (done + {m}) * keep) == Filter(Schedule(g, done + {m}), keep)
    ensures Schedule(Pruned(g, keep), done * keep) == Filter([m] + Schedule(g, done + {m}), keep)
  {
    var t := Pruned(g, keep);
    var rest := Schedule(g, done + {m});
    assert ([m] + rest)[1..] == rest;
    if m in keep {
      LeastOfSubset(Ready(g, done), Ready(t, done * keep), m);
      assert (done + {m}) * keep == done * keep + {m};
    } else {
      assert (done + {m}) * keep == done * keep;
    }
  }
}
