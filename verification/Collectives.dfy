/** Tensor collectives as the coordinator computes them (src/distributed/process.rs).

    Payload arithmetic is LibTorch's: `Arithmetic` leaves it open, and either
    kernel may fail. Error texts are not modelled, so a request or response only
    records whether it carries one. */
module Collectives {
  import opened Wrappers

  newtype Byte = x: int | 0 <= x < 256

  const USIZE_MAX: nat := 0xffff_ffff_ffff_ffff
  const MAX_RANKS: nat := 1024

  datatype ElementType = Float | Double | Int64

  datatype ReduceOp = Sum | Mean | Min | Max | Product

  datatype Payload = Payload(shape: seq<int>, kind: ElementType, bytes: seq<Byte>)

  datatype Operation =
    | Barrier | Bytes
    | Broadcast(root: nat) | AllReduce(op: ReduceOp) | Reduce(root: nat, op: ReduceOp)
    | AllGather | Gather(root: nat) | Scatter(root: nat) | ReduceScatter(op: ReduceOp) | AllToAll

  datatype Request = Request(sequence: nat, operation: Operation, failed: bool, tensors: seq<Payload>, bytes: seq<Byte>)

  datatype Response = Response(sequence: nat, failed: bool, tensors: seq<Payload>, bytes: seq<seq<Byte>>)

  /** `combine` is add, minimum, maximum or multiply; `divide` divides by a rank count. */
  datatype Arithmetic = Arithmetic(
    combine: (ReduceOp, Payload, Payload) -> Option<Payload>,
    divide: (Payload, nat) -> Option<Payload>)

  function Width(kind: ElementType): nat
  {
    if kind.Float? then 4 else 8
  }

  /** Element count in 64-bit arithmetic, multiplied from the left. */
  function Elements(shape: seq<int>): Option<nat>
  {
    if shape == [] then Some(1)
    else
      var before := Elements(shape[..|shape| - 1]);
      var d := shape[|shape| - 1];
      if before.None? || d < 0 || before.value * d > USIZE_MAX then None else Some(before.value * d)
  }

  predicate ValidPayload(p: Payload, limit: nat)
  {
    && |p.shape| <= 64 && |p.bytes| <= limit
    && Elements(p.shape).Some?
    && Elements(p.shape).value * Width(p.kind) == |p.bytes|
  }

  predicate SameSpec(a: Payload, b: Payload)
  {
    a.shape == b.shape && a.kind == b.kind
  }

  predicate Alike(tensors: seq<Payload>)
  {
    forall i, j | 0 <= i < |tensors| && 0 <= j < |tensors| :: SameSpec(tensors[i], tensors[j])
  }

  // ---- reduction ----

  /** The left-to-right combination of the first `count` inputs. */
  function Folded(a: Arithmetic, op: ReduceOp, inputs: seq<Payload>, count: nat): Option<Payload>
    requires 1 <= count <= |inputs|
  {
    if count == 1 then Some(inputs[0])
    else
      var before := Folded(a, op, inputs, count - 1);
      if before.None? then None else a.combine(op, before.value, inputs[count - 1])
  }

  function Reduced(a: Arithmetic, op: ReduceOp, inputs: seq<Payload>, limit: nat): (r: Option<Payload>)
    requires inputs != []
    ensures r.Some? ==> ValidPayload(r.value, limit)
  {
    if op.Mean? && inputs[0].kind.Int64? then None
    else
      var total := Folded(a, op, inputs, |inputs|);
      var value := if total.Some? && op.Mean? then a.divide(total.value, |inputs|) else total;
      if value.Some? && ValidPayload(value.value, limit) then value else None
  }

  method ReduceLoop(a: Arithmetic, op: ReduceOp, inputs: seq<Payload>, limit: nat) returns (r: Option<Payload>)
    requires inputs != []
    ensures r == Reduced(a, op, inputs, limit)
  {
    if op.Mean? && inputs[0].kind.Int64? {
      return None;
    }
    var result := inputs[0];
    for i := 1 to |inputs|
      invariant Folded(a, op, inputs, i) == Some(result)
    {
      var next := a.combine(op, result, inputs[i]);
      if next.None? {
        FoldStops(a, op, inputs, i + 1, |inputs|);
        return None;
      }
      result := next.value;
    }
    if op.Mean? {
      var mean := a.divide(result, |inputs|);
      if mean.None? {
        return None;
      }
      result := mean.value;
    }
    return if ValidPayload(result, limit) then Some(result) else None;
  }

  lemma {:induction false} FoldStops(a: Arithmetic, op: ReduceOp, inputs: seq<Payload>, i: nat, j: nat)
    requires 1 <= i <= j <= |inputs| && Folded(a, op, inputs, i).None?
    ensures Folded(a, op, inputs, j).None?
  {
    if i < j {
      FoldStops(a, op, inputs, i, j - 1);
    }
  }

  method SameSpecs(tensors: seq<Payload>) returns (r: bool)
    ensures r <==> Alike(tensors)
  {
    var i := 1;
    while i < |tensors|
      invariant 1 <= i && (i <= |tensors| || tensors == [])
      invariant forall k | 0 <= k < i && k < |tensors| :: SameSpec(tensors[0], tensors[k])
    {
      if !SameSpec(tensors[i - 1], tensors[i]) {
        return false;
      }
      i := i + 1;
    }
    return true;
  }

  // ---- what a collective returns ----

  function Size(tensors: seq<Payload>): nat
  {
    if tensors == [] then 0
    else
      var last := tensors[|tensors| - 1];
      Size(tensors[..|tensors| - 1]) + |last.bytes| + |last.shape| * 8 + 64
  }

  function WorkingSet(requests: seq<Request>): nat
  {
    if requests == [] then 0
    else
      var last := requests[|requests| - 1];
      WorkingSet(requests[..|requests| - 1]) + |last.bytes| + Size(last.tensors)
  }

  predicate Matches(first: Request, r: Request, limit: nat)
  {
    && !r.failed && r.sequence == first.sequence && r.operation == first.operation
    && (first.operation.Bytes? || r.bytes == [])
    && forall t | t in r.tensors :: ValidPayload(t, limit)
  }

  function Root(op: Operation): Option<nat>
  {
    match op
    case Broadcast(r) => Some(r)
    case Reduce(r, _) => Some(r)
    case Gather(r) => Some(r)
    case Scatter(r) => Some(r)
    case _ => None
  }

  predicate RootInside(op: Operation, world: nat)
  {
    Root(op).Some? ==> Root(op).value < world
  }

  /** How many tensors a rank must bring. */
  function Expected(op: Operation, world: nat, rank: nat): nat
  {
    match op
    case Barrier => 0
    case Bytes => 0
    case Scatter(root) => if rank == root then world else 0
    case ReduceScatter(_) => world
    case AllToAll => world
    case _ => 1
  }

  predicate Counted(requests: seq<Request>)
    requires requests != []
  {
    forall i | 0 <= i < |requests| :: |requests[i].tensors| == Expected(requests[0].operation, |requests|, i)
  }

  function Flat(requests: seq<Request>): seq<Payload>
  {
    if requests == [] then []
    else Flat(requests[..|requests| - 1]) + requests[|requests| - 1].tensors
  }

  /** The tensors brought for `rank`, in rank order. */
  function Column(requests: seq<Request>, rank: nat): (c: seq<Payload>)
    requires forall i | 0 <= i < |requests| :: rank < |requests[i].tensors|
    ensures |c| == |requests|
  {
    seq(|requests|, i requires 0 <= i < |requests| => requests[i].tensors[rank])
  }

  /** Everything the coordinator checks before combining. */
  predicate Agreed(requests: seq<Request>, limit: nat)
    requires requests != []
  {
    && WorkingSet(requests) * |requests| <= limit
    && (forall i | 0 <= i < |requests| :: Matches(requests[0], requests[i], limit))
    && RootInside(requests[0].operation, |requests|)
    && Counted(requests)
    && Alike(Flat(requests))
  }

  function Bare(sequence: nat, tensors: seq<Payload>): Response
  {
    Response(sequence, false, tensors, [])
  }

  function Answer(sequence: nat, tensor: Option<Payload>): Option<Response>
  {
    if tensor.Some? then Some(Bare(sequence, [tensor.value])) else None
  }

  /** What `rank` gets back; `None` if a reduction fails. */
  function Entry(requests: seq<Request>, limit: nat, a: Arithmetic, rank: nat): Option<Response>
    requires requests != [] && Agreed(requests, limit) && rank < |requests|
  {
    var s := requests[0].sequence;
    match requests[0].operation
    case Barrier => Some(Bare(s, []))
    case Bytes => Some(Response(s, false, [], seq(|requests|, i requires 0 <= i < |requests| => requests[i].bytes)))
    case Broadcast(root) => Some(Bare(s, [requests[root].tensors[0]]))
    case AllReduce(op) => Answer(s, Reduced(a, op, Column(requests, 0), limit))
    case Reduce(root, op) =>
      if rank == root then Answer(s, Reduced(a, op, Column(requests, 0), limit)) else Some(Bare(s, []))
    case AllGather => Some(Bare(s, Column(requests, 0)))
    case Gather(root) => Some(Bare(s, if rank == root then Column(requests, 0) else []))
    case Scatter(root) => Some(Bare(s, [requests[root].tensors[rank]]))
    case ReduceScatter(op) => Answer(s, Reduced(a, op, Column(requests, rank), limit))
    case AllToAll => Some(Bare(s, Column(requests, rank)))
  }

  predicate Computable(requests: seq<Request>, limit: nat, a: Arithmetic)
    requires requests != [] && Agreed(requests, limit)
  {
    forall r | 0 <= r < |requests| :: Entry(requests, limit, a, r).Some?
  }

  /** One response per rank, or `None` for an error sent to every rank. */
  function Evaluated(requests: seq<Request>, limit: nat, a: Arithmetic): (r: Option<seq<Response>>)
    requires requests != []
    ensures r.Some? ==> |r.value| == |requests|
  {
    if Agreed(requests, limit) && Computable(requests, limit, a) then
      Some(seq(|requests|, r requires 0 <= r < |requests| => Entry(requests, limit, a, r).value))
    else None
  }

  // ---- the coordinator's loops ----

  lemma {:induction false} SizePrefix(tensors: seq<Payload>, i: nat)
    requires i <= |tensors|
    ensures Size(tensors[..i]) <= Size(tensors)
  {
    if i < |tensors| {
      SizePrefix(tensors[..|tensors| - 1], i);
      assert tensors[..|tensors| - 1][..i] == tensors[..i];
    } else {
      assert tensors[..i] == tensors;
    }
  }

  lemma {:induction false} WorkingSetPrefix(requests: seq<Request>, i: nat)
    requires i <= |requests|
    ensures WorkingSet(requests[..i]) <= WorkingSet(requests)
  {
    if i < |requests| {
      WorkingSetPrefix(requests[..|requests| - 1], i);
      assert requests[..|requests| - 1][..i] == requests[..i];
    } else {
      assert requests[..i] == requests;
    }
  }

  method SizeOf(start: nat, tensors: seq<Payload>) returns (total: Option<nat>)
    requires start <= USIZE_MAX
    ensures total == if start + Size(tensors) <= USIZE_MAX then Some(start + Size(tensors)) else None
  {
    var sum := start;
    for i := 0 to |tensors|
      invariant sum == start + Size(tensors[..i]) <= USIZE_MAX
    {
      assert tensors[..i + 1][..i] == tensors[..i];
      SizePrefix(tensors, i + 1);
      var more := |tensors[i].bytes| + |tensors[i].shape| * 8 + 64;
      if sum + more > USIZE_MAX {
        return None;
      }
      sum := sum + more;
    }
    assert tensors[..|tensors|] == tensors;
    return Some(sum);
  }

  /** The bound on response copies, in 64-bit arithmetic that treats overflow as too large. */
  method FitsWorkingSet(requests: seq<Request>, limit: nat) returns (r: bool)
    requires requests != [] && limit <= USIZE_MAX
    ensures r <==> WorkingSet(requests) * |requests| <= limit
  {
    var sum := 0;
    for i := 0 to |requests|
      invariant sum == WorkingSet(requests[..i]) <= USIZE_MAX
    {
      assert requests[..i + 1][..i] == requests[..i];
      WorkingSetPrefix(requests, i + 1);
      if sum + |requests[i].bytes| > USIZE_MAX {
        TooLarge(WorkingSet(requests), |requests|, limit);
        return false;
      }
      var next := SizeOf(sum + |requests[i].bytes|, requests[i].tensors);
      if next.None? {
        TooLarge(WorkingSet(requests), |requests|, limit);
        return false;
      }
      sum := next.value;
    }
    assert requests[..|requests|] == requests;
    return sum * |requests| <= USIZE_MAX && sum * |requests| <= limit;
  }

  lemma TooLarge(set_: nat, world: nat, limit: nat)
    requires limit < set_ && 1 <= world
    ensures limit < set_ * world
  {
    assert set_ * 1 <= set_ * world;
  }

  method AllMatch(requests: seq<Request>, limit: nat) returns (r: bool)
    requires requests != []
    ensures r <==> forall i | 0 <= i < |requests| :: Matches(requests[0], requests[i], limit)
  {
    for i := 0 to |requests|
      invariant forall k | 0 <= k < i :: Matches(requests[0], requests[k], limit)
    {
      if !Matches(requests[0], requests[i], limit) {
        return false;
      }
    }
    return true;
  }

  method FlatLoop(requests: seq<Request>) returns (all: seq<Payload>)
    ensures all == Flat(requests)
  {
    all := [];
    for i := 0 to |requests|
      invariant all == Flat(requests[..i])
    {
      assert requests[..i + 1][..i] == requests[..i];
      all := all + requests[i].tensors;
    }
    assert requests[..|requests|] == requests;
  }

  method AgreedLoop(requests: seq<Request>, limit: nat) returns (r: bool)
    requires requests != [] && limit <= USIZE_MAX
    ensures r == Agreed(requests, limit)
  {
    r := FitsWorkingSet(requests, limit);
    if r {
      r := AllMatch(requests, limit);
    }
    if !r || !RootInside(requests[0].operation, |requests|) || !Counted(requests) {
      return false;
    }
    var all := FlatLoop(requests);
    r := SameSpecs(all);
  }

  /** One rank's response. `total` is the reduction shared by AllReduce and Reduce. */
  method EntryOf(requests: seq<Request>, limit: nat, a: Arithmetic, total: Option<Payload>,
                 rank: nat)
    returns (r: Option<Response>)
    requires requests != [] && Agreed(requests, limit) && rank < |requests|
    requires TotalOf(requests, limit, a) == total
    ensures r == Entry(requests, limit, a, rank)
  {
    var world, s := |requests|, requests[0].sequence;
    match requests[0].operation {
      case Barrier => return Some(Bare(s, []));
      case Bytes => return Some(Response(s, false, [], seq(world, i requires 0 <= i < world => requests[i].bytes)));
      case Broadcast(root) => return Some(Bare(s, [requests[root].tensors[0]]));
      case AllReduce(_) => return Answer(s, total);
      case Reduce(root, _) => return if rank == root then Answer(s, total) else Some(Bare(s, []));
      case AllGather => return Some(Bare(s, Column(requests, 0)));
      case Gather(root) => return Some(Bare(s, if rank == root then Column(requests, 0) else []));
      case Scatter(root) => return Some(Bare(s, [requests[root].tensors[rank]]));
      case ReduceScatter(op) =>
        var own := ReduceLoop(a, op, Column(requests, rank), limit);
        return Answer(s, own);
      case AllToAll => return Some(Bare(s, Column(requests, rank)));
    }
  }

  function TotalOf(requests: seq<Request>, limit: nat, a: Arithmetic): Option<Payload>
    requires requests != [] && Agreed(requests, limit)
  {
    match requests[0].operation
    case AllReduce(op) => Reduced(a, op, Column(requests, 0), limit)
    case Reduce(_, op) => Reduced(a, op, Column(requests, 0), limit)
    case _ => None
  }

  /** `evaluate`: the checks, then one response per rank. */
  method Evaluate(requests: seq<Request>, limit: nat, a: Arithmetic) returns (result: Option<seq<Response>>)
    requires requests != [] && limit <= USIZE_MAX
    ensures result == Evaluated(requests, limit, a)
  {
    var agreed := AgreedLoop(requests, limit);
    if !agreed {
      return None;
    }
    var op := requests[0].operation;
    var total: Option<Payload> := None;
    if op.AllReduce? || op.Reduce? {
      total := ReduceLoop(a, op.op, Column(requests, 0), limit);
    }
    assert total == TotalOf(requests, limit, a);
    var out: seq<Response> := [];
    for rank := 0 to |requests|
      invariant |out| == rank
      invariant forall r | 0 <= r < rank :: Entry(requests, limit, a, r) == Some(out[r])
    {
      var entry := EntryOf(requests, limit, a, total, rank);
      if entry.None? {
        return None;
      }
      out := out + [entry.value];
    }
    assert Computable(requests, limit, a);
    assert Evaluated(requests, limit, a).value == out;
    return Some(out);
  }

  // ---- laws ----

  /** `again` sends on what each rank of `requests` was given. */
  predicate Resends(requests: seq<Request>, again: seq<Request>, limit: nat, a: Arithmetic)
    requires requests != [] && Evaluated(requests, limit, a).Some?
  {
    |again| == |requests| &&
    forall r | 0 <= r < |again| :: again[r].tensors == Evaluated(requests, limit, a).value[r].tensors
  }

  /** Exchanging twice brings every tensor home. */
  lemma AllToAllTwice(requests: seq<Request>, again: seq<Request>, limit: nat, a: Arithmetic, rank: nat)
    requires requests != [] && Evaluated(requests, limit, a).Some? && requests[0].operation.AllToAll?
    requires Resends(requests, again, limit, a)
    requires Evaluated(again, limit, a).Some? && again[0].operation.AllToAll?
    requires rank < |requests|
    ensures Evaluated(again, limit, a).value[rank].tensors == requests[rank].tensors
  {
    var home := Column(again, rank);
    forall i | 0 <= i < |requests|
      ensures home[i] == requests[rank].tensors[i]
    {
      assert again[i].tensors == Column(requests, i);
    }
    assert home == requests[rank].tensors;
  }

  /** Scattering what one root gathered gives every rank its own tensor back. */
  lemma ScatterUndoesGather(requests: seq<Request>, again: seq<Request>, limit: nat, a: Arithmetic, rank: nat)
    requires requests != [] && Evaluated(requests, limit, a).Some? && requests[0].operation.Gather?
    requires Resends(requests, again, limit, a)
    requires Evaluated(again, limit, a).Some? && again[0].operation == Scatter(requests[0].operation.root)
    requires rank < |requests|
    ensures Evaluated(again, limit, a).value[rank].tensors == requests[rank].tensors
  {
    var root := requests[0].operation.root;
    assert again[root].tensors == Column(requests, 0);
    assert requests[rank].tensors == [requests[rank].tensors[0]];
  }

  /** `requests` narrowed to the tensors addressed to `rank`, all-reduced instead of scattered. */
  function ForRank(requests: seq<Request>, op: ReduceOp, rank: nat): seq<Request>
    requires forall i | 0 <= i < |requests| :: rank < |requests[i].tensors|
  {
    seq(|requests|, i requires 0 <= i < |requests| =>
      requests[i].(operation := AllReduce(op), tensors := [requests[i].tensors[rank]]))
  }

  /** A reduce-scatter gives each rank the all-reduce of the tensors addressed to it. */
  lemma ReduceScatterIsAllReduce(requests: seq<Request>, limit: nat, a: Arithmetic, rank: nat)
    requires requests != [] && Evaluated(requests, limit, a).Some? && requests[0].operation.ReduceScatter?
    requires rank < |requests|
    requires Evaluated(ForRank(requests, requests[0].operation.op, rank), limit, a).Some?
    ensures Evaluated(requests, limit, a).value[rank] ==
      Evaluated(ForRank(requests, requests[0].operation.op, rank), limit, a).value[rank]
  {
    var narrowed := ForRank(requests, requests[0].operation.op, rank);
    assert Column(narrowed, 0) == Column(requests, rank);
  }
}
