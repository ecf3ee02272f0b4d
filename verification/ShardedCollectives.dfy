/** The reductions of sharded training (src/distributed/training.rs) are the
    coordinator's (src/distributed/process.rs): what `ShardedTraining` calls a mean
    is what a reduce-scatter returns, when payload arithmetic works element by element. */
module ShardedCollectives {
  import opened Wrappers
  import opened Collectives
  import Sharding
  import ShardedTraining

  /** How a vector of elements travels. */
  type Packing<!T> = seq<T> -> Payload

  /** Adding and dividing payloads is adding and dividing their elements. */
  ghost predicate ElementWise<T(!new), S>(u: ShardedTraining.Rules<T, S>, a: Arithmetic, pack: Packing<T>)
  {
    && (forall x: seq<T>, y: seq<T> | |x| == |y| :: a.combine(Mean, pack(x), pack(y)) == Some(pack(Added(u, x, y))))
    && (forall x: seq<T>, n: nat | 0 < n :: a.divide(pack(x), n) == Some(pack(Divided(u, x, n))))
    && forall x: seq<T> :: !pack(x).kind.Int64?
  }

  function Added<T, S>(u: ShardedTraining.Rules<T, S>, x: seq<T>, y: seq<T>): (r: seq<T>)
    requires |x| == |y|
    ensures |r| == |x|
  {
    seq(|x|, i requires 0 <= i < |x| => u.add(x[i], y[i]))
  }

  function Divided<T, S>(u: ShardedTraining.Rules<T, S>, x: seq<T>, n: nat): (r: seq<T>)
    ensures |r| == |x|
  {
    seq(|x|, i requires 0 <= i < |x| => u.divide(x[i], n))
  }

  function Packed<T>(pack: Packing<T>, tensors: seq<seq<T>>): (r: seq<Payload>)
    ensures |r| == |tensors|
  {
    seq(|tensors|, q requires 0 <= q < |tensors| => pack(tensors[q]))
  }

  /** The elementwise sum of the first `count` tensors. */
  ghost function Partial<T, S>(u: ShardedTraining.Rules<T, S>, tensors: seq<seq<T>>, n: nat, count: nat): (r: seq<T>)
    requires ShardedTraining.SameLength(tensors, n) && 1 <= count <= |tensors|
    ensures |r| == n
  {
    seq(n, i requires 0 <= i < n => ShardedTraining.Sum(u.add, ShardedTraining.At(tensors[..count], n, i)))
  }

  lemma PartialNext<T, S>(u: ShardedTraining.Rules<T, S>, tensors: seq<seq<T>>, n: nat, count: nat)
    requires ShardedTraining.SameLength(tensors, n) && 1 < count <= |tensors|
    ensures Partial(u, tensors, n, count) == Added(u, Partial(u, tensors, n, count - 1), tensors[count - 1])
  {
    forall i | 0 <= i < n
      ensures Partial(u, tensors, n, count)[i] == u.add(Partial(u, tensors, n, count - 1)[i], tensors[count - 1][i])
    {
      var all := ShardedTraining.At(tensors[..count], n, i);
      assert all[..count - 1] == ShardedTraining.At(tensors[..count - 1], n, i);
    }
  }

  lemma PartialFirst<T, S>(u: ShardedTraining.Rules<T, S>, tensors: seq<seq<T>>, n: nat)
    requires ShardedTraining.SameLength(tensors, n)
    ensures Partial(u, tensors, n, 1) == tensors[0]
  {
  }

  lemma FoldStep<T(!new), S>(u: ShardedTraining.Rules<T, S>, a: Arithmetic, pack: Packing<T>, inputs: seq<Payload>,
                             count: nat, x: seq<T>, y: seq<T>)
    requires ElementWise(u, a, pack) && 1 < count <= |inputs| && |x| == |y|
    requires Folded(a, Mean, inputs, count - 1) == Some(pack(x)) && inputs[count - 1] == pack(y)
    ensures Folded(a, Mean, inputs, count) == Some(pack(Added(u, x, y)))
  {
  }

  /** The coordinator's fold is the elementwise sum in rank order. */
  lemma {:induction false} FoldedIsPartial<T(!new), S>(u: ShardedTraining.Rules<T, S>, a: Arithmetic, pack: Packing<T>,
                                                       tensors: seq<seq<T>>, n: nat, count: nat)
    requires ShardedTraining.SameLength(tensors, n) && ElementWise(u, a, pack) && 1 <= count <= |tensors|
    ensures Folded(a, Mean, Packed(pack, tensors), count) == Some(pack(Partial(u, tensors, n, count)))
    decreases count
  {
    assert Packed(pack, tensors)[count - 1] == pack(tensors[count - 1]);
    if count == 1 {
      PartialFirst(u, tensors, n);
    } else {
      FoldedIsPartial(u, a, pack, tensors, n, count - 1);
      PartialNext(u, tensors, n, count);
      FoldStep(u, a, pack, Packed(pack, tensors), count, Partial(u, tensors, n, count - 1), tensors[count - 1]);
    }
  }

  /** Reducing packed tensors with a mean gives the packed elementwise mean. */
  lemma ReducedIsMean<T(!new), S>(u: ShardedTraining.Rules<T, S>, a: Arithmetic, pack: Packing<T>,
                                  tensors: seq<seq<T>>, n: nat,
                                  limit: nat)
    requires ShardedTraining.SameLength(tensors, n) && ElementWise(u, a, pack)
    ensures Reduced(a, Mean, Packed(pack, tensors), limit) ==
      if ValidPayload(pack(ShardedTraining.Mean(u, tensors, n)), limit) then
        Some(pack(ShardedTraining.Mean(u, tensors, n)))
      else None
  {
    FoldedIsPartial(u, a, pack, tensors, n, |tensors|);
    assert tensors[..|tensors|] == tensors;
    assert Divided(u, Partial(u, tensors, n, |tensors|), |tensors|) == ShardedTraining.Mean(u, tensors, n);
  }

  /** What every rank submits: its gradient, cut for every rank. */
  ghost predicate SubmitsShards<T>(pack: Packing<T>, zero: T, gradients: seq<seq<T>>, n: nat, requests: seq<Request>)
    requires ShardedTraining.SameLength(gradients, n)
  {
    && |requests| == |gradients| && requests[0].operation == ReduceScatter(Mean)
    && forall q | 0 <= q < |requests| ::
      requests[q].tensors == Packed(pack, Sharding.Shards(gradients[q], zero, n, 1, |gradients|))
  }

  /** The coordinator's reduce-scatter gives each rank its chunk of the mean gradient. */
  lemma ReduceScatterIsScatteredMean<T(!new), S>(u: ShardedTraining.Rules<T, S>, a: Arithmetic, pack: Packing<T>,
                                                 gradients: seq<seq<T>>, n: nat, requests: seq<Request>, limit: nat,
                                                   r: nat)
    requires ShardedTraining.SameLength(gradients, n) && ElementWise(u, a, pack)
    requires SubmitsShards(pack, u.zero, gradients, n, requests) && r < |requests|
    requires Evaluated(requests, limit, a).Some?
    ensures Evaluated(requests, limit, a).value[r].tensors == [pack(ShardedTraining.ScatteredMean(u, gradients, n, r))]
  {
    var world := |gradients|;
    var cut := seq(world, q requires 0 <= q < world => Sharding.Shard(gradients[q], u.zero, n, 1, r, world));
    forall q | 0 <= q < world
      ensures Column(requests, r)[q] == pack(cut[q])
    {
      assert requests[q].tensors[r] == pack(Sharding.Shards(gradients[q], u.zero, n, 1, world)[r]);
    }
    assert Column(requests, r) == Packed(pack, cut);
    ReducedIsMean(u, a, pack, cut, Sharding.Chunk(n, world), limit);
    assert Evaluated(requests, limit, a).value[r] == Entry(requests, limit, a, r).value;
  }

  /** The coordinator's all-gather gives each rank every rank's part, and those make up the tensor. */
  lemma AllGatherMakesWhole<T>(a: Arithmetic, pack: Packing<T>, parts: seq<seq<T>>, full: seq<T>,
                               requests: seq<Request>, limit: nat,
                               r: nat)
    requires Sharding.Represents(parts, full, |parts|) && |requests| == |parts| && r < |requests|
    requires requests[0].operation == AllGather && Evaluated(requests, limit, a).Some?
    requires forall q | 0 <= q < |requests| :: requests[q].tensors == [pack(parts[q])]
    ensures Evaluated(requests, limit, a).value[r].tensors == Packed(pack, parts)
    ensures |full| <= |Sharding.Flat(parts)| && Sharding.Flat(parts)[..|full|] == full
  {
    assert Column(requests, 0) == Packed(pack, parts);
    assert Evaluated(requests, limit, a).value[r] == Entry(requests, limit, a, r).value;
    Sharding.GatherRepresented(parts, full, |parts|);
  }
}
