/** Training on parameter shards, run on the process group, refines training on full
    parameters: what the collectives of a finished step give each rank is what the
    sharded step of `ShardedTraining` computes with. */
module ShardedRefinement {
  import opened Wrappers
  import opened RoundResults
  import opened ShardedCollectives
  import opened ShardedSteps
  import opened ShardedTraining
  import Collectives
  import ProcessGroup
  import Sharding
  import ShardedRuns

  /** One training step of a sharded model: the chunks every rank stores, and how elements travel. */
  datatype Session<!T, !S> = Session(
    rules: Rules<T, S>, pack: Packing<T>, loss: Loss<T>, lengths: seq<nat>, step: nat, locals: seq<Model<T, S>>)

  /** The parameters each rank gathers. */
  function Weights<T, S>(x: Session<T, S>): (w: seq<seq<T>>)
    requires Chunked(x.locals, x.lengths)
    ensures |w| == |x.lengths|
  {
    ShardedTraining.Gathered(x.locals, x.lengths)
  }

  /** Backward gives every rank a gradient of each gathered parameter. */
  predicate Trainable<T, S>(x: Session<T, S>)
  {
    && Chunked(x.locals, x.lengths) && Widths(Weights(x), x.lengths)
    && Computed(Gradients(x.loss, |x.locals|, x.step, Weights(x)), Weights(x))
  }

  /** Every rank's gradient of parameter `j`. */
  function GradientOf<T, S>(x: Session<T, S>, j: nat): (r: seq<seq<T>>)
    requires Trainable(x) && j < |x.lengths|
    ensures SameLength(r, x.lengths[j]) && |r| == |x.locals|
  {
    ForParameter(Gradients(x.loss, |x.locals|, x.step, Weights(x)), Weights(x), j)
  }

  /** What gathering gives, packed. */
  function PackedFull<T, S>(x: Session<T, S>): (full: Full)
    requires Chunked(x.locals, x.lengths)
    ensures |full| == |x.lengths|
  {
    seq(|x.lengths|, j requires 0 <= j < |x.lengths| => Packed(x.pack, Parts(x.locals, x.lengths, j)))
  }

  predicate Brought<T(==), S>(x: Session<T, S>, w: Worker, q: nat, j: nat)
    requires Trainable(x) && q < |x.locals| && j < |x.lengths|
  {
    && Shard(w, j) == Some(x.pack(x.locals[q].weights[j]))
    && w.cut(PackedFull(x), j) ==
       Pieces(Packed(x.pack, Sharding.Shards(GradientOf(x, j)[q], x.rules.zero, x.lengths[j], 1, |x.locals|)))
  }

  /** The ranks bring the shards of this model, and what they cut are its gradients. */
  predicate Carries<T(==), S>(x: Session<T, S>, b: Batch)
    requires Trainable(x)
  {
    && |b.workers| == |x.locals| && b.count == |x.lengths|
    && forall q, j | 0 <= q < |x.locals| && 0 <= j < |x.lengths| :: Brought(x, b.workers[q], q, j)
  }

  lemma FullCarried<T, S>(x: Session<T, S>, b: Batch)
    requires Trainable(x) && Carries(x, b)
    ensures Transportable(b, b.count) && FullOf(b, b.count) == PackedFull(x)
  {
    forall q, j | 0 <= q < |b.workers| && 0 <= j < b.count
      ensures Shard(b.workers[q], j) == Some(x.pack(x.locals[q].weights[j]))
    {
      assert Brought(x, b.workers[q], q, j);
    }
    forall j | 0 <= j < b.count
      ensures FullOf(b, b.count)[j] == Packed(x.pack, Parts(x.locals, x.lengths, j))
    {
    }
  }

  // ---- what a rank is given ----

  /** Every hand is a cut gradient. */
  predicate CutHands<T, S>(u: Rules<T, S>, pack: Packing<T>, own: seq<seq<T>>, n: nat,
                           hands: seq<seq<Collectives.Payload>>)
    requires SameLength(own, n)
  {
    |hands| == |own| && forall q | 0 <= q < |hands| ::
      hands[q] == Packed(pack, Sharding.Shards(own[q], u.zero, n, 1, |own|))
  }

  lemma DealtShards<T, S>(u: Rules<T, S>, pack: Packing<T>, own: seq<seq<T>>, n: nat,
                          hands: seq<seq<Collectives.Payload>>, r: nat)
    returns (cut: seq<seq<T>>)
    requires SameLength(own, n) && CutHands(u, pack, own, n, hands) && r < |own|
    ensures SameLength(cut, Sharding.Chunk(n, |own|)) && |cut| == |own|
    ensures Mean(u, cut, Sharding.Chunk(n, |own|)) == ScatteredMean(u, own, n, r)
    ensures (forall q | 0 <= q < |hands| :: r < |hands[q]|) && Dealt(hands, r) == Packed(pack, cut)
  {
    var world := |own|;
    cut := seq(world, q requires 0 <= q < world => Sharding.Shard(own[q], u.zero, n, 1, r, world));
    forall q | 0 <= q < world
      ensures r < |hands[q]| && hands[q][r] == pack(cut[q])
    {
      assert hands[q][r] == pack(Sharding.Shards(own[q], u.zero, n, 1, world)[r]);
    }
  }

  lemma MeanOfHands<T(!new), S>(u: Rules<T, S>, a: Collectives.Arithmetic, pack: Packing<T>, own: seq<seq<T>>, n: nat,
                                hands: seq<seq<Collectives.Payload>>, r: nat, limit: nat)
    requires ElementWise(u, a, pack) && SameLength(own, n) && CutHands(u, pack, own, n, hands) && r < |own|
    ensures forall q | 0 <= q < |hands| :: r < |hands[q]|
    ensures var mean := Collectives.Reduced(a, Collectives.Mean, Dealt(hands, r), limit);
      mean.Some? ==> mean.value == pack(ScatteredMean(u, own, n, r))
  {
    var cut := DealtShards(u, pack, own, n, hands, r);
    ReducedIsMean(u, a, pack, cut, Sharding.Chunk(n, |own|), limit);
  }

  lemma HandsCut<T, S>(x: Session<T, S>, b: Batch, j: nat)
    requires Trainable(x) && Carries(x, b) && j < b.count && ShardedRuns.Cuttable(b, j)
    ensures CutHands(x.rules, x.pack, GradientOf(x, j), x.lengths[j], ShardedRuns.HandsOf(b, j))
  {
    FullCarried(x, b);
    var own, hands := GradientOf(x, j), ShardedRuns.HandsOf(b, j);
    forall q | 0 <= q < |hands|
      ensures hands[q] == Packed(x.pack, Sharding.Shards(own[q], x.rules.zero, x.lengths[j], 1, |own|))
    {
      assert Brought(x, b.workers[q], q, j);
    }
  }

  /** A finished step gave the rank its chunk of every mean gradient. */
  lemma PieceIsScatteredMean<T(!new), S>(x: Session<T, S>, c: ProcessGroup.Config, b: Batch, r: nat,
                                         results: seq<Collectives.Response>, j: nat)
    requires ElementWise(x.rules, c.arithmetic, x.pack) && Trainable(x) && Carries(x, b)
    requires ShardedRuns.Trained(c, b, r, results) && j < b.count
    ensures results[7 + b.count + j].tensors ==
      [x.pack(ScatteredMean(x.rules, GradientOf(x, j), x.lengths[j], r))]
  {
    assert ShardedRuns.PieceGiven(c, b, r, results, j);
    HandsCut(x, b, j);
    MeanOfHands(x.rules, c.arithmetic, x.pack, GradientOf(x, j), x.lengths[j], ShardedRuns.HandsOf(b, j), r, c.limit);
  }

  // ---- the local update ----

  /** Gradients of the shapes of the stored chunks. */
  predicate Seeds<T, S>(m: Model<T, S>, given: seq<seq<T>>)
  {
    Fits(m) && SameShapes(m.weights, given)
  }

  /** The optimizer's step with the gradients the rank was given. */
  function UpdatedWith<T, S>(u: Rules<T, S>, step: nat, m: Model<T, S>, given: seq<seq<T>>): Model<T, S>
    requires Seeds(m, given)
  {
    Model(seq(|m.weights|, j requires 0 <= j < |m.weights| => Updated(u, step, m.weights[j], m.slots[j], given[j]).0),
          seq(|m.weights|, j requires 0 <= j < |m.weights| => Updated(u, step, m.weights[j], m.slots[j], given[j]).1))
  }

  /** `given` is what the results say, unpacked. */
  predicate Unpacked<T>(pack: Packing<T>, count: nat, results: seq<Collectives.Response>, given: seq<seq<T>>)
  {
    |given| == count && 7 + 2 * count <= |results| &&
    forall j | 0 <= j < count :: results[7 + count + j].tensors == [pack(given[j])]
  }

  ghost predicate Faithful<T(!new)>(pack: Packing<T>)
  {
    forall x, y :: pack(x) == pack(y) ==> x == y
  }

  lemma GivenIsScatteredMean<T(!new), S>(x: Session<T, S>, c: ProcessGroup.Config, b: Batch, r: nat,
                                         results: seq<Collectives.Response>, given: seq<seq<T>>, j: nat)
    requires ElementWise(x.rules, c.arithmetic, x.pack) && Faithful(x.pack) && Trainable(x) && Carries(x, b)
    requires ShardedRuns.Trained(c, b, r, results) && Unpacked(x.pack, b.count, results, given) && j < b.count
    ensures given[j] == ScatteredMean(x.rules, GradientOf(x, j), x.lengths[j], r)
  {
    PieceIsScatteredMean(x, c, b, r, results, j);
    var mean := ScatteredMean(x.rules, GradientOf(x, j), x.lengths[j], r);
    assert [x.pack(given[j])][0] == [x.pack(mean)][0];
  }

  /** What every rank stores after the step on values. */
  function Next<T, S>(x: Session<T, S>): (next: seq<Model<T, S>>)
    requires Trainable(x)
    ensures |next| == |x.locals|
  {
    ShardedStep(x.rules, x.loss, x.lengths, x.step, x.locals)
  }

  /** What the rank stores after a finished step on the process group is the same. */
  lemma RankStep<T(!new), S>(x: Session<T, S>, c: ProcessGroup.Config, b: Batch, r: nat,
                             results: seq<Collectives.Response>, given: seq<seq<T>>)
    requires ElementWise(x.rules, c.arithmetic, x.pack) && Faithful(x.pack) && Trainable(x) && Carries(x, b)
    requires ShardedRuns.Trained(c, b, r, results) && Unpacked(x.pack, b.count, results, given)
    ensures Seeds(x.locals[r], given) && UpdatedWith(x.rules, x.step, x.locals[r], given) == Next(x)[r]
  {
    var m := x.locals[r];
    assert ChunkedRank(m, x.lengths, |x.locals|);
    forall j | 0 <= j < b.count
      ensures |given[j]| == |m.weights[j]| == |m.slots[j]|
      ensures Updated(x.rules, x.step, m.weights[j], m.slots[j], given[j]) ==
        LocalUpdate(x.rules, x.step, m, Weights(x), x.lengths, Gradients(x.loss, |x.locals|, x.step, Weights(x)), r, j)
    {
      GivenIsScatteredMean(x, c, b, r, results, given, j);
    }
  }

  /** What each rank has after the step, from what it was given. */
  ghost predicate Stepped<T(!new), S>(x: Session<T, S>, c: ProcessGroup.Config, b: Batch,
                                      results: seq<seq<Collectives.Response>>, given: seq<seq<seq<T>>>,
                                      next: seq<Model<T, S>>)
  {
    |results| == |given| == |next| == |x.locals| && forall r | 0 <= r < |x.locals| ::
      ShardedRuns.Trained(c, b, r, results[r]) && Unpacked(x.pack, b.count, results[r], given[r]) &&
      Seeds(x.locals[r], given[r]) && next[r] == UpdatedWith(x.rules, x.step, x.locals[r], given[r])
  }

  /** A step that every rank finished on the process group is one step on the full parameters. */
  lemma FinishedStepRefines<T(!new), S>(x: Session<T, S>, m: Model<T, S>, c: ProcessGroup.Config, b: Batch,
                                        results: seq<seq<Collectives.Response>>, given: seq<seq<seq<T>>>,
                                        next: seq<Model<T, S>>)
    requires ElementWise(x.rules, c.arithmetic, x.pack) && Faithful(x.pack) && ShapedLoss(x.loss)
    requires Holds(x.locals, m, x.lengths) && Trainable(x) && Carries(x, b)
    requires Stepped(x, c, b, results, given, next)
    ensures Computed(Gradients(x.loss, |x.locals|, x.step, m.weights), m.weights)
    ensures Holds(next, FullStep(x.rules, x.loss, |x.locals|, x.step, m), x.lengths)
  {
    StepRefines(x.rules, x.loss, x.lengths, x.step, x.locals, m);
    forall r | 0 <= r < |x.locals|
      ensures next[r] == Next(x)[r]
    {
      RankStep(x, c, b, r, results[r], given[r]);
    }
    assert next == Next(x);
  }
}
