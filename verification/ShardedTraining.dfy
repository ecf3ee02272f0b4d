/** Training on parameter shards (src/distributed/training.rs) refines training
    on full parameters, for every optimizer that treats each element alone. */
module ShardedTraining {
  import opened Sharding

  /** `update(step, weight, slot, gradient)` is one element's update; `add` and
      `divide` are the element arithmetic of the mean reduction. */
  datatype Rules<!T, !S> = Rules(
    zero: T, add: (T, T) -> T, divide: (T, nat) -> T,
    update: (nat, T, S, T) -> (T, S))

  /** Summed left to right in rank order, as the reduction does. */
  function Sum<T>(add: (T, T) -> T, values: seq<T>): T
    requires values != []
  {
    if |values| == 1 then values[0] else add(Sum(add, values[..|values| - 1]), values[|values| - 1])
  }

  predicate SameLength<T>(tensors: seq<seq<T>>, n: nat)
  {
    tensors != [] && forall q | 0 <= q < |tensors| :: |tensors[q]| == n
  }

  function At<T>(tensors: seq<seq<T>>, n: nat, i: nat): (r: seq<T>)
    requires SameLength(tensors, n) && i < n
    ensures |r| == |tensors|
  {
    seq(|tensors|, q requires 0 <= q < |tensors| => tensors[q][i])
  }

  /** The elementwise mean of every rank's tensor. */
  function Mean<T, S>(u: Rules<T, S>, tensors: seq<seq<T>>, n: nat): (r: seq<T>)
    requires SameLength(tensors, n)
    ensures |r| == n
  {
    seq(n, i requires 0 <= i < n => u.divide(Sum(u.add, At(tensors, n, i)), |tensors|))
  }

  /** What reduce-scatter with mean gives rank `r`: the mean of the shards cut for it. */
  function ScatteredMean<T, S>(u: Rules<T, S>, gradients: seq<seq<T>>, n: nat, r: nat): (s: seq<T>)
    requires SameLength(gradients, n)
    ensures |s| == Chunk(n, |gradients|)
  {
    var world := |gradients|;
    var cut := seq(world, q requires 0 <= q < world => Shard(gradients[q], u.zero, n, 1, r, world));
    Mean(u, cut, Chunk(n, world))
  }

  lemma MeanRepresented<T, S>(u: Rules<T, S>, gradients: seq<seq<T>>, n: nat, r: nat)
    requires SameLength(gradients, n) && r < |gradients|
    ensures Represented(ScatteredMean(u, gradients, n, r), Mean(u, gradients, n), r, |gradients|)
  {
    var world := |gradients|;
    var cut := seq(world, q requires 0 <= q < world => Shard(gradients[q], u.zero, n, 1, r, world));
    var full, part := Mean(u, gradients, n), ScatteredMean(u, gradients, n, r);
    FirstOrdered(n, r, world);
    forall k: nat | k < First(n, r + 1, world) - First(n, r, world) && k < |part|
      ensures part[k] == full[First(n, r, world) + k]
    {
      forall q | 0 <= q < world
        ensures cut[q][k] == gradients[q][First(n, r, world) + k]
      {
        ShardRepresented(gradients[q], u.zero, r, world);
        RepresentedAt(cut[q], gradients[q], r, world, k);
      }
      assert At(cut, Chunk(n, world), k) == At(gradients, n, First(n, r, world) + k);
    }
    RepresentedFrom(part, full, r, world);
  }

  // ---- one tensor's update ----

  function Updated<T, S>(u: Rules<T, S>, step: nat, weights: seq<T>, slots: seq<S>,
                         gradient: seq<T>): (r: (seq<T>, seq<S>))
    requires |weights| == |slots| == |gradient|
    ensures |r.0| == |r.1| == |weights|
  {
    var n := |weights|;
    (seq(n, i requires 0 <= i < n => u.update(step, weights[i], slots[i], gradient[i]).0),
     seq(n, i requires 0 <= i < n => u.update(step, weights[i], slots[i], gradient[i]).1))
  }

  lemma UpdateRepresented<T, S>(u: Rules<T, S>, step: nat, r: nat, world: nat,
                                w: seq<T>, s: seq<S>, g: seq<T>, weights: seq<T>, slots: seq<S>, gradient: seq<T>)
    requires r < world && |weights| == |slots| == |gradient|
    requires Represented(w, weights, r, world) && Represented(s, slots, r, world) && Represented(g, gradient, r, world)
    ensures Represented(Updated(u, step, w, s, g).0, Updated(u, step, weights, slots, gradient).0, r, world)
    ensures Represented(Updated(u, step, w, s, g).1, Updated(u, step, weights, slots, gradient).1, r, world)
  {
    var n := |weights|;
    var first, next := First(n, r, world), First(n, r + 1, world);
    FirstOrdered(n, r, world);
    forall k: nat | k < next - first && k < |w|
      ensures w[k] == weights[first + k] && s[k] == slots[first + k] && g[k] == gradient[first + k]
    {
      RepresentedAt(w, weights, r, world, k);
      RepresentedAt(s, slots, r, world, k);
      RepresentedAt(g, gradient, r, world, k);
    }
    RepresentedFrom(Updated(u, step, w, s, g).0, Updated(u, step, weights, slots, gradient).0, r, world);
    RepresentedFrom(Updated(u, step, w, s, g).1, Updated(u, step, weights, slots, gradient).1, r, world);
  }

  // ---- whole models ----

  /** The parameters' values and their optimizer slots, in name order. */
  datatype Model<T, S> = Model(weights: seq<seq<T>>, slots: seq<seq<S>>)

  /** The gradients rank `q` computes at a step from the full parameters. */
  type Loss<!T> = (nat, nat, seq<seq<T>>) -> seq<seq<T>>

  predicate SameShapes<A, B>(a: seq<seq<A>>, b: seq<seq<B>>)
  {
    |a| == |b| && forall i | 0 <= i < |a| :: |a[i]| == |b[i]|
  }

  /** Backward gives one gradient per parameter, of its shape. */
  ghost predicate ShapedLoss<T(!new)>(loss: Loss<T>)
  {
    forall q, step, weights :: SameShapes(loss(q, step, weights), weights)
  }

  function Gradients<T>(loss: Loss<T>, world: nat, step: nat, weights: seq<seq<T>>): (r: seq<seq<seq<T>>>)
    ensures |r| == world
  {
    seq(world, q requires 0 <= q < world => loss(q, step, weights))
  }

  predicate Computed<T>(gradients: seq<seq<seq<T>>>, weights: seq<seq<T>>)
  {
    gradients != [] && forall q | 0 <= q < |gradients| :: SameShapes(gradients[q], weights)
  }

  /** Every rank's gradient of parameter `i`. */
  function ForParameter<T>(gradients: seq<seq<seq<T>>>, weights: seq<seq<T>>, i: nat): (r: seq<seq<T>>)
    requires Computed(gradients, weights) && i < |weights|
    ensures SameLength(r, |weights[i]|) && |r| == |gradients|
  {
    seq(|gradients|, q requires 0 <= q < |gradients| => gradients[q][i])
  }

  predicate Fits<T, S>(m: Model<T, S>)
  {
    SameShapes(m.weights, m.slots)
  }

  function UpdatedAt<T, S>(u: Rules<T, S>, step: nat, m: Model<T, S>, gradients: seq<seq<seq<T>>>,
                           i: nat): (r: (seq<T>, seq<S>))
    requires Fits(m) && Computed(gradients, m.weights) && i < |m.weights|
    ensures |r.0| == |r.1| == |m.weights[i]|
  {
    Updated(u, step, m.weights[i], m.slots[i], Mean(u, ForParameter(gradients, m.weights, i), |m.weights[i]|))
  }

  /** One training step on full parameters with the all-reduced mean gradient. */
  function FullStep<T, S>(u: Rules<T, S>, loss: Loss<T>, world: nat, step: nat, m: Model<T, S>): (r: Model<T, S>)
    requires 0 < world && Fits(m) && Computed(Gradients(loss, world, step, m.weights), m.weights)
    ensures Fits(r)
  {
    var gradients := Gradients(loss, world, step, m.weights);
    Model(seq(|m.weights|, i requires 0 <= i < |m.weights| => UpdatedAt(u, step, m, gradients, i).0),
          seq(|m.weights|, i requires 0 <= i < |m.weights| => UpdatedAt(u, step, m, gradients, i).1))
  }

  /** Each rank stores one padded chunk of every parameter and slot. */
  predicate Chunked<T, S>(locals: seq<Model<T, S>>, lengths: seq<nat>)
  {
    locals != [] && forall r | 0 <= r < |locals| :: ChunkedRank(locals[r], lengths, |locals|)
  }

  predicate ChunkedRank<T, S>(m: Model<T, S>, lengths: seq<nat>, world: nat)
    requires 0 < world
  {
    |m.weights| == |m.slots| == |lengths| &&
    forall i | 0 <= i < |lengths| :: |m.weights[i]| == |m.slots[i]| == Chunk(lengths[i], world)
  }

  function Parts<T, S>(locals: seq<Model<T, S>>, lengths: seq<nat>, i: nat): (r: seq<seq<T>>)
    requires Chunked(locals, lengths) && i < |lengths|
    ensures |r| == |locals|
  {
    seq(|locals|, r requires 0 <= r < |locals| => locals[r].weights[i])
  }

  /** `full_parameters`: gather, concatenate and narrow each parameter. */
  function Gathered<T, S>(locals: seq<Model<T, S>>, lengths: seq<nat>): (r: seq<seq<T>>)
    requires Chunked(locals, lengths)
    ensures |r| == |lengths|
  {
    seq(|lengths|, i requires 0 <= i < |lengths| =>
      Flat(Parts(locals, lengths, i))[..Min(lengths[i], |Flat(Parts(locals, lengths, i))|)])
  }

  predicate Widths<T>(weights: seq<seq<T>>, lengths: seq<nat>)
  {
    |weights| == |lengths| && forall i | 0 <= i < |lengths| :: |weights[i]| == lengths[i]
  }

  function LocalUpdate<T, S>(u: Rules<T, S>, step: nat, m: Model<T, S>, weights: seq<seq<T>>, lengths: seq<nat>,
                             gradients: seq<seq<seq<T>>>, r: nat, i: nat): (t: (seq<T>, seq<S>))
    requires Widths(weights, lengths) && Computed(gradients, weights) && i < |lengths|
    requires ChunkedRank(m, lengths, |gradients|)
    ensures |t.0| == |t.1| == Chunk(lengths[i], |gradients|)
  {
    Updated(u, step, m.weights[i], m.slots[i], ScatteredMean(u, ForParameter(gradients, weights, i), lengths[i], r))
  }

  function LocalStep<T, S>(u: Rules<T, S>, step: nat, m: Model<T, S>, weights: seq<seq<T>>, lengths: seq<nat>,
                           gradients: seq<seq<seq<T>>>, r: nat): (t: Model<T, S>)
    requires Widths(weights, lengths) && Computed(gradients, weights) && ChunkedRank(m, lengths, |gradients|)
    ensures ChunkedRank(t, lengths, |gradients|)
  {
    Model(seq(|lengths|, i requires 0 <= i < |lengths| => LocalUpdate(u, step, m, weights, lengths, gradients, r, i).0),
          seq(|lengths|, i requires 0 <= i < |lengths| => LocalUpdate(u, step, m, weights, lengths, gradients, r, i).1))
  }

  /** `train_step`: gather the parameters, differentiate on every rank,
      reduce-scatter the mean gradients, update the local shards. */
  function ShardedStep<T, S>(u: Rules<T, S>, loss: Loss<T>, lengths: seq<nat>, step: nat, locals: seq<Model<T,
                             S>>): (r: seq<Model<T, S>>)
    requires Chunked(locals, lengths) && Widths(Gathered(locals, lengths), lengths)
    requires Computed(Gradients(loss, |locals|, step, Gathered(locals, lengths)), Gathered(locals, lengths))
    ensures |r| == |locals| && Chunked(r, lengths)
  {
    var weights := Gathered(locals, lengths);
    var gradients := Gradients(loss, |locals|, step, weights);
    seq(|locals|, r requires 0 <= r < |locals| => LocalStep(u, step, locals[r], weights, lengths, gradients, r))
  }

  // ---- refinement ----

  ghost predicate HeldAt<T, S>(local: Model<T, S>, m: Model<T, S>, r: nat, world: nat, i: nat)
    requires 0 < world && i < |m.weights| == |m.slots| == |local.weights| == |local.slots|
  {
    Represented(local.weights[i], m.weights[i], r, world) && Represented(local.slots[i], m.slots[i], r, world)
  }

  /** The shards of every rank hold the full model. */
  ghost predicate Holds<T, S>(locals: seq<Model<T, S>>, m: Model<T, S>, lengths: seq<nat>)
  {
    && Fits(m) && Widths(m.weights, lengths) && Chunked(locals, lengths)
    && forall r, i | 0 <= r < |locals| && 0 <= i < |lengths| :: HeldAt(locals[r], m, r, |locals|, i)
  }

  lemma GatheredHeld<T, S>(locals: seq<Model<T, S>>, m: Model<T, S>, lengths: seq<nat>)
    requires Holds(locals, m, lengths)
    ensures Gathered(locals, lengths) == m.weights
  {
    forall i | 0 <= i < |lengths|
      ensures Gathered(locals, lengths)[i] == m.weights[i]
    {
      var parts := Parts(locals, lengths, i);
      forall r | 0 <= r < |locals|
        ensures Represented(parts[r], m.weights[i], r, |locals|)
      {
        assert HeldAt(locals[r], m, r, |locals|, i);
      }
      GatherRepresented(parts, m.weights[i], |locals|);
    }
  }

  lemma StepHeldAt<T, S>(u: Rules<T, S>, step: nat, local: Model<T, S>, m: Model<T, S>, lengths: seq<nat>,
                         gradients: seq<seq<seq<T>>>, r: nat, i: nat)
    requires Fits(m) && Widths(m.weights, lengths) && Computed(gradients, m.weights) && r < |gradients| && i < |lengths|
    requires ChunkedRank(local, lengths, |gradients|) && HeldAt(local, m, r, |gradients|, i)
    ensures Represented(LocalUpdate(u, step, local, m.weights, lengths, gradients, r, i).0,
                        UpdatedAt(u, step, m, gradients, i).0, r, |gradients|)
    ensures Represented(LocalUpdate(u, step, local, m.weights, lengths, gradients, r, i).1,
                        UpdatedAt(u, step, m, gradients, i).1, r, |gradients|)
  {
    var own := ForParameter(gradients, m.weights, i);
    MeanRepresented(u, own, lengths[i], r);
    UpdateRepresented(u, step, r, |gradients|, local.weights[i], local.slots[i], ScatteredMean(u, own, lengths[i], r),
                      m.weights[i], m.slots[i], Mean(u, own, lengths[i]));
  }

  /** One sharded step is one full step. */
  lemma StepRefines<T(!new), S>(u: Rules<T, S>, loss: Loss<T>, lengths: seq<nat>, step: nat, locals: seq<Model<T, S>>,
                                m: Model<T, S>)
    requires ShapedLoss(loss) && Holds(locals, m, lengths)
    ensures Gathered(locals, lengths) == m.weights
    ensures Computed(Gradients(loss, |locals|, step, m.weights), m.weights)
    ensures Holds(ShardedStep(u, loss, lengths, step, locals), FullStep(u, loss, |locals|, step, m), lengths)
  {
    GatheredHeld(locals, m, lengths);
    var world := |locals|;
    var gradients := Gradients(loss, world, step, m.weights);
    assert Computed(gradients, m.weights);
    var next, full := ShardedStep(u, loss, lengths, step, locals), FullStep(u, loss, world, step, m);
    forall r, i | 0 <= r < world && 0 <= i < |lengths|
      ensures HeldAt(next[r], full, r, world, i)
    {
      assert HeldAt(locals[r], m, r, world, i);
      StepHeldAt(u, step, locals[r], m, lengths, gradients, r, i);
    }
  }

  // ---- whole runs ----

  ghost function FullRun<T(!new), S>(u: Rules<T, S>, loss: Loss<T>, world: nat, m: Model<T, S>, n: nat): (r: Model<T,
      S>)
    requires 0 < world && Fits(m) && ShapedLoss(loss)
    ensures Fits(r)
  {
    if n == 0 then m
    else
      var before := FullRun(u, loss, world, m, n - 1);
      assert Computed(Gradients(loss, world, n - 1, before.weights), before.weights);
      FullStep(u, loss, world, n - 1, before)
  }

  /** `next` is what the ranks store one `train_step` after `locals`. */
  ghost predicate Trained<T, S>(u: Rules<T, S>, loss: Loss<T>, lengths: seq<nat>, step: nat, locals: seq<Model<T, S>>,
                                next: seq<Model<T, S>>)
  {
    && Chunked(locals, lengths) && Widths(Gathered(locals, lengths), lengths)
    && Computed(Gradients(loss, |locals|, step, Gathered(locals, lengths)), Gathered(locals, lengths))
    && next == ShardedStep(u, loss, lengths, step, locals)
  }

  /** The shards each rank starts with: its part of every parameter and slot. */
  function Distributed<T, S>(m: Model<T, S>, zero: T, empty: S, world: nat): (r: seq<Model<T, S>>)
    requires 0 < world && Fits(m)
    ensures |r| == world
  {
    seq(world, r requires 0 <= r < world => Model(
      seq(|m.weights|, i requires 0 <= i < |m.weights| => Shard(m.weights[i], zero, |m.weights[i]|, 1, r, world)),
      seq(|m.slots|, i requires 0 <= i < |m.slots| => Shard(m.slots[i], empty, |m.slots[i]|, 1, r, world))))
  }

  lemma DistributedHolds<T, S>(m: Model<T, S>, zero: T, empty: S, world: nat, lengths: seq<nat>)
    requires 0 < world && Fits(m) && Widths(m.weights, lengths)
    ensures Holds(Distributed(m, zero, empty, world), m, lengths)
  {
    var locals := Distributed(m, zero, empty, world);
    forall r | 0 <= r < world
      ensures ChunkedRank(locals[r], lengths, world)
    {
    }
    forall r, i | 0 <= r < world && 0 <= i < |lengths|
      ensures HeldAt(locals[r], m, r, world, i)
    {
      ShardRepresented(m.weights[i], zero, r, world);
      ShardRepresented(m.slots[i], empty, r, world);
    }
  }

  /** After any number of steps the gathered shards are the fully trained parameters. */
  lemma {:induction false} TrainingRefines<T(!new),
    S>(u: Rules<T, S>, loss: Loss<T>, m: Model<T, S>, empty: S, world: nat,
                                                      lengths: seq<nat>, trace: seq<seq<Model<T, S>>>, n: nat)
    requires 0 < world && Fits(m) && Widths(m.weights, lengths) && ShapedLoss(loss) && n < |trace|
    requires trace[0] == Distributed(m, u.zero, empty, world)
    requires forall k: nat | k + 1 < |trace| :: Trained(u, loss, lengths, k, trace[k], trace[k + 1])
    ensures |trace[n]| == world && Holds(trace[n], FullRun(u, loss, world, m, n), lengths)
    ensures Gathered(trace[n], lengths) == FullRun(u, loss, world, m, n).weights
  {
    if n == 0 {
      DistributedHolds(m, u.zero, empty, world, lengths);
    } else {
      TrainingRefines(u, loss, m, empty, world, lengths, trace, n - 1);
      StepRefines(u, loss, lengths, n - 1, trace[n - 1], FullRun(u, loss, world, m, n - 1));
      assert Trained(u, loss, lengths, n - 1, trace[n - 1], trace[n - 1 + 1]);
    }
    GatheredHeld(trace[n], FullRun(u, loss, world, m, n), lengths);
  }
}
