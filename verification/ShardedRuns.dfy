/** What training on parameter shards comes to on the process group: where the ranks
    stay together, one outcome at every rank; where they do not, no Ok for those left behind. */
module ShardedRuns {
  import opened Wrappers
  import opened Collectives
  import opened ProcessGroup
  import opened CollectivePrograms
  import opened Chaining
  import opened Lockstep
  import opened Resuming
  import opened RoundResults
  import opened ShardedSteps
  import CollectiveSafety
  import ReplicatedTraining
  import Stranding

  // ---- a step is a sound call ----

  lemma StepUniform(c: Config, b: Batch, base: nat)
    requires ValidBatch(c, b)
    ensures Uniform(TableOf(c), Program(base, TrainStep(c, b)))
  {
    var prog := Program(base, TrainStep(c, b));
    forall k: nat
      ensures UniformAt(TableOf(c), prog, k)
    {
      if Rounds(c, prog, k).Some? {
        forall i | 0 <= i < c.world
          ensures var t := prog.turn(i, Rounds(c, prog, k).value[i]); t == Quit(true) || TakesTurn(t, StageAt(b, k))
        {
          StageReached(c, b, base, k, i);
        }
      }
    }
  }

  /** The most collectives a step takes. */
  function Length(b: Batch): nat
  {
    11 + 2 * b.count
  }

  lemma StepEnds(c: Config, b: Batch, base: nat)
    requires ValidBatch(c, b)
    ensures EndsBy(TableOf(c), Program(base, TrainStep(c, b)), Length(b))
  {
    if Rounds(c, Program(base, TrainStep(c, b)), Length(b) + 1).Some? {
      PreviousRound(c, Program(base, TrainStep(c, b)), Length(b) + 1);
      GoesOn(c, b, base, Length(b), 0);
    }
    EndsWithoutNext(TableOf(c), Program(base, TrainStep(c, b)), Length(b));
  }

  /** From wherever it begins, no rank leaves the step alone. */
  ghost predicate Accompanied(c: Config, b: Batch)
  {
    ValidBatch(c, b) && forall base: nat :: NeverAlone(c, b, base)
  }

  lemma StepSound(c: Config, b: Batch)
    requires Accompanied(c, b)
    ensures Sound(TableOf(c), TrainStep(c, b), Length(b))
  {
    forall base: nat
      ensures SoundAt(TableOf(c), Program(base, TrainStep(c, b)), Length(b))
    {
      AlignedIffNeverAlone(c, b, base);
      StepUniform(c, b, base);
      StepEnds(c, b, base);
    }
  }

  /** The unagreed calls see the same tensors at every rank: where they are the same functions
      of them, and losses can be read and gradients cut, no rank ever leaves alone. */
  ghost predicate SharedCalls(b: Batch)
  {
    && (forall i, j, full | 0 <= i < |b.workers| && 0 <= j < |b.workers| ::
          b.workers[i].assembles(full) == b.workers[j].assembles(full) &&
          b.workers[i].tracks(full) == b.workers[j].tracks(full))
    && (forall i, full | 0 <= i < |b.workers| :: b.workers[i].loss(full).Some?)
    && forall i, full, j | 0 <= i < |b.workers| :: !b.workers[i].cut(full, j).Broken?
  }

  lemma SharedCallsNeverPart(c: Config, b: Batch)
    requires ValidBatch(c, b) && SharedCalls(b)
    ensures Accompanied(c, b)
  {
    forall k: nat
      ensures !Alone(b, k)
    {
      forall i, j | 0 <= i < |b.workers| && 0 <= j < |b.workers| && LeavesAt(b, k, i)
        ensures LeavesAt(b, k, j)
      {
      }
    }
    forall base: nat, k: nat
      ensures NotAloneAt(c, b, base, k)
    {
    }
  }

  // ---- what a step that every rank finished gave ----

  /** What a rank that went on asked for, from what every rank had gathered. */
  lemma WentOn(c: Config, b: Batch, base: nat, at: nat, i: nat)
    requires ValidBatch(c, b) && i < c.world && 7 + b.count <= at
    requires Rounds(c, Program(base, TrainStep(c, b)), at + 1).Some?
    ensures Rounds(c, Program(base, TrainStep(c, b)), at).Some? && Transportable(b, b.count)
    ensures var results := Rounds(c, Program(base, TrainStep(c, b)), at).value[i];
      var t := TrainStep(c, b)(i, results);
      t == Going(b.count, b.workers[i], FullOf(b, b.count), Scattered(b.count, results), at) &&
      t.Ask? && t.tensors.Some?
  {
    var prog := Program(base, TrainStep(c, b));
    GoesOn(c, b, base, at, i);
    GatheredIs(c, b, base, at, i);
    var turns := Turns(prog, Rounds(c, prog, at).value);
    NoneFailed(c, prog, at, at + 1, turns);
    assert turns[i] == prog.turn(i, Rounds(c, prog, at).value[i]);
  }

  lemma PieceAsked(count: nat, w: Worker, full: Full, reduced: Full, j: nat, t: Turn)
    requires j < count && t == Going(count, w, full, reduced, 7 + count + j) && t.Ask? && t.tensors.Some?
    ensures w.cut(full, j).Pieces? && t == Ask(ReduceScatter(Mean), Some(w.cut(full, j).pieces), [])
  {
  }

  lemma LossAsked(count: nat, w: Worker, full: Full, reduced: Full, t: Turn)
    requires t == Going(count, w, full, reduced, 10 + 2 * count) && t.Ask? && t.tensors.Some?
    ensures w.loss(full).Some? && t == Ask(AllReduce(Mean), Some([w.loss(full).value]), [])
  {
  }

  lemma PieceTurn(c: Config, b: Batch, base: nat, j: nat, at: nat, i: nat)
    requires ValidBatch(c, b) && i < c.world && j < b.count && at == 7 + b.count + j
    requires Rounds(c, Program(base, TrainStep(c, b)), at + 1).Some?
    ensures Rounds(c, Program(base, TrainStep(c, b)), at).Some? && Transportable(b, b.count)
    ensures b.workers[i].cut(FullOf(b, b.count), j).Pieces?
    ensures Turns(Program(base, TrainStep(c, b)), Rounds(c, Program(base, TrainStep(c, b)), at).value)[i] ==
      Ask(ReduceScatter(Mean), Some(b.workers[i].cut(FullOf(b, b.count), j).pieces), [])
  {
    WentOn(c, b, base, at, i);
    var results := Rounds(c, Program(base, TrainStep(c, b)), at).value[i];
    PieceAsked(b.count, b.workers[i], FullOf(b, b.count), Scattered(b.count, results), j, TrainStep(c, b)(i, results));
  }

  predicate Cuttable(b: Batch, j: nat)
  {
    Transportable(b, b.count) &&
    forall q | 0 <= q < |b.workers| ::
      b.workers[q].cut(FullOf(b, b.count), j).Pieces? &&
      |b.workers[q].cut(FullOf(b, b.count), j).pieces| == |b.workers|
  }

  /** Every rank's pieces of gradient `j`. */
  function HandsOf(b: Batch, j: nat): (hands: seq<seq<Payload>>)
    requires Transportable(b, b.count)
    requires forall q | 0 <= q < |b.workers| :: b.workers[q].cut(FullOf(b, b.count), j).Pieces?
    ensures |hands| == |b.workers|
  {
    seq(|b.workers|, q requires 0 <= q < |b.workers| => b.workers[q].cut(FullOf(b, b.count), j).pieces)
  }

  /** The mean of every rank's piece of gradient `j` for rank `i`. */
  ghost function MeanPiece(c: Config, b: Batch, j: nat, i: nat): Option<Payload>
    requires Cuttable(b, j) && i < |b.workers|
  {
    Reduced(c.arithmetic, Mean, Dealt(HandsOf(b, j), i), c.limit)
  }

  lemma PiecesDealt(c: Config, b: Batch, base: nat, j: nat, at: nat)
    requires ValidBatch(c, b) && j < b.count && at == 7 + b.count + j
    requires Rounds(c, Program(base, TrainStep(c, b)), at + 1).Some?
    ensures Rounds(c, Program(base, TrainStep(c, b)), at).Some? && Transportable(b, b.count)
    ensures forall q | 0 <= q < |b.workers| :: b.workers[q].cut(FullOf(b, b.count), j).Pieces?
    ensures var prog := Program(base, TrainStep(c, b));
      Deals(Turns(prog, Rounds(c, prog, at).value), Mean, HandsOf(b, j))
  {
    var prog := Program(base, TrainStep(c, b));
    PieceTurn(c, b, base, j, at, 0);
    var turns := Turns(prog, Rounds(c, prog, at).value);
    forall q | 0 <= q < |b.workers|
      ensures b.workers[q].cut(FullOf(b, b.count), j).Pieces?
      ensures turns[q] == Ask(ReduceScatter(Mean), Some(b.workers[q].cut(FullOf(b, b.count), j).pieces), [])
    {
      PieceTurn(c, b, base, j, at, q);
    }
  }

  lemma HandsCuttable(b: Batch, j: nat)
    requires Transportable(b, b.count)
    requires forall q | 0 <= q < |b.workers| :: b.workers[q].cut(FullOf(b, b.count), j).Pieces?
    requires forall q | 0 <= q < |b.workers| :: |HandsOf(b, j)[q]| == |b.workers|
    ensures Cuttable(b, j)
  {
    forall q | 0 <= q < |b.workers|
      ensures |b.workers[q].cut(FullOf(b, b.count), j).pieces| == |b.workers|
    {
      assert HandsOf(b, j)[q] == b.workers[q].cut(FullOf(b, b.count), j).pieces;
    }
  }

  lemma PiecesGiven(c: Config, b: Batch, base: nat, j: nat, at: nat, k: nat, i: nat) returns (hands: seq<seq<Payload>>)
    requires ValidBatch(c, b) && i < c.world && j < b.count && at == 7 + b.count + j && at < k
    requires Rounds(c, Program(base, TrainStep(c, b)), k).Some?
    ensures Cuttable(b, j) && hands == HandsOf(b, j)
    ensures forall q | 0 <= q < |hands| :: i < |hands[q]|
    ensures hands != [] && Reduced(c.arithmetic, Mean, Dealt(hands, i), c.limit).Some?
    ensures |Rounds(c, Program(base, TrainStep(c, b)), k).value[i]| == k
    ensures Rounds(c, Program(base, TrainStep(c, b)), k).value[i][at].tensors ==
      [Reduced(c.arithmetic, Mean, Dealt(hands, i), c.limit).value]
  {
    var prog := Program(base, TrainStep(c, b));
    Reached(c, prog, at + 1, k);
    PiecesDealt(c, b, base, j, at);
    hands := HandsOf(b, j);
    ScatterHeld(c, prog, at, k, i, Turns(prog, Rounds(c, prog, at).value), Mean, hands);
    HandsCuttable(b, j);
  }

  lemma PiecesHeld(c: Config, b: Batch, base: nat, j: nat, at: nat, k: nat, i: nat)
    requires ValidBatch(c, b) && i < c.world && j < b.count && at == 7 + b.count + j && at < k
    requires Rounds(c, Program(base, TrainStep(c, b)), k).Some?
    ensures |Rounds(c, Program(base, TrainStep(c, b)), k).value[i]| == k
    ensures Cuttable(b, j) && MeanPiece(c, b, j, i).Some?
    ensures Rounds(c, Program(base, TrainStep(c, b)), k).value[i][at].tensors == [MeanPiece(c, b, j, i).value]
  {
    var hands := PiecesGiven(c, b, base, j, at, k, i);
  }

  predicate Readable(b: Batch)
  {
    Transportable(b, b.count) && forall q | 0 <= q < |b.workers| :: b.workers[q].loss(FullOf(b, b.count)).Some?
  }

  function Losses(b: Batch): (losses: seq<Payload>)
    requires Readable(b)
    ensures |losses| == |b.workers|
  {
    seq(|b.workers|, q requires 0 <= q < |b.workers| => b.workers[q].loss(FullOf(b, b.count)).value)
  }

  lemma LossTurn(c: Config, b: Batch, base: nat, at: nat, i: nat)
    requires ValidBatch(c, b) && i < c.world && at == 10 + 2 * b.count
    requires Rounds(c, Program(base, TrainStep(c, b)), at + 1).Some?
    ensures Rounds(c, Program(base, TrainStep(c, b)), at).Some? && Transportable(b, b.count)
    ensures b.workers[i].loss(FullOf(b, b.count)).Some?
    ensures Turns(Program(base, TrainStep(c, b)), Rounds(c, Program(base, TrainStep(c, b)), at).value)[i] ==
      Ask(AllReduce(Mean), Some([b.workers[i].loss(FullOf(b, b.count)).value]), [])
  {
    WentOn(c, b, base, at, i);
    var results := Rounds(c, Program(base, TrainStep(c, b)), at).value[i];
    LossAsked(b.count, b.workers[i], FullOf(b, b.count), Scattered(b.count, results), TrainStep(c, b)(i, results));
  }

  lemma LossesBrought(c: Config, b: Batch, base: nat, at: nat)
    requires ValidBatch(c, b) && at == 10 + 2 * b.count && Rounds(c, Program(base, TrainStep(c, b)), at + 1).Some?
    ensures Rounds(c, Program(base, TrainStep(c, b)), at).Some? && Readable(b)
    ensures var prog := Program(base, TrainStep(c, b));
      Brings(Turns(prog, Rounds(c, prog, at).value), AllReduce(Mean), Losses(b))
  {
    var prog := Program(base, TrainStep(c, b));
    LossTurn(c, b, base, at, 0);
    var turns := Turns(prog, Rounds(c, prog, at).value);
    forall q | 0 <= q < |b.workers|
      ensures b.workers[q].loss(FullOf(b, b.count)).Some?
      ensures turns[q] == Ask(AllReduce(Mean), Some([b.workers[q].loss(FullOf(b, b.count)).value]), [])
    {
      LossTurn(c, b, base, at, q);
    }
  }

  lemma LossHeld(c: Config, b: Batch, base: nat, at: nat, k: nat, i: nat) returns (losses: seq<Payload>)
    requires ValidBatch(c, b) && i < c.world && at == 10 + 2 * b.count && k == at + 1
    requires Rounds(c, Program(base, TrainStep(c, b)), k).Some?
    ensures Readable(b) && losses == Losses(b) && losses != []
    ensures Reduced(c.arithmetic, Mean, losses, c.limit).Some?
    ensures |Rounds(c, Program(base, TrainStep(c, b)), k).value[i]| == k
    ensures Rounds(c, Program(base, TrainStep(c, b)), k).value[i][at].tensors ==
      [Reduced(c.arithmetic, Mean, losses, c.limit).value]
  {
    var prog := Program(base, TrainStep(c, b));
    LossesBrought(c, b, base, at);
    losses := Losses(b);
    ReduceHeld(c, prog, at, k, i, Turns(prog, Rounds(c, prog, at).value), Mean, losses);
  }

  /** The rank was given every parameter's shards, its piece of every mean gradient, and the mean loss. */
  ghost predicate Trained(c: Config, b: Batch, r: nat, results: seq<Response>)
  {
    && r < |b.workers| && |results| == Length(b) && LossGiven(c, b, results)
    && forall j | 0 <= j < b.count :: PartGiven(b, results, j) && PieceGiven(c, b, r, results, j)
  }

  ghost predicate LossGiven(c: Config, b: Batch, results: seq<Response>)
    requires b.workers != [] && |results| == Length(b)
  {
    Readable(b) && Reduced(c.arithmetic, Mean, Losses(b), c.limit).Some? &&
    results[10 + 2 * b.count].tensors == [Reduced(c.arithmetic, Mean, Losses(b), c.limit).value]
  }

  predicate PartGiven(b: Batch, results: seq<Response>, j: nat)
    requires j < b.count && |results| == Length(b)
  {
    Transportable(b, b.count) && results[4 + j].tensors == FullOf(b, b.count)[j]
  }

  ghost predicate PieceGiven(c: Config, b: Batch, r: nat, results: seq<Response>, j: nat)
    requires r < |b.workers| && j < b.count && |results| == Length(b)
  {
    Cuttable(b, j) && MeanPiece(c, b, j, r).Some? &&
    results[7 + b.count + j].tensors == [MeanPiece(c, b, j, r).value]
  }

  /** The ranks finished the step, or an unagreed call failed at all of them at the same place. */
  ghost predicate StepHeld(c: Config, b: Batch, r: nat, results: seq<Response>)
  {
    Trained(c, b, r, results) || (b.workers != [] && forall q | 0 <= q < |b.workers| :: LeavesAt(b, |results|, q))
  }

  lemma LossTrained(c: Config, b: Batch, base: nat, history: History, r: nat)
    requires ValidBatch(c, b) && r < c.world == |history|
    requires Rounds(c, Program(base, TrainStep(c, b)), Length(b)) == Some(history)
    ensures |history[r]| == Length(b) && LossGiven(c, b, history[r])
  {
    var losses := LossHeld(c, b, base, 10 + 2 * b.count, Length(b), r);
  }

  lemma PartTrained(c: Config, b: Batch, base: nat, history: History, r: nat, j: nat)
    requires ValidBatch(c, b) && r < c.world == |history| && j < b.count
    requires Rounds(c, Program(base, TrainStep(c, b)), Length(b)) == Some(history)
    ensures |history[r]| == Length(b) && PartGiven(b, history[r], j)
  {
    PartsHeld(c, b, base, j, Length(b), r);
    GatheredIs(c, b, base, Length(b), r);
  }

  lemma PieceTrained(c: Config, b: Batch, base: nat, history: History, r: nat, j: nat)
    requires ValidBatch(c, b) && r < c.world == |history| && j < b.count
    requires Rounds(c, Program(base, TrainStep(c, b)), Length(b)) == Some(history)
    ensures |history[r]| == Length(b) && PieceGiven(c, b, r, history[r], j)
  {
    PiecesHeld(c, b, base, j, 7 + b.count + j, Length(b), r);
  }

  lemma FinishedTrained(c: Config, b: Batch, base: nat, history: History, r: nat)
    requires ValidBatch(c, b) && r < c.world == |history|
    requires Rounds(c, Program(base, TrainStep(c, b)), Length(b)) == Some(history)
    ensures Trained(c, b, r, history[r])
  {
    LossTrained(c, b, base, history, r);
    forall j | 0 <= j < b.count
      ensures PartGiven(b, history[r], j) && PieceGiven(c, b, r, history[r], j)
    {
      PartTrained(c, b, base, history, r, j);
      PieceTrained(c, b, base, history, r, j);
    }
  }

  lemma FinishedWhere(c: Config, b: Batch, base: nat, k: nat)
    requires ValidBatch(c, b) && CompletesAt(TableOf(c), Program(base, TrainStep(c, b)), k)
    ensures k == Length(b) || forall q | 0 <= q < |b.workers| :: LeavesAt(b, k, q)
  {
    StepEnds(c, b, base);
    NotPast(TableOf(c), Program(base, TrainStep(c, b)), Length(b), k);
    if k != Length(b) {
      forall q | 0 <= q < |b.workers|
        ensures LeavesAt(b, k, q)
      {
        StageReached(c, b, base, k, q);
      }
    }
  }

  lemma FinishedHeld(c: Config, b: Batch, base: nat, k: nat, history: History, r: nat)
    requires ValidBatch(c, b) && r < c.world == |history|
    requires Completed(TableOf(c), Program(base, TrainStep(c, b)), k, history)
    ensures StepHeld(c, b, r, history[r])
  {
    FinishedWhere(c, b, base, k);
    assert Rounds(c, Program(base, TrainStep(c, b)), k) == Some(history);
    if k == Length(b) {
      FinishedTrained(c, b, base, history, r);
    } else {
      assert |history[r]| == k;
    }
  }

  // ---- step after step ----

  ghost predicate AllAccompanied(c: Config, batches: seq<Batch>)
  {
    ValidConfig(c) && forall i | 0 <= i < |batches| :: Accompanied(c, batches[i])
  }

  lemma BatchesSplit(c: Config, front: seq<Batch>, b: Batch)
    requires AllAccompanied(c, front + [b])
    ensures AllAccompanied(c, front) && Accompanied(c, b)
  {
    assert (front + [b])[|front|] == b;
    forall i | 0 <= i < |front|
      ensures Accompanied(c, front[i])
    {
      assert (front + [b])[i] == front[i];
    }
  }

  function StepsOf(c: Config, batches: seq<Batch>): (r: seq<Turning>)
    ensures |r| == |batches| && forall i | 0 <= i < |batches| :: r[i] == TrainStep(c, batches[i])
  {
    seq(|batches|, i requires 0 <= i < |batches| => TrainStep(c, batches[i]))
  }

  function LengthsOf(batches: seq<Batch>): (r: seq<nat>)
    ensures |r| == |batches| && forall i | 0 <= i < |batches| :: r[i] == Length(batches[i])
  {
    seq(|batches|, i requires 0 <= i < |batches| => Length(batches[i]))
  }

  /** A program followed by one `train_step` per batch. */
  function Stepping(c: Config, first: Program, batches: seq<Batch>): (p: Program)
    ensures p.base == first.base
  {
    Chain(first, StepsOf(c, batches))
  }

  function MostCollectives(most: nat, batches: seq<Batch>): nat
  {
    most + Total(LengthsOf(batches))
  }

  lemma StepsSound(c: Config, batches: seq<Batch>)
    requires AllAccompanied(c, batches)
    ensures AllSound(TableOf(c), StepsOf(c, batches), LengthsOf(batches))
  {
    forall i | 0 <= i < |batches|
      ensures Sound(TableOf(c), StepsOf(c, batches)[i], LengthsOf(batches)[i])
    {
      StepSound(c, batches[i]);
    }
  }

  lemma SteppingAligned(c: Config, first: Program, batches: seq<Batch>)
    requires AllAccompanied(c, batches) && Aligned(c, first)
    ensures Aligned(c, Stepping(c, first, batches))
  {
    StepsSound(c, batches);
    ChainTogether(TableOf(c), first, StepsOf(c, batches), LengthsOf(batches));
  }

  lemma SteppingUniform(c: Config, first: Program, batches: seq<Batch>)
    requires AllAccompanied(c, batches) && Aligned(c, first) && Uniform(TableOf(c), first)
    ensures Uniform(TableOf(c), Stepping(c, first, batches))
  {
    StepsSound(c, batches);
    ChainUniform(TableOf(c), first, StepsOf(c, batches), LengthsOf(batches));
  }

  lemma SteppingStops(c: Config, first: Program, batches: seq<Batch>, most: nat)
    requires AllAccompanied(c, batches) && Aligned(c, first) && EndsBy(TableOf(c), first, most)
    ensures EndsBy(TableOf(c), Stepping(c, first, batches), MostCollectives(most, batches))
  {
    StepsSound(c, batches);
    ChainEnds(TableOf(c), first, StepsOf(c, batches), LengthsOf(batches), most);
  }

  /** The rank's results end with those of one step per batch. */
  ghost predicate StepsHeld(c: Config, batches: seq<Batch>, r: nat, results: seq<Response>)
    decreases |batches|, 1
  {
    batches == [] || exists n: nat :: HeldFrom(c, batches, r, results, n)
  }

  ghost predicate HeldFrom(c: Config, batches: seq<Batch>, r: nat, results: seq<Response>, n: nat)
    requires batches != []
    decreases |batches|, 0
  {
    n <= |results| && StepHeld(c, batches[|batches| - 1], r, results[n..]) &&
    StepsHeld(c, batches[..|batches| - 1], r, results[..n])
  }

  lemma HeldMore(c: Config, batches: seq<Batch>, b: Batch, r: nat, x: seq<Response>, y: seq<Response>)
    requires StepsHeld(c, batches, r, x) && StepHeld(c, b, r, y)
    ensures StepsHeld(c, batches + [b], r, x + y)
  {
    var all := batches + [b];
    assert all[..|all| - 1] == batches && all[|all| - 1] == b;
    assert (x + y)[|x|..] == y && (x + y)[..|x|] == x;
    assert HeldFrom(c, all, r, x + y, |x|);
  }

  lemma LastPart(c: Config, base: nat, batches: seq<Batch>, history: History)
    returns (at: nat, m: nat, x: History, y: History)
    requires 0 < c.world && batches != [] && Parted(TableOf(c), base, StepsOf(c, batches), history)
    ensures |x| == |y| == c.world && history == Glued(x, y)
    ensures Parted(TableOf(c), base, StepsOf(c, batches[..|batches| - 1]), x)
    ensures Completed(TableOf(c), Program(at, TrainStep(c, batches[|batches| - 1])), m, y)
  {
    var n: nat;
    n, m, x, y :| PartedAt(TableOf(c), base, StepsOf(c, batches), history, n, m, x, y);
    at := base + n;
    assert StepsOf(c, batches)[..|batches| - 1] == StepsOf(c, batches[..|batches| - 1]);
  }

  lemma {:induction false} PartedHeld(c: Config, base: nat, batches: seq<Batch>, history: History, r: nat)
    requires AllAccompanied(c, batches) && r < c.world == |history|
    requires Parted(TableOf(c), base, StepsOf(c, batches), history)
    ensures StepsHeld(c, batches, r, history[r])
    decreases |batches|
  {
    if batches != [] {
      var front, b := batches[..|batches| - 1], batches[|batches| - 1];
      assert front + [b] == batches;
      BatchesSplit(c, front, b);
      var at, m, x, y := LastPart(c, base, batches, history);
      PartedHeld(c, base, front, x, r);
      FinishedHeld(c, b, at, m, y, r);
      HeldMore(c, front, b, r, x[r], y[r]);
    }
  }

  lemma SteppingHeld(c: Config, first: Program, batches: seq<Batch>, k: nat, history: History, r: nat)
    requires AllAccompanied(c, batches) && Aligned(c, first) && r < c.world == |history|
    requires Completed(TableOf(c), Stepping(c, first, batches), k, history)
    ensures StepsHeld(c, batches, r, history[r])
  {
    StepsSound(c, batches);
    ChainParted(TableOf(c), first, StepsOf(c, batches), LengthsOf(batches), k);
    PartedHeld(c, first.base, batches, history, r);
  }

  // ---- one outcome at every rank ----

  lemma OutcomeAtop(c: Config, first: Program, batches: seq<Batch>, s0: State, t: State)
    requires AllAccompanied(c, batches) && Aligned(c, first) && Sized(c, s0) && Sized(c, t)
    requires AllTracked(c, Stepping(c, first, batches), t) && AllReturned(c, Stepping(c, first, batches), t)
    ensures var s := AllAtop(c, s0, t);
      (forall r | 0 <= r < c.world :: s[r].failed) ||
      (forall r | 0 <= r < c.world :: !s[r].failed && StepsHeld(c, batches, r, ReplicatedTraining.Since(s0, s, r)))
  {
    var prog, s := Stepping(c, first, batches), AllAtop(c, s0, t);
    SteppingAligned(c, first, batches);
    ReplicatedTraining.EndsComplete(c, prog, t);
    if !t[0].failed {
      forall r | 0 <= r < c.world
        ensures !s[r].failed && StepsHeld(c, batches, r, ReplicatedTraining.Since(s0, s, r))
      {
        SteppingHeld(c, first, batches, |t[0].results|, Rounds(c, prog, |t[0].results|).value, r);
        assert ReplicatedTraining.Since(s0, s, r) == t[r].results;
      }
    }
  }

  /** Without transport faults, in any settled state of the group, after any aligned program the ranks
      run first, for any number of steps that no rank leaves alone, under every interleaving and whatever
      local errors the ranks report: they issue the same operations, and once all have returned, either
      every rank's group has failed, or every rank was given in every step the same parameters, its
      pieces of the mean gradients and the same mean loss, and the group is settled again. */
  lemma CoherentSteps(c: Config, first: Program, batches: seq<Batch>, s0: State, schedule: seq<nat>)
    requires AllAccompanied(c, batches) && Aligned(c, first) && Settled(c, s0, first.base)
    ensures var prog := Resumed(Stepping(c, first, batches), s0);
      var s := Drive(c, prog, s0, schedule);
      (Uniform(TableOf(c), first) ==> ReplicatedTraining.SameOperations(s0, s)) &&
      (AllReturned(c, prog, s) ==>
         (forall r | 0 <= r < c.world :: s[r].failed) ||
         ((forall r | 0 <= r < c.world ::
             !s[r].failed && StepsHeld(c, batches, r, ReplicatedTraining.Since(s0, s, r))) &&
          Settled(c, s, s[0].sequence)))
  {
    var p := Stepping(c, first, batches);
    var prog := Resumed(p, s0);
    var s := Drive(c, prog, s0, schedule);
    SteppingAligned(c, first, batches);
    StartTracked(c, p);
    DriveAtop(c, p, s0, schedule);
    DriveTracked(c, p, StartAt(c, p.base), schedule);
    var t := Drive(c, p, StartAt(c, p.base), schedule);
    if Uniform(TableOf(c), first) {
      SteppingUniform(c, first, batches);
      ReplicatedTraining.SameOperationsAtop(c, p, s0, t);
    }
    if AllReturned(c, prog, s) {
      ReturnedAtop(c, p, s0, t);
      OutcomeAtop(c, first, batches, s0, t);
      if !s[0].failed {
        SettledAgain(c, p, s0, schedule);
      }
    }
  }

  /** And all do return: no schedule keeps the group busy longer, and some rank can move until then. */
  lemma StepsTerminate(c: Config, first: Program, batches: seq<Batch>, s0: State, schedule: seq<nat>, most: nat)
    requires AllAccompanied(c, batches) && Aligned(c, first) && Settled(c, s0, first.base)
    requires EndsBy(TableOf(c), first, most)
    ensures var prog := Resumed(Stepping(c, first, batches), s0);
      var s := Drive(c, prog, s0, schedule);
      (Productive(c, prog, s0, schedule) ==> |schedule| <= Times(c.world, MostSteps(c, MostCollectives(most, batches))))
      && (AllReturned(c, prog, s) || exists r :: Enabled(c, prog, s, r))
  {
    SteppingAligned(c, first, batches);
    SomeRankMoves(c, Stepping(c, first, batches), s0, schedule);
    if Productive(c, Resumed(Stepping(c, first, batches), s0), s0, schedule) {
      SteppingStops(c, first, batches, most);
      RunEndsFrom(c, Stepping(c, first, batches), s0, schedule, MostCollectives(most, batches));
    }
  }

  // ---- a rank that leaves alone ----

  /** Where a call fails at one rank and not at another, the other goes on to a collective. */
  lemma OtherGoesOn(c: Config, b: Batch, base: nat, k: nat, i: nat, q: nat)
    requires ValidBatch(c, b) && i < c.world && q < c.world
    requires Rounds(c, Program(base, TrainStep(c, b)), k).Some? && LeavesAt(b, k, i) && !LeavesAt(b, k, q)
    ensures TrainStep(c, b)(i, Rounds(c, Program(base, TrainStep(c, b)), k).value[i]) == Quit(true)
    ensures TrainStep(c, b)(q, Rounds(c, Program(base, TrainStep(c, b)), k).value[q]).Ask?
  {
    LeavesEarly(b, k, i);
    EarlierResults(c, Program(base, TrainStep(c, b)), 3, k, 0);
    GoesOn(c, b, base, 2, 0);
    StageReached(c, b, base, k, i);
    StageReached(c, b, base, k, q);
  }

  /** If an unagreed call fails at rank `i` alone, its group stays alive, but no run, with whatever crashes
      and timeouts, gives any rank the next collective, so the step returns Ok at no rank that goes on. */
  lemma LeftAlone(c: Config, b: Batch, base: nat, s0: State, events: seq<Stranding.Event>, k: nat, i: nat, q: nat)
    requires ValidBatch(c, b) && i < c.world && q < c.world && Settled(c, s0, base)
    requires CollectiveSafety.Consistent(c, s0)
    requires Rounds(c, Program(base, TrainStep(c, b)), k).Some? && LeavesAt(b, k, i) && !LeavesAt(b, k, q)
    ensures var prog := Resumed(Program(base, TrainStep(c, b)), s0);
      var s := Stranding.Suffered(c, prog, s0, events);
      |s[q].results| <= base + k && !Stranding.ReturnedOk(prog, q, s[q])
  {
    OtherGoesOn(c, b, base, k, i, q);
    Stranding.LeftBehind(c, Program(base, TrainStep(c, b)), s0, events, k, i, q);
  }
}
