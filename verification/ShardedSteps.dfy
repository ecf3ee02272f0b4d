/** A training step on parameter shards (`ShardedTrainer::train_step` and
    `full_parameters`, src/distributed/training.rs), as each rank's collective program.

    Most local work is agreed on before the next collective. Four kinds of call are
    not: making a gathered parameter whole, tracking it, reading the loss and cutting
    a gradient. A rank where one of them fails returns an error and leaves its group
    alive, so the group sees it stop as if it had returned. */
module ShardedSteps {
  import opened Wrappers
  import opened Collectives
  import opened ProcessGroup
  import opened CollectivePrograms
  import opened Chaining
  import opened Lockstep
  import opened Resuming
  import opened RoundResults
  import opened ReplicatedTraining

  /** For each parameter gathered so far, every rank's shard of it. */
  type Full = seq<seq<Payload>>

  /** A gradient cut for every rank: cutting may fail, or a piece may not be transportable. */
  datatype Cut = Broken | Untransportable | Pieces(pieces: seq<Payload>)

  /** What a rank's local calls in one step come to. */
  datatype Worker = Worker(
    settings: Option<seq<Byte>>, belongs: bool, valid: bool, shards: seq<Option<Payload>>,
    assembles: Full -> bool, tracks: Full -> bool,
    objective: Full -> bool, scalar: Full -> bool, loss: Full -> Option<Payload>, backward: Full -> bool,
    cut: (Full, nat) -> Cut,
    clears: bool, seeds: Full -> bool, steps: Full -> bool)

  /** One call of `train_step` by every rank; construction made the number of parameters the same. */
  datatype Batch = Batch(count: nat, workers: seq<Worker>)

  predicate ValidBatch(c: Config, b: Batch)
  {
    ValidConfig(c) && |b.workers| == c.world
  }

  function Written(w: Worker): seq<Byte>
  {
    if w.settings.Some? then w.settings.value else []
  }

  function Shard(w: Worker, j: nat): Option<Payload>
  {
    if j < |w.shards| then w.shards[j] else None
  }

  function Single(tensor: Option<Payload>): Option<seq<Payload>>
  {
    if tensor.Some? then Some([tensor.value]) else None
  }

  /** How many of `count` parameters are gathered after `k` collectives. */
  function GatheredBy(count: nat, k: nat): nat
  {
    if k < 4 then 0 else if k - 4 < count then k - 4 else count
  }

  function Gathered(count: nat, results: seq<Response>): (full: Full)
    ensures |full| == GatheredBy(count, |results|)
  {
    seq(GatheredBy(count, |results|), j requires 0 <= j < GatheredBy(count, |results|) => results[4 + j].tensors)
  }

  /** How many of `count` gradients are scattered after `k` collectives. */
  function ScatteredBy(count: nat, k: nat): nat
  {
    if k < 7 + count then 0 else if k - 7 - count < count then k - 7 - count else count
  }

  function Scattered(count: nat, results: seq<Response>): (reduced: Full)
    ensures |reduced| == ScatteredBy(count, |results|)
  {
    seq(ScatteredBy(count, |results|), j requires 0 <= j < ScatteredBy(count, |results|) =>
      results[7 + count + j].tensors)
  }

  /** An unagreed call of this rank fails after `k` collectives. */
  predicate Leaves(count: nat, w: Worker, full: Full, k: nat)
  {
    || (4 < k <= 4 + count && !w.assembles(full))
    || (k == 4 + count && !w.tracks(full))
    || (k == 6 + count && w.loss(full).None?)
    || (7 + count <= k < 7 + 2 * count && w.cut(full, k - 7 - count).Broken?)
  }

  function Handed(cut: Cut): Option<seq<Payload>>
  {
    if cut.Pieces? then Some(cut.pieces) else None
  }

  /** The next collective of a rank that goes on; `k` is how many it has done. */
  function Going(count: nat, w: Worker, full: Full, reduced: Full, k: nat): Turn
  {
    if k == 2 then Agree(w.belongs)
    else if k == 3 then Agree(w.valid)
    else if k < 4 + count then Ask(AllGather, if k < 4 then None else Single(Shard(w, k - 4)), [])
    else if k == 4 + count then Agree(w.objective(full))
    else if k == 5 + count then Agree(w.scalar(full))
    else if k == 6 + count then Agree(w.backward(full))
    else if k < 7 + 2 * count then Ask(ReduceScatter(Mean), Handed(w.cut(full, k - 7 - count)), [])
    else if k == 7 + 2 * count then Agree(w.clears)
    else if k == 8 + 2 * count then Agree(w.seeds(reduced))
    else if k == 9 + 2 * count then Agree(w.steps(reduced))
    else if k == 10 + 2 * count then Ask(AllReduce(Mean), Single(w.loss(full)), [])
    else Quit(true)
  }

  function NextTurn(count: nat, limit: nat, w: Worker, results: seq<Response>): Turn
  {
    var k, full := |results|, Gathered(count, results);
    if k == 0 then Agree(w.settings.Some?)
    else if k == 1 then Exchange(Written(w), limit)
    else if exists v | v in results[1].bytes :: v != Written(w) then Quit(false)
    else if Leaves(count, w, full, k) then Quit(true)
    else Going(count, w, full, Scattered(count, results), k)
  }

  /** `train_step`, as each rank runs it. */
  function TrainStep(c: Config, b: Batch): Turning
  {
    (r: nat, results: seq<Response>) =>
      if r < |b.workers| then NextTurn(b.count, c.limit, b.workers[r], results) else Quit(true)
  }

  // ---- what every rank is given ----

  lemma TurnsTaken(c: Config, b: Batch, base: nat, k: nat)
    requires ValidBatch(c, b) && Rounds(c, Program(base, TrainStep(c, b)), k).Some?
    ensures var prog := Program(base, TrainStep(c, b));
      var history := Rounds(c, prog, k).value;
      TurnsAre(c, prog, k, Turns(prog, history)) && |history| == c.world &&
      forall q | 0 <= q < c.world :: |history[q]| == k &&
        Turns(prog, history)[q] == NextTurn(b.count, c.limit, b.workers[q], history[q])
  {
  }

  /** Every rank's settings, as bytes. */
  function AllWritten(b: Batch): (r: seq<seq<Byte>>)
    ensures |r| == |b.workers|
  {
    seq(|b.workers|, q requires 0 <= q < |b.workers| => Written(b.workers[q]))
  }

  predicate SameSettings(b: Batch)
  {
    forall i, j | 0 <= i < |b.workers| && 0 <= j < |b.workers| :: Written(b.workers[i]) == Written(b.workers[j])
  }

  lemma SettingsHeld(c: Config, b: Batch, base: nat, k: nat, i: nat)
    requires ValidBatch(c, b) && i < c.world && 2 <= k && Rounds(c, Program(base, TrainStep(c, b)), k).Some?
    ensures |Rounds(c, Program(base, TrainStep(c, b)), k).value[i]| == k
    ensures Rounds(c, Program(base, TrainStep(c, b)), k).value[i][1].bytes == AllWritten(b)
  {
    var prog := Program(base, TrainStep(c, b));
    EarlierRounds(c, prog, 1, k);
    TurnsTaken(c, b, base, 1);
    BytesHeld(c, prog, 1, k, i, Turns(prog, Rounds(c, prog, 1).value), AllWritten(b));
  }

  /** One rank rejects the settings exactly when they differ somewhere. */
  lemma SettingsCompared(c: Config, b: Batch, base: nat, k: nat, i: nat)
    requires ValidBatch(c, b) && i < c.world && 2 <= k && Rounds(c, Program(base, TrainStep(c, b)), k).Some?
    ensures |Rounds(c, Program(base, TrainStep(c, b)), k).value[i]| == k
    ensures (exists v | v in Rounds(c, Program(base, TrainStep(c, b)), k).value[i][1].bytes ::
             v != Written(b.workers[i])) <==>
      !SameSettings(b)
  {
    SettingsHeld(c, b, base, k, i);
    var bytes := AllWritten(b);
    if !SameSettings(b) {
      var x, y :| 0 <= x < c.world && 0 <= y < c.world && Written(b.workers[x]) != Written(b.workers[y]);
      assert bytes[x] in bytes && bytes[y] in bytes;
    }
  }

  lemma AskingGoesOn(count: nat, limit: nat, w: Worker, results: seq<Response>)
    requires 2 <= |results| && NextTurn(count, limit, w, results).Ask?
    ensures !exists v | v in results[1].bytes :: v != Written(w)
    ensures !Leaves(count, w, Gathered(count, results), |results|)
    ensures NextTurn(count, limit, w, results) ==
      Going(count, w, Gathered(count, results), Scattered(count, results), |results|)
  {
  }

  /** Rank `i` goes on after `k` collectives. */
  lemma GoesOn(c: Config, b: Batch, base: nat, k: nat, i: nat)
    requires ValidBatch(c, b) && i < c.world && 2 <= k && Rounds(c, Program(base, TrainStep(c, b)), k + 1).Some?
    ensures Rounds(c, Program(base, TrainStep(c, b)), k).Some?
    ensures var results := Rounds(c, Program(base, TrainStep(c, b)), k).value[i];
      var full := Gathered(b.count, results);
      |results| == k && !Leaves(b.count, b.workers[i], full, k) &&
      TrainStep(c, b)(i, results) == Going(b.count, b.workers[i], full, Scattered(b.count, results), k)
    ensures SameSettings(b)
  {
    var prog := Program(base, TrainStep(c, b));
    EarlierRounds(c, prog, k, k + 1);
    SettingsCompared(c, b, base, k, i);
    assert prog.turn(i, Rounds(c, prog, k).value[i]).Ask?;
    AskingGoesOn(b.count, c.limit, b.workers[i], Rounds(c, prog, k).value[i]);
  }

  predicate Transportable(b: Batch, n: nat)
  {
    forall q, j | 0 <= q < |b.workers| && 0 <= j < n :: Shard(b.workers[q], j).Some?
  }

  /** Every rank's shard of parameter `j`. */
  function PartsOf(b: Batch, j: nat): (parts: seq<Payload>)
    requires forall q | 0 <= q < |b.workers| :: Shard(b.workers[q], j).Some?
    ensures |parts| == |b.workers|
  {
    seq(|b.workers|, q requires 0 <= q < |b.workers| => Shard(b.workers[q], j).value)
  }

  function FullOf(b: Batch, n: nat): (full: Full)
    requires Transportable(b, n)
    ensures |full| == n
  {
    seq(n, j requires 0 <= j < n => PartsOf(b, j))
  }

  lemma PartTurn(c: Config, b: Batch, base: nat, j: nat, i: nat)
    requires ValidBatch(c, b) && i < c.world && j < b.count && Rounds(c, Program(base, TrainStep(c, b)), 5 + j).Some?
    ensures Rounds(c, Program(base, TrainStep(c, b)), 4 + j).Some?
    ensures TrainStep(c, b)(i, Rounds(c, Program(base, TrainStep(c, b)), 4 + j).value[i]) ==
      Ask(AllGather, Single(Shard(b.workers[i], j)), [])
    ensures Shard(b.workers[i], j).Some?
  {
    var prog := Program(base, TrainStep(c, b));
    GoesOn(c, b, base, 4 + j, i);
    TurnsTaken(c, b, base, 4 + j);
    NoneFailed(c, prog, 4 + j, 5 + j, Turns(prog, Rounds(c, prog, 4 + j).value));
  }

  /** Every rank gathers the same parts of parameter `j`. */
  lemma PartsHeld(c: Config, b: Batch, base: nat, j: nat, k: nat, i: nat)
    requires ValidBatch(c, b) && i < c.world && j < b.count && 5 + j <= k
    requires Rounds(c, Program(base, TrainStep(c, b)), k).Some?
    ensures forall q | 0 <= q < |b.workers| :: Shard(b.workers[q], j).Some?
    ensures |Rounds(c, Program(base, TrainStep(c, b)), k).value[i]| == k
    ensures Rounds(c, Program(base, TrainStep(c, b)), k).value[i][4 + j].tensors == PartsOf(b, j)
  {
    var prog := Program(base, TrainStep(c, b));
    EarlierRounds(c, prog, 4 + j, k);
    EarlierResults(c, prog, 5 + j, k, i);
    forall q | 0 <= q < c.world
      ensures Shard(b.workers[q], j).Some?
      ensures Turns(prog, Rounds(c, prog, 4 + j).value)[q] == Ask(AllGather, Single(Shard(b.workers[q], j)), [])
    {
      PartTurn(c, b, base, j, q);
    }
    GatherHeld(c, prog, 4 + j, k, i, Turns(prog, Rounds(c, prog, 4 + j).value), PartsOf(b, j));
  }

  /** What a rank has gathered is the same at every rank, and in every run. */
  lemma GatheredIs(c: Config, b: Batch, base: nat, k: nat, i: nat)
    requires ValidBatch(c, b) && i < c.world && Rounds(c, Program(base, TrainStep(c, b)), k).Some?
    ensures Transportable(b, GatheredBy(b.count, k))
    ensures |Rounds(c, Program(base, TrainStep(c, b)), k).value[i]| == k
    ensures Gathered(b.count, Rounds(c, Program(base, TrainStep(c, b)), k).value[i]) ==
      FullOf(b, GatheredBy(b.count, k))
  {
    var n := GatheredBy(b.count, k);
    forall q, j | 0 <= q < |b.workers| && 0 <= j < n
      ensures Shard(b.workers[q], j).Some?
    {
      PartsHeld(c, b, base, j, k, i);
    }
    forall j | 0 <= j < n
      ensures Rounds(c, Program(base, TrainStep(c, b)), k).value[i][4 + j].tensors == PartsOf(b, j)
    {
      PartsHeld(c, b, base, j, k, i);
    }
  }

  // ---- who leaves, and what the others do ----

  /** After `k` collectives an unagreed call fails at rank `i`. */
  predicate LeavesAt(b: Batch, k: nat, i: nat)
  {
    i < |b.workers| && Transportable(b, GatheredBy(b.count, k)) &&
    Leaves(b.count, b.workers[i], FullOf(b, GatheredBy(b.count, k)), k)
  }

  /** It fails at one rank and not at another. */
  ghost predicate Alone(b: Batch, k: nat)
  {
    exists i, j :: 0 <= i < |b.workers| && 0 <= j < |b.workers| && LeavesAt(b, k, i) && !LeavesAt(b, k, j)
  }

  datatype Stage = Wants(operation: Operation) | Ends(ok: bool)

  /** What a rank that does not leave does after `k` collectives. */
  function StageAt(b: Batch, k: nat): Stage
  {
    if k == 0 then Wants(Barrier)
    else if k == 1 then Wants(Bytes)
    else if !SameSettings(b) then Ends(false)
    else if k < 4 then Wants(Barrier)
    else if k < 4 + b.count then Wants(AllGather)
    else if k < 7 + b.count then Wants(Barrier)
    else if k < 7 + 2 * b.count then Wants(ReduceScatter(Mean))
    else if k < 10 + 2 * b.count then Wants(Barrier)
    else if k == 10 + 2 * b.count then Wants(AllReduce(Mean))
    else Ends(true)
  }

  predicate TakesTurn(t: Turn, stage: Stage)
  {
    match stage
    case Wants(operation) => t.Ask? && t.operation == operation
    case Ends(ok) => t == Quit(ok)
  }

  lemma GoingStage(b: Batch, w: Worker, full: Full, reduced: Full, k: nat)
    requires 2 <= k && SameSettings(b)
    ensures TakesTurn(Going(b.count, w, full, reduced, k), StageAt(b, k))
  {
  }

  lemma TurnAt(b: Batch, limit: nat, w: Worker, results: seq<Response>, k: nat)
    requires |results| == k
    requires k >= 2 ==> ((exists v | v in results[1].bytes :: v != Written(w)) <==> !SameSettings(b))
    requires Leaves(b.count, w, Gathered(b.count, results), k) ==> k >= 2 && SameSettings(b)
    ensures Leaves(b.count, w, Gathered(b.count, results), k) ==> NextTurn(b.count, limit, w, results) == Quit(true)
    ensures !Leaves(b.count, w, Gathered(b.count, results), k) ==>
      TakesTurn(NextTurn(b.count, limit, w, results), StageAt(b, k))
  {
    if k >= 2 && SameSettings(b) {
      GoingStage(b, w, Gathered(b.count, results), Scattered(b.count, results), k);
    }
  }

  lemma StageReached(c: Config, b: Batch, base: nat, k: nat, i: nat)
    requires ValidBatch(c, b) && i < c.world && Rounds(c, Program(base, TrainStep(c, b)), k).Some?
    ensures var t := TrainStep(c, b)(i, Rounds(c, Program(base, TrainStep(c, b)), k).value[i]);
      if LeavesAt(b, k, i) then t == Quit(true) else TakesTurn(t, StageAt(b, k))
  {
    var results := Rounds(c, Program(base, TrainStep(c, b)), k).value[i];
    GatheredIs(c, b, base, k, i);
    if k >= 2 {
      SettingsCompared(c, b, base, k, i);
    }
    if k >= 3 {
      EarlierRounds(c, Program(base, TrainStep(c, b)), 2, k);
      EarlierResults(c, Program(base, TrainStep(c, b)), 3, k, i);
      GoesOn(c, b, base, 2, i);
    }
    TurnAt(b, c.limit, b.workers[i], results, k);
  }

  /** A rank that leaves does so in the middle of a step. */
  lemma LeavesEarly(b: Batch, k: nat, i: nat)
    requires LeavesAt(b, k, i)
    ensures 4 < k < 7 + 2 * b.count || k == 4 + b.count
  {
  }

  // ---- the exact condition for staying together ----

  /** Wherever the step gets to, no unagreed call fails at some ranks only. */
  ghost predicate NeverAlone(c: Config, b: Batch, base: nat)
    requires ValidBatch(c, b)
  {
    forall k: nat :: NotAloneAt(c, b, base, k)
  }

  ghost predicate NotAloneAt(c: Config, b: Batch, base: nat, k: nat)
    requires ValidBatch(c, b)
  {
    Rounds(c, Program(base, TrainStep(c, b)), k).Some? ==> !Alone(b, k)
  }

  lemma TogetherIfNotAlone(c: Config, b: Batch, base: nat, k: nat)
    requires ValidBatch(c, b) && Rounds(c, Program(base, TrainStep(c, b)), k).Some? && !Alone(b, k)
    ensures Together(Program(base, TrainStep(c, b)), Rounds(c, Program(base, TrainStep(c, b)), k).value)
  {
    var prog := Program(base, TrainStep(c, b));
    var history := Rounds(c, prog, k).value;
    var stage := if LeavesAt(b, k, 0) then Ends(true) else StageAt(b, k);
    forall i | 0 <= i < c.world
      ensures TakesTurn(prog.turn(i, history[i]), stage)
    {
      StageReached(c, b, base, k, i);
      assert LeavesAt(b, k, i) <==> LeavesAt(b, k, 0);
    }
    if stage.Ends? {
      assert forall i | 0 <= i < c.world :: prog.turn(i, history[i]) == Quit(stage.ok);
    }
  }

  lemma ApartIfAlone(c: Config, b: Batch, base: nat, k: nat)
    requires ValidBatch(c, b) && Rounds(c, Program(base, TrainStep(c, b)), k).Some? && Alone(b, k)
    ensures !Together(Program(base, TrainStep(c, b)), Rounds(c, Program(base, TrainStep(c, b)), k).value)
  {
    var i, j :| 0 <= i < |b.workers| && 0 <= j < |b.workers| && LeavesAt(b, k, i) && !LeavesAt(b, k, j);
    StageReached(c, b, base, k, i);
    StageReached(c, b, base, k, j);
    LeavesEarly(b, k, i);
  }

  /** The ranks stay together exactly if no unagreed call fails at some ranks only. */
  lemma AlignedIffNeverAlone(c: Config, b: Batch, base: nat)
    requires ValidBatch(c, b)
    ensures Aligned(c, Program(base, TrainStep(c, b))) <==> NeverAlone(c, b, base)
  {
    forall k: nat
      ensures TogetherAt(TableOf(c), Program(base, TrainStep(c, b)), k) <==> NotAloneAt(c, b, base, k)
    {
      if Rounds(c, Program(base, TrainStep(c, b)), k).Some? {
        if Alone(b, k) {
          ApartIfAlone(c, b, base, k);
        } else {
          TogetherIfNotAlone(c, b, base, k);
        }
      }
    }
  }
}
