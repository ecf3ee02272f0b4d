/** A training step on shards that one rank leaves alone (`full_parameters`,
    src/distributed/training.rs): making the gathered parameter whole is not agreed on. */
module ShardedWitness {
  import opened Wrappers
  import opened Collectives
  import opened ProcessGroup
  import opened CollectivePrograms
  import opened Lockstep
  import opened RoundResults
  import opened ShardedSteps
  import ReplicatedTraining

  function OneElement(): Payload
  {
    Payload([1], Float, [0, 0, 0, 0])
  }

  /** All local calls succeed, but for making the parameter whole at the second rank. */
  function Trainee(whole: bool): Worker
  {
    Worker(Some([]), true, true, [Some(OneElement())], _ => whole, _ => true, _ => true, _ => true,
           _ => Some(OneElement()), _ => true, (_, _) => Pieces([OneElement(), OneElement()]), true, _ => true,
           _ => true)
  }

  function Pair(): Batch
  {
    Batch(1, [Trainee(true), Trainee(false)])
  }

  function Two(a: Arithmetic): Config
  {
    Config(2, 1024, a)
  }

  /** What both ranks ask for before the parameter is gathered. */
  function Common(k: nat): Turn
    requires k < 5
  {
    if k == 1 then Ask(Bytes, Some([]), []) else if k < 4 then Ask(Barrier, Some([]), [])
    else Ask(AllGather, Some([OneElement()]), [])
  }

  lemma OneElementValid()
    ensures ValidPayload(OneElement(), 1024)
  {
    var shape := OneElement().shape;
    assert shape[..|shape| - 1] == [];
    assert Elements([]) == Some(1);
  }

  lemma TwoSmall(r: Request)
    requires r.bytes == [] && (r.tensors == [] || r.tensors == [OneElement()])
    ensures WorkingSet([r, r]) * 2 <= 1024 && Flat([r, r]) == r.tensors + r.tensors
  {
    assert [r, r][..1] == [r] && [r][..0] == [];
    assert [OneElement()][..0] == [];
    assert Size(r.tensors) <= 76 && WorkingSet([r]) <= 76;
    assert Flat([r]) == r.tensors;
  }

  lemma CommonAgreed(k: nat, sequence: nat)
    requires k < 5
    ensures Agreed([RequestOf(Common(k), sequence), RequestOf(Common(k), sequence)], 1024)
  {
    OneElementValid();
    TwoSmall(RequestOf(Common(k), sequence));
  }

  lemma CommonAnswered(k: nat, sequence: nat, a: Arithmetic)
    requires k < 5
    ensures Evaluated([RequestOf(Common(k), sequence), RequestOf(Common(k), sequence)], 1024, a).Some?
  {
    CommonAgreed(k, sequence);
  }

  lemma TakesCommon(a: Arithmetic, k: nat, i: nat)
    requires k < 5 && i < 2 && Rounds(Two(a), Program(0, TrainStep(Two(a), Pair())), k).Some?
    ensures TrainStep(Two(a), Pair())(i, Rounds(Two(a), Program(0, TrainStep(Two(a), Pair())), k).value[i]) == Common(k)
  {
    if k >= 2 {
      SettingsCompared(Two(a), Pair(), 0, k, i);
    }
  }

  lemma CommonRound(a: Arithmetic, k: nat)
    requires k < 5 && Rounds(Two(a), Program(0, TrainStep(Two(a), Pair())), k).Some?
    ensures Rounds(Two(a), Program(0, TrainStep(Two(a), Pair())), k + 1).Some?
  {
    var c, prog := Two(a), Program(0, TrainStep(Two(a), Pair()));
    var history := Rounds(c, prog, k).value;
    TakesCommon(a, k, 0);
    TakesCommon(a, k, 1);
    assert Turns(prog, history) == [Common(k), Common(k)];
    AskedTurns(c, prog, k, history, [Common(k), Common(k)]);
    assert Asked(c, prog, history, k) == [RequestOf(Common(k), k), RequestOf(Common(k), k)];
    CommonAnswered(k, k, a);
    RoundIs(c, prog, k);
  }

  lemma {:induction false} CommonRounds(a: Arithmetic, k: nat)
    requires k <= 5
    ensures Rounds(Two(a), Program(0, TrainStep(Two(a), Pair())), k).Some?
  {
    if k > 0 {
      CommonRounds(a, k - 1);
      CommonRound(a, k - 1);
    }
  }

  lemma SecondFails()
    ensures LeavesAt(Pair(), 5, 1) && !LeavesAt(Pair(), 5, 0) && Alone(Pair(), 5)
  {
    var b := Pair();
    assert GatheredBy(b.count, 5) == 1;
    assert Shard(b.workers[0], 0).Some? && Shard(b.workers[1], 0).Some?;
    assert Transportable(b, 1);
    assert LeavesAt(b, 5, 1) && !LeavesAt(b, 5, 0);
  }

  /** Two ranks, one parameter: after five collectives the second rank stops and the first does not. */
  lemma OneRankLeavesAlone(a: Arithmetic) returns (c: Config, b: Batch)
    ensures ValidBatch(c, b) && Rounds(c, Program(0, TrainStep(c, b)), 5).Some?
    ensures LeavesAt(b, 5, 1) && !LeavesAt(b, 5, 0)
    ensures !NeverAlone(c, b, 0) && !Aligned(c, Program(0, TrainStep(c, b)))
  {
    c, b := Two(a), Pair();
    CommonRounds(a, 5);
    SecondFails();
    PartsHere(c, b, 5);
    AlignedIffNeverAlone(c, b, 0);
  }

  lemma PartsHere(c: Config, b: Batch, k: nat)
    requires ValidBatch(c, b) && Rounds(c, Program(0, TrainStep(c, b)), k).Some? && Alone(b, k)
    ensures !NeverAlone(c, b, 0)
  {
    assert !NotAloneAt(c, b, 0, k);
  }
}
