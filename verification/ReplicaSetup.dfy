/** How a replicated model starts (`DistributedDataParallel::new`,
    src/distributed/training.rs): the ranks compare their layouts, then take over
    rank zero's variables. It is an aligned program, so training may follow it. */
module ReplicaSetup {
  import opened Wrappers
  import opened Collectives
  import opened ProcessGroup
  import opened CollectivePrograms
  import opened Chaining
  import opened Lockstep
  import opened Resuming
  import opened ReplicatedTraining

  datatype Variable = Variable(name: string, payload: Payload, trained: bool)

  datatype Slot = Slot(name: string, spec: Spec, trained: bool)

  /** Each rank's variables, `None` where capturing one fails. */
  datatype Models = Models(ranks: seq<Option<seq<Variable>>>, encode: seq<Slot> -> seq<Byte>)

  ghost predicate ValidModels(c: Config, models: Models)
  {
    ValidConfig(c) && |models.ranks| == c.world && forall a, b :: models.encode(a) == models.encode(b) ==> a == b
  }

  function Layout(variables: seq<Variable>): (r: seq<Slot>)
    ensures |r| == |variables|
  {
    seq(|variables|, i requires 0 <= i < |variables| =>
      Slot(variables[i].name, Spec(variables[i].payload.shape, variables[i].payload.kind), variables[i].trained))
  }

  function Written(models: Models, own: Option<seq<Variable>>): seq<Byte>
  {
    if own.Some? then models.encode(Layout(own.value)) else []
  }

  function NextTurn(models: Models, limit: nat, own: Option<seq<Variable>>, results: seq<Response>): Turn
  {
    var k := |results|;
    if k == 0 then Agree(own.Some?)
    else if k == 1 then Exchange(Written(models, own), limit)
    else if exists v | v in results[1].bytes :: v != Written(models, own) then Quit(false)
    else if own.Some? && k - 2 < |own.value| then Ask(Broadcast(0), Some([own.value[k - 2].payload]), [])
    else Quit(true)
  }

  /** `DistributedDataParallel::new`, as each rank runs it. */
  function SetUp(c: Config, models: Models): Turning
  {
    (r: nat, results: seq<Response>) =>
      if r < |models.ranks| then NextTurn(models, c.limit, models.ranks[r], results) else Quit(true)
  }

  predicate SameLayouts(c: Config, models: Models)
    requires |models.ranks| == c.world
  {
    forall i, j | 0 <= i < c.world && 0 <= j < c.world ::
      Written(models, models.ranks[i]) == Written(models, models.ranks[j])
  }

  // ---- what the first two collectives establish ----

  lemma TurnOf(c: Config, models: Models, base: nat, k: nat, i: nat)
    requires ValidModels(c, models) && i < c.world && Asking(c, Program(base, SetUp(c, models)), k)
    ensures var history := Rounds(c, Program(base, SetUp(c, models)), k).value;
      |history[i]| == k && NextTurn(models, c.limit, models.ranks[i], history[i]).Ask? &&
      Asked(c, Program(base, SetUp(c, models)), history, k)[i] ==
        RequestOf(NextTurn(models, c.limit, models.ranks[i], history[i]), base + k)
  {
  }

  lemma Captured(c: Config, models: Models, base: nat, i: nat)
    requires ValidModels(c, models) && i < c.world && Rounds(c, Program(base, SetUp(c, models)), 1).Some?
    ensures models.ranks[i].Some?
  {
    RoundSucceeded(c, Program(base, SetUp(c, models)), 0, i);
    TurnOf(c, models, base, 0, i);
  }

  lemma LayoutSent(c: Config, models: Models, base: nat, i: nat)
    requires ValidModels(c, models) && i < c.world && Rounds(c, Program(base, SetUp(c, models)), 2).Some?
    ensures Asking(c, Program(base, SetUp(c, models)), 1)
    ensures var asked := Asked(c, Program(base, SetUp(c, models)), Rounds(c, Program(base, SetUp(c, models)), 1).value,
                               1);
      asked[i].operation == Bytes && asked[i].bytes == Written(models, models.ranks[i])
  {
    RoundSucceeded(c, Program(base, SetUp(c, models)), 1, i);
    TurnOf(c, models, base, 1, i);
  }

  lemma LayoutsExchanged(c: Config, models: Models, base: nat, i: nat)
    requires ValidModels(c, models) && i < c.world && Rounds(c, Program(base, SetUp(c, models)), 2).Some?
    ensures Rounds(c, Program(base, SetUp(c, models)), 2).value[i][1].bytes ==
      seq(c.world, q requires 0 <= q < c.world => Written(models, models.ranks[q]))
  {
    var prog := Program(base, SetUp(c, models));
    RoundSucceeded(c, prog, 1, i);
    var asked := Asked(c, prog, Rounds(c, prog, 1).value, 1);
    forall q | 0 <= q < c.world
      ensures asked[q].operation == Bytes && asked[q].bytes == Written(models, models.ranks[q])
    {
      LayoutSent(c, models, base, q);
    }
    ByteEntry(asked, c.limit, c.arithmetic, i);
  }

  lemma LayoutsHeld(c: Config, models: Models, base: nat, k: nat, i: nat)
    requires ValidModels(c, models) && i < c.world && 2 <= k && Rounds(c, Program(base, SetUp(c, models)), k).Some?
    ensures |Rounds(c, Program(base, SetUp(c, models)), k).value[i]| == k
    ensures Rounds(c, Program(base, SetUp(c, models)), k).value[i][1].bytes ==
      seq(c.world, q requires 0 <= q < c.world => Written(models, models.ranks[q]))
  {
    EarlierResults(c, Program(base, SetUp(c, models)), 2, k, i);
    LayoutsExchanged(c, models, base, i);
    var all := Rounds(c, Program(base, SetUp(c, models)), k).value[i];
    assert all[..2][1] == all[1];
  }

  /** One rank rejects the layouts exactly when they differ somewhere. */
  lemma LayoutsCompared(c: Config, models: Models, base: nat, k: nat, i: nat)
    requires ValidModels(c, models) && i < c.world && 2 <= k && Rounds(c, Program(base, SetUp(c, models)), k).Some?
    ensures (exists v | v in Rounds(c, Program(base, SetUp(c, models)), k).value[i][1].bytes ::
             v != Written(models, models.ranks[i])) <==>
      !SameLayouts(c, models)
  {
    LayoutsHeld(c, models, base, k, i);
    var bytes := Rounds(c, Program(base, SetUp(c, models)), k).value[i][1].bytes;
    if !SameLayouts(c, models) {
      var x, y :| 0 <= x < c.world && 0 <= y < c.world &&
        Written(models, models.ranks[x]) != Written(models, models.ranks[y]);
      assert bytes[x] in bytes && bytes[y] in bytes;
    }
  }

  /** How many variables are broadcast. */
  function Size(models: Models): nat
  {
    if models.ranks == [] || models.ranks[0].None? then 0 else |models.ranks[0].value|
  }

  lemma SameSizes(c: Config, models: Models, base: nat, k: nat, i: nat)
    requires ValidModels(c, models) && i < c.world && 2 <= k && Rounds(c, Program(base, SetUp(c, models)), k).Some?
    requires SameLayouts(c, models)
    ensures models.ranks[i].Some? && |models.ranks[i].value| == Size(models)
  {
    EarlierRounds(c, Program(base, SetUp(c, models)), 1, k);
    Captured(c, models, base, i);
    Captured(c, models, base, 0);
    assert models.encode(Layout(models.ranks[i].value)) == models.encode(Layout(models.ranks[0].value));
  }

  // ---- the ranks stay together ----

  datatype Stage = Checking | Comparing | Broadcasting | Leaving(ok: bool)

  function StageAt(c: Config, models: Models, k: nat): Stage
    requires |models.ranks| == c.world
  {
    if k == 0 then Checking
    else if k == 1 then Comparing
    else if !SameLayouts(c, models) then Leaving(false)
    else if k - 2 < Size(models) then Broadcasting
    else Leaving(true)
  }

  predicate TakesTurn(t: Turn, stage: Stage)
  {
    match stage
    case Checking => t.Ask? && t.operation == Barrier
    case Comparing => t.Ask? && t.operation == Bytes
    case Broadcasting => t.Ask? && t.operation == Broadcast(0)
    case Leaving(ok) => t == Quit(ok)
  }

  lemma TurnAt(c: Config, models: Models, k: nat, own: Option<seq<Variable>>, results: seq<Response>)
    requires |models.ranks| == c.world && |results| == k
    requires k >= 2 ==> ((exists v | v in results[1].bytes :: v != Written(models, own)) <==> !SameLayouts(c, models))
    requires k >= 2 && SameLayouts(c, models) ==> own.Some? && |own.value| == Size(models)
    ensures TakesTurn(NextTurn(models, c.limit, own, results), StageAt(c, models, k))
  {
  }

  lemma StageReached(c: Config, models: Models, base: nat, k: nat, i: nat)
    requires ValidModels(c, models) && i < c.world && Rounds(c, Program(base, SetUp(c, models)), k).Some?
    ensures TakesTurn(SetUp(c, models)(i, Rounds(c, Program(base, SetUp(c, models)), k).value[i]),
                      StageAt(c, models, k))
  {
    var results := Rounds(c, Program(base, SetUp(c, models)), k).value[i];
    if k >= 2 {
      LayoutsCompared(c, models, base, k, i);
      if SameLayouts(c, models) {
        SameSizes(c, models, base, k, i);
      }
    }
    TurnAt(c, models, k, models.ranks[i], results);
  }

  lemma StageTogether(c: Config, models: Models, base: nat, k: nat)
    requires ValidModels(c, models) && Rounds(c, Program(base, SetUp(c, models)), k).Some?
    ensures Together(Program(base, SetUp(c, models)), Rounds(c, Program(base, SetUp(c, models)), k).value)
    ensures SameOperation(Turns(Program(base, SetUp(c, models)), Rounds(c, Program(base, SetUp(c, models)), k).value))
  {
    var prog := Program(base, SetUp(c, models));
    var history := Rounds(c, prog, k).value;
    forall i | 0 <= i < c.world
      ensures TakesTurn(prog.turn(i, history[i]), StageAt(c, models, k))
    {
      StageReached(c, models, base, k, i);
    }
    var stage := StageAt(c, models, k);
    if stage.Leaving? {
      assert forall i | 0 <= i < c.world :: prog.turn(i, history[i]) == Quit(stage.ok);
    }
  }

  /** Begun at any sequence number, the ranks stay together and ask for the same operations. */
  lemma SetUpAligned(c: Config, models: Models, base: nat)
    requires ValidModels(c, models)
    ensures Aligned(c, Program(base, SetUp(c, models))) && Uniform(TableOf(c), Program(base, SetUp(c, models)))
  {
    var prog := Program(base, SetUp(c, models));
    forall k: nat
      ensures TogetherAt(TableOf(c), prog, k) && UniformAt(TableOf(c), prog, k)
    {
      if Rounds(c, prog, k).Some? {
        StageTogether(c, models, base, k);
      }
    }
  }

  lemma SetUpEnds(c: Config, models: Models, base: nat)
    requires ValidModels(c, models)
    ensures EndsBy(TableOf(c), Program(base, SetUp(c, models)), 2 + Size(models))
  {
    var n := 2 + Size(models);
    if Rounds(c, Program(base, SetUp(c, models)), n + 1).Some? {
      RoundSucceeded(c, Program(base, SetUp(c, models)), n, 0);
      StageReached(c, models, base, n, 0);
    }
    EndsWithoutNext(TableOf(c), Program(base, SetUp(c, models)), n);
  }

  // ---- every replica starts from rank zero's variables ----

  lemma BroadcastEntry(requests: seq<Request>, limit: nat, a: Arithmetic, i: nat, payload: Payload)
    requires requests != [] && i < |requests| && requests[0].operation == Broadcast(0)
    requires requests[0].tensors == [payload]
    requires Evaluated(requests, limit, a).Some?
    ensures Evaluated(requests, limit, a).value[i].tensors == [payload]
  {
    assert Evaluated(requests, limit, a).value[i] == Entry(requests, limit, a, i).value;
  }

  lemma BroadcastTurn(models: Models, limit: nat, own: seq<Variable>, results: seq<Response>)
    requires 2 <= |results| && |results| - 2 < |own|
    requires !exists v | v in results[1].bytes :: v != Written(models, Some(own))
    ensures NextTurn(models, limit, Some(own), results) == Ask(Broadcast(0), Some([own[|results| - 2].payload]), [])
  {
  }

  lemma FirstSends(c: Config, models: Models, base: nat, j: nat)
    requires ValidModels(c, models) && SameLayouts(c, models) && j < Size(models)
    requires Asking(c, Program(base, SetUp(c, models)), 2 + j)
    ensures models.ranks[0].Some?
    ensures var asked := Asked(c, Program(base, SetUp(c, models)),
                               Rounds(c, Program(base, SetUp(c, models)), 2 + j).value, 2 + j);
      asked[0].operation == Broadcast(0) && asked[0].tensors == [models.ranks[0].value[j].payload]
  {
    SameSizes(c, models, base, 2 + j, 0);
    LayoutsCompared(c, models, base, 2 + j, 0);
    BroadcastTurn(models, c.limit, models.ranks[0].value, Rounds(c, Program(base, SetUp(c, models)), 2 + j).value[0]);
    TurnOf(c, models, base, 2 + j, 0);
  }

  lemma VariableSent(c: Config, models: Models, base: nat, j: nat, i: nat)
    requires ValidModels(c, models) && i < c.world && SameLayouts(c, models) && j < Size(models)
    requires Rounds(c, Program(base, SetUp(c, models)), 3 + j).Some?
    ensures models.ranks[0].Some?
    ensures Rounds(c, Program(base, SetUp(c, models)), 3 + j).value[i][2 + j].tensors ==
      [models.ranks[0].value[j].payload]
  {
    var prog := Program(base, SetUp(c, models));
    RoundSucceeded(c, prog, 2 + j, i);
    FirstSends(c, models, base, j);
    BroadcastEntry(Asked(c, prog, Rounds(c, prog, 2 + j).value, 2 + j), c.limit, c.arithmetic, i,
                   models.ranks[0].value[j].payload);
  }

  lemma VariableHeld(c: Config, models: Models, base: nat, k: nat, i: nat, results: seq<Response>, j: nat)
    requires ValidModels(c, models) && i < c.world && SameLayouts(c, models) && j < Size(models)
    requires 3 + j <= k == |results|
    requires Rounds(c, Program(base, SetUp(c, models)), k).Some?
    requires Rounds(c, Program(base, SetUp(c, models)), k).value[i] == results
    ensures models.ranks[0].Some? && results[2 + j].tensors == [models.ranks[0].value[j].payload]
  {
    EarlierResults(c, Program(base, SetUp(c, models)), 3 + j, k, i);
    VariableSent(c, models, base, j, i);
    assert results[..3 + j][2 + j] == results[2 + j];
  }

  lemma SetUpLength(c: Config, models: Models, base: nat, k: nat)
    requires ValidModels(c, models) && CompletesAt(TableOf(c), Program(base, SetUp(c, models)), k)
    ensures SameLayouts(c, models) && models.ranks[0].Some? && k == 2 + Size(models)
  {
    StageReached(c, models, base, k, 0);
    SetUpEnds(c, models, base);
    NotPast(TableOf(c), Program(base, SetUp(c, models)), 2 + Size(models), k);
    SameSizes(c, models, base, k, 0);
  }

  /** Where construction returned Ok, every rank was given every variable of rank zero. */
  lemma StartsFromRankZero(c: Config, models: Models, base: nat, k: nat, i: nat)
    requires ValidModels(c, models) && i < c.world && CompletesAt(TableOf(c), Program(base, SetUp(c, models)), k)
    ensures models.ranks[0].Some? && k == 2 + Size(models)
    ensures forall j | 0 <= j < Size(models) ::
      Rounds(c, Program(base, SetUp(c, models)), k).value[i][2 + j].tensors == [models.ranks[0].value[j].payload]
  {
    SetUpLength(c, models, base, k);
    var results := Rounds(c, Program(base, SetUp(c, models)), k).value[i];
    forall j | 0 <= j < Size(models)
      ensures results[2 + j].tensors == [models.ranks[0].value[j].payload]
    {
      VariableHeld(c, models, base, k, i, results, j);
    }
  }

  // ---- construction, then training ----

  /** A group just formed: every rank constructs its replica, then synchronises gradients once per
      training step. Without transport faults the outcome is the same at every rank. */
  lemma TrainingFromTheStart(c: Config, models: Models, jobs: seq<Job>, schedule: seq<nat>)
    requires ValidModels(c, models) && ValidJobs(c, jobs)
    ensures Settled(c, Start(c), 0)
    ensures var prog := Resumed(Training(c, Program(0, SetUp(c, models)), jobs), Start(c));
      var s := Drive(c, prog, Start(c), schedule);
      SameOperations(Start(c), s) &&
      (AllReturned(c, prog, s) ==>
         (forall r | 0 <= r < c.world :: s[r].failed) ||
         ((forall r | 0 <= r < c.world :: !s[r].failed && Held(c, jobs, r, Since(Start(c), s, r))) &&
          Settled(c, s, s[0].sequence)))
  {
    StartSettled(c);
    SetUpAligned(c, models, 0);
    CoherentOutcome(c, Program(0, SetUp(c, models)), jobs, Start(c), schedule);
  }
}
