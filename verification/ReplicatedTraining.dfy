/** Gradient synchronisation of replicated models (src/distributed/training.rs).

    Each rank's `sync_gradients` is a collective program: what it asks for next
    is a function of its own replica and of the results it has had. */
module ReplicatedTraining {
  import opened Wrappers
  import opened Collectives
  import opened ProcessGroup
  import opened CollectivePrograms
  import opened Chaining
  import opened Lockstep
  import opened Resuming

  datatype Spec = Spec(shape: seq<int>, kind: ElementType)

  datatype Parameter = Parameter(name: string, spec: Spec)

  /** `Untransportable`: sparse, on another device, or of an unsupported type. */
  datatype Gradient = Undefined | Untransportable | Dense(payload: Payload)

  /** What a rank finds locally. `gradients` is `None` if reading them fails;
      `copies` tells whether writing the averaged gradients back succeeds. */
  datatype Replica = Replica(
    belongs: bool, registered: bool,
    parameters: seq<Parameter>, gradients: Option<seq<Gradient>>,
    copies: seq<Response> -> bool)

  datatype Listing = Listing(name: string, spec: Option<Spec>)

  datatype Job = Job(replicas: seq<Replica>, encode: seq<Listing> -> seq<Byte>)

  /** The serialised metadata determines the metadata. */
  ghost predicate Injective(encode: seq<Listing> -> seq<Byte>)
  {
    forall a, b :: encode(a) == encode(b) ==> a == b
  }

  predicate ValidReplica(m: Replica)
  {
    m.gradients.Some? ==> |m.gradients.value| == |m.parameters|
  }

  function EntryFor(p: Parameter, g: Gradient): Option<Listing>
  {
    match g
    case Undefined => Some(Listing(p.name, None))
    case Untransportable => None
    case Dense(payload) =>
      if Spec(payload.shape, payload.kind) == p.spec then Some(Listing(p.name, Some(p.spec))) else None
  }

  /** The metadata of the first parameters, or an error if one gradient does not fit. */
  function EntriesFor(parameters: seq<Parameter>, gradients: seq<Gradient>): (r: Option<seq<Listing>>)
    requires |parameters| == |gradients|
    ensures r.Some? ==> |r.value| == |parameters|
  {
    if |parameters| == 0 then Some([])
    else
      var n := |parameters| - 1;
      var before, own := EntriesFor(parameters[..n], gradients[..n]), EntryFor(parameters[n], gradients[n]);
      if before.None? || own.None? then None else Some(before.value + [own.value])
  }

  function Metadata(m: Replica): Option<seq<Listing>>
    requires ValidReplica(m)
  {
    if m.gradients.None? then None else EntriesFor(m.parameters, m.gradients.value)
  }

  /** The gradients that take part, in parameter order. */
  function Defined(gradients: seq<Gradient>): seq<Payload>
  {
    if gradients == [] then []
    else
      var last := gradients[|gradients| - 1];
      Defined(gradients[..|gradients| - 1]) + if last.Dense? then [last.payload] else []
  }

  function Contribution(m: Replica): seq<Payload>
  {
    if m.gradients.None? then [] else Defined(m.gradients.value)
  }

  function Agree(status: bool): Turn
  {
    Ask(Barrier, if status then Some([]) else None, [])
  }

  function Exchange(bytes: seq<Byte>, limit: nat): Turn
  {
    if |bytes| <= limit then Ask(Bytes, Some([]), bytes) else Ask(Bytes, None, [])
  }

  function Encoded(job: Job, m: Replica): seq<Byte>
    requires ValidReplica(m)
  {
    if Metadata(m).Some? then job.encode(Metadata(m).value) else []
  }

  function Next(job: Job, limit: nat, m: Replica, results: seq<Response>): Turn
    requires ValidReplica(m)
  {
    var k := |results|;
    if k == 0 then Agree(m.belongs)
    else if k == 1 then Agree(m.registered)
    else if k == 2 then Agree(m.gradients.Some?)
    else if k == 3 then Agree(Metadata(m).Some?)
    else if k == 4 then Exchange(Encoded(job, m), limit)
    else if exists v | v in results[4].bytes :: v != Encoded(job, m) then Quit(false)
    else if k - 5 < |Contribution(m)| then Ask(AllReduce(Mean), Some([Contribution(m)[k - 5]]), [])
    else if k - 5 == |Contribution(m)| then Agree(m.copies(results))
    else Quit(true)
  }

  /** `sync_gradients`, as each rank runs it. */
  function SyncGradients(c: Config, job: Job): Turning
  {
    (r: nat, results: seq<Response>) =>
      if r < |job.replicas| && ValidReplica(job.replicas[r]) then
        Next(job, c.limit, job.replicas[r], results) else Quit(true)
  }

  ghost predicate ValidJob(c: Config, job: Job)
  {
    && ValidConfig(c) && |job.replicas| == c.world && Injective(job.encode)
    && forall m | m in job.replicas :: ValidReplica(m)
  }

  // ---- metadata decides who takes part ----

  function Present(entries: seq<Listing>): nat
  {
    if entries == [] then 0
    else Present(entries[..|entries| - 1]) + if entries[|entries| - 1].spec.Some? then 1 else 0
  }

  lemma {:induction false} ContributionCount(parameters: seq<Parameter>, gradients: seq<Gradient>)
    requires |parameters| == |gradients| && EntriesFor(parameters, gradients).Some?
    ensures |Defined(gradients)| == Present(EntriesFor(parameters, gradients).value)
  {
    if parameters != [] {
      var n := |parameters| - 1;
      assert EntriesFor(parameters[..n], gradients[..n]).Some?;
      ContributionCount(parameters[..n], gradients[..n]);
      var entries := EntriesFor(parameters, gradients).value;
      assert entries[..|entries| - 1] == EntriesFor(parameters[..n], gradients[..n]).value;
    }
  }

  // ---- rounds ----

  lemma RoundSucceeded(c: Config, prog: Program, k: nat, i: nat)
    requires 0 < c.world && i < c.world && Rounds(c, prog, k + 1).Some?
    ensures Asking(c, prog, k)
    ensures var asked := Asked(c, prog, Rounds(c, prog, k).value, k);
      Evaluated(asked, c.limit, c.arithmetic).Some? &&
      Rounds(c, prog, k + 1).value[i] == Rounds(c, prog, k).value[i] +
        [Evaluated(asked, c.limit, c.arithmetic).value[i]] &&
      !asked[i].failed
  {
    PreviousRound(c, prog, k + 1);
    RoundIs(c, prog, k);
    var asked := Asked(c, prog, Rounds(c, prog, k).value, k);
    assert Matches(asked[0], asked[i], c.limit);
  }

  /** What rank `i` asks as its collective number `k`. */
  lemma AskedOf(c: Config, job: Job, base: nat, k: nat, i: nat)
    requires ValidJob(c, job) && i < c.world && Asking(c, Program(base, SyncGradients(c, job)), k)
    ensures var history := Rounds(c, Program(base, SyncGradients(c, job)), k).value;
      |history[i]| == k && Next(job, c.limit, job.replicas[i], history[i]).Ask? &&
      Asked(c, Program(base, SyncGradients(c, job)), history, k)[i] ==
        RequestOf(Next(job, c.limit, job.replicas[i], history[i]), base + k)
  {
    assert job.replicas[i] in job.replicas;
  }

  lemma ByteEntry(requests: seq<Request>, limit: nat, a: Arithmetic, i: nat)
    requires requests != [] && i < |requests| && requests[0].operation.Bytes? && Evaluated(requests, limit, a).Some?
    ensures Evaluated(requests, limit, a).value[i].bytes ==
      seq(|requests|, q requires 0 <= q < |requests| => requests[q].bytes)
  {
    assert Evaluated(requests, limit, a).value[i] == Entry(requests, limit, a, i).value;
  }

  lemma MetadataChecked(c: Config, job: Job, base: nat, i: nat)
    requires ValidJob(c, job) && i < c.world && Rounds(c, Program(base, SyncGradients(c, job)), 4).Some?
    ensures Metadata(job.replicas[i]).Some?
  {
    RoundSucceeded(c, Program(base, SyncGradients(c, job)), 3, i);
    AskedOf(c, job, base, 3, i);
  }

  lemma BytesSent(c: Config, job: Job, base: nat, i: nat)
    requires ValidJob(c, job) && i < c.world && Rounds(c, Program(base, SyncGradients(c, job)), 5).Some?
    ensures Asking(c, Program(base, SyncGradients(c, job)), 4)
    ensures var asked := Asked(c, Program(base, SyncGradients(c, job)),
                               Rounds(c, Program(base, SyncGradients(c, job)), 4).value, 4);
      asked[i].operation == Bytes && asked[i].bytes == Encoded(job, job.replicas[i])
  {
    RoundSucceeded(c, Program(base, SyncGradients(c, job)), 4, i);
    AskedOf(c, job, base, 4, i);
  }

  /** After the metadata exchange every rank holds every rank's metadata. */
  lemma Exchanged(c: Config, job: Job, base: nat, i: nat)
    requires ValidJob(c, job) && i < c.world && Rounds(c, Program(base, SyncGradients(c, job)), 5).Some?
    ensures Rounds(c, Program(base, SyncGradients(c, job)), 5).value[i][4].bytes ==
      seq(c.world, q requires 0 <= q < c.world => Encoded(job, job.replicas[q]))
  {
    var prog := Program(base, SyncGradients(c, job));
    RoundSucceeded(c, prog, 4, i);
    var asked := Asked(c, prog, Rounds(c, prog, 4).value, 4);
    forall q | 0 <= q < c.world
      ensures asked[q].operation == Bytes && asked[q].bytes == Encoded(job, job.replicas[q])
    {
      BytesSent(c, job, base, q);
    }
    ByteEntry(asked, c.limit, c.arithmetic, i);
  }

  /** Every rank sees the same metadata, or none of them accepts it. */
  predicate SameMetadata(c: Config, job: Job)
    requires |job.replicas| == c.world && forall m | m in job.replicas :: ValidReplica(m)
  {
    forall i, j | 0 <= i < c.world && 0 <= j < c.world :: Encoded(job, job.replicas[i]) == Encoded(job, job.replicas[j])
  }

  lemma FifthResult(c: Config, job: Job, base: nat, k: nat, i: nat)
    requires ValidJob(c, job) && i < c.world && 5 <= k && Rounds(c, Program(base, SyncGradients(c, job)), k).Some?
    ensures |Rounds(c, Program(base, SyncGradients(c, job)), k).value[i]| == k
    ensures Rounds(c, Program(base, SyncGradients(c, job)), k).value[i][4].bytes ==
      seq(c.world, q requires 0 <= q < c.world => Encoded(job, job.replicas[q]))
  {
    EarlierResults(c, Program(base, SyncGradients(c, job)), 5, k, i);
    Exchanged(c, job, base, i);
    var all, first := Rounds(c, Program(base, SyncGradients(c, job)), k).value[i],
      Rounds(c, Program(base, SyncGradients(c, job)), 5).value[i];
    assert first == all[..5];
    assert first[4] == all[4];
  }

  /** `identical` fails at one rank exactly when it fails at all. */
  lemma IdenticalEverywhere(c: Config, job: Job, base: nat, k: nat, i: nat)
    requires ValidJob(c, job) && i < c.world && 5 <= k && Rounds(c, Program(base, SyncGradients(c, job)), k).Some?
    ensures (exists v | v in Rounds(c, Program(base, SyncGradients(c, job)), k).value[i][4].bytes ::
             v != Encoded(job, job.replicas[i])) <==>
      !SameMetadata(c, job)
  {
    FifthResult(c, job, base, k, i);
    var bytes := Rounds(c, Program(base, SyncGradients(c, job)), k).value[i][4].bytes;
    if !SameMetadata(c, job) {
      var x, y :| 0 <= x < c.world && 0 <= y < c.world &&
        Encoded(job, job.replicas[x]) != Encoded(job, job.replicas[y]);
      assert bytes[x] in bytes && bytes[y] in bytes;
    }
  }

  /** Equal metadata means the same number of gradients everywhere. */
  lemma SameContributions(c: Config, job: Job, base: nat, k: nat, i: nat, j: nat)
    requires ValidJob(c, job) && i < c.world && j < c.world && 5 <= k
    requires Rounds(c, Program(base, SyncGradients(c, job)), k).Some?
    requires SameMetadata(c, job)
    ensures |Contribution(job.replicas[i])| == |Contribution(job.replicas[j])|
  {
    EarlierRounds(c, Program(base, SyncGradients(c, job)), 4, k);
    MetadataChecked(c, job, base, i);
    MetadataChecked(c, job, base, j);
    var a, b := job.replicas[i], job.replicas[j];
    assert a in job.replicas && b in job.replicas;
    assert job.encode(Metadata(a).value) == job.encode(Metadata(b).value);
    ContributionCount(a.parameters, a.gradients.value);
    ContributionCount(b.parameters, b.gradients.value);
  }

  /** How many gradients are reduced once the metadata agree. */
  function Count(job: Job): nat
  {
    if job.replicas == [] then 0 else |Contribution(job.replicas[0])|
  }

  /** The kind of turn every rank takes after `k` successful collectives. */
  datatype Stage = Agreeing | Exchanging | Averaging | Ending(ok: bool)

  function StageAt(c: Config, job: Job, k: nat): Stage
    requires |job.replicas| == c.world && forall m | m in job.replicas :: ValidReplica(m)
  {
    if k < 4 then Agreeing
    else if k == 4 then Exchanging
    else if !SameMetadata(c, job) then Ending(false)
    else if k - 5 < Count(job) then Averaging
    else if k - 5 == Count(job) then Agreeing
    else Ending(true)
  }

  predicate TakesTurn(t: Turn, stage: Stage)
  {
    match stage
    case Agreeing => t.Ask? && t.operation == Barrier
    case Exchanging => t.Ask? && t.operation == Bytes
    case Averaging => t.Ask? && t.operation == AllReduce(Mean)
    case Ending(ok) => t == Quit(ok)
  }

  lemma EarlyStage(c: Config, job: Job, k: nat, i: nat, results: seq<Response>)
    requires ValidJob(c, job) && i < c.world && |results| == k < 5 && ValidReplica(job.replicas[i])
    ensures TakesTurn(Next(job, c.limit, job.replicas[i], results), StageAt(c, job, k))
  {
  }

  lemma LateStage(c: Config, job: Job, k: nat, i: nat, results: seq<Response>)
    requires ValidJob(c, job) && i < c.world && |results| == k >= 5 && ValidReplica(job.replicas[i])
    requires (exists v | v in results[4].bytes :: v != Encoded(job, job.replicas[i])) <==> !SameMetadata(c, job)
    requires SameMetadata(c, job) ==> |Contribution(job.replicas[i])| == Count(job)
    ensures TakesTurn(Next(job, c.limit, job.replicas[i], results), StageAt(c, job, k))
  {
  }

  lemma StageReached(c: Config, job: Job, base: nat, k: nat, i: nat)
    requires ValidJob(c, job) && i < c.world && Rounds(c, Program(base, SyncGradients(c, job)), k).Some?
    ensures TakesTurn(SyncGradients(c, job)(i, Rounds(c, Program(base, SyncGradients(c, job)), k).value[i]),
                      StageAt(c, job, k))
  {
    assert job.replicas[i] in job.replicas;
    var results := Rounds(c, Program(base, SyncGradients(c, job)), k).value[i];
    if k < 5 {
      EarlyStage(c, job, k, i, results);
    } else {
      IdenticalEverywhere(c, job, base, k, i);
      if SameMetadata(c, job) {
        SameContributions(c, job, base, k, i, 0);
      }
      LateStage(c, job, k, i, results);
    }
  }

  lemma StageTogether(c: Config, job: Job, base: nat, k: nat)
    requires ValidJob(c, job) && Rounds(c, Program(base, SyncGradients(c, job)), k).Some?
    ensures Together(Program(base, SyncGradients(c, job)), Rounds(c, Program(base, SyncGradients(c, job)), k).value)
  {
    var prog := Program(base, SyncGradients(c, job));
    var history := Rounds(c, prog, k).value;
    forall i | 0 <= i < c.world
      ensures TakesTurn(prog.turn(i, history[i]), StageAt(c, job, k))
    {
      StageReached(c, job, base, k, i);
    }
    var stage := StageAt(c, job, k);
    if stage.Ending? {
      assert forall i | 0 <= i < c.world :: prog.turn(i, history[i]) == Quit(stage.ok);
    }
  }

  lemma SyncAligned(c: Config, job: Job, base: nat)
    requires ValidJob(c, job)
    ensures Aligned(c, Program(base, SyncGradients(c, job)))
  {
    var prog := Program(base, SyncGradients(c, job));
    forall k: nat
      ensures TogetherAt(TableOf(c), prog, k)
    {
      if Rounds(c, prog, k).Some? {
        StageTogether(c, job, base, k);
      }
    }
  }

  // ---- averaging ----

  ghost predicate Contributes(c: Config, job: Job, j: nat)
  {
    |job.replicas| == c.world && forall q | 0 <= q < c.world :: j < |Contribution(job.replicas[q])|
  }

  /** The `j`-th defined gradient of every rank, in rank order. */
  ghost function GradientColumn(c: Config, job: Job, j: nat): (r: seq<Payload>)
    requires Contributes(c, job, j)
    ensures |r| == c.world
  {
    seq(c.world, q requires 0 <= q < c.world => Contribution(job.replicas[q])[j])
  }

  /** The mean a correct synchronisation leaves in every rank's `j`-th defined gradient. */
  ghost function MeanGradient(c: Config, job: Job, j: nat): Option<Payload>
    requires 0 < c.world && Contributes(c, job, j)
  {
    Reduced(c.arithmetic, Mean, GradientColumn(c, job, j), c.limit)
  }

  lemma AverageTurn(c: Config, job: Job, i: nat, results: seq<Response>)
    requires ValidJob(c, job) && i < c.world && |results| >= 5 && ValidReplica(job.replicas[i])
    requires !exists v | v in results[4].bytes :: v != Encoded(job, job.replicas[i])
    requires |results| - 5 < |Contribution(job.replicas[i])|
    ensures Next(job, c.limit, job.replicas[i], results) ==
      Ask(AllReduce(Mean), Some([Contribution(job.replicas[i])[|results| - 5]]), [])
  {
  }

  lemma AverageNext(c: Config, job: Job, base: nat, k: nat, i: nat)
    requires ValidJob(c, job) && i < c.world && 5 <= k && Rounds(c, Program(base, SyncGradients(c, job)), k).Some?
    requires SameMetadata(c, job) && k - 5 < Count(job) && ValidReplica(job.replicas[i])
    ensures k - 5 < |Contribution(job.replicas[i])|
    ensures Next(job, c.limit, job.replicas[i], Rounds(c, Program(base, SyncGradients(c, job)), k).value[i]) ==
      Ask(AllReduce(Mean), Some([Contribution(job.replicas[i])[k - 5]]), [])
  {
    SameContributions(c, job, base, k, i, 0);
    IdenticalEverywhere(c, job, base, k, i);
    AverageTurn(c, job, i, Rounds(c, Program(base, SyncGradients(c, job)), k).value[i]);
  }

  lemma AverageAsked(c: Config, job: Job, base: nat, k: nat, i: nat)
    requires ValidJob(c, job) && i < c.world && 5 <= k && Asking(c, Program(base, SyncGradients(c, job)), k)
    requires SameMetadata(c, job) && k - 5 < Count(job)
    ensures k - 5 < |Contribution(job.replicas[i])|
    ensures Asked(c, Program(base, SyncGradients(c, job)), Rounds(c, Program(base, SyncGradients(c, job)), k).value,
                  k)[i] ==
      Request(base + k, AllReduce(Mean), false, [Contribution(job.replicas[i])[k - 5]], [])
  {
    assert job.replicas[i] in job.replicas;
    AverageNext(c, job, base, k, i);
    AskedOf(c, job, base, k, i);
  }

  lemma ReducedEntry(requests: seq<Request>, limit: nat, a: Arithmetic, i: nat, column: seq<Payload>)
    requires requests != [] && i < |requests| && |column| == |requests|
    requires requests[0].operation == AllReduce(Mean) && Evaluated(requests, limit, a).Some?
    requires forall q | 0 <= q < |requests| :: requests[q].tensors == [column[q]]
    ensures Reduced(a, Mean, column, limit).Some?
    ensures Evaluated(requests, limit, a).value[i].tensors == [Reduced(a, Mean, column, limit).value]
  {
    assert Column(requests, 0) == column;
    assert Evaluated(requests, limit, a).value[i] == Entry(requests, limit, a, i).value;
  }

  lemma AverageResult(c: Config, job: Job, base: nat, k: nat, i: nat)
    requires ValidJob(c, job) && i < c.world && 5 <= k && Rounds(c, Program(base, SyncGradients(c, job)), k + 1).Some?
    requires SameMetadata(c, job) && k - 5 < Count(job)
    ensures Contributes(c, job, k - 5) && MeanGradient(c, job, k - 5).Some?
    ensures Rounds(c, Program(base, SyncGradients(c, job)), k + 1).value[i][k].tensors ==
      [MeanGradient(c, job, k - 5).value]
  {
    var prog := Program(base, SyncGradients(c, job));
    RoundSucceeded(c, prog, k, i);
    var asked := Asked(c, prog, Rounds(c, prog, k).value, k);
    forall q | 0 <= q < c.world
      ensures k - 5 < |Contribution(job.replicas[q])| && asked[q].operation == AllReduce(Mean)
      ensures asked[q].tensors == [Contribution(job.replicas[q])[k - 5]]
    {
      AverageAsked(c, job, base, k, q);
    }
    ReducedEntry(asked, c.limit, c.arithmetic, i, GradientColumn(c, job, k - 5));
  }

  // ---- what a call that returned Ok leaves ----

  /** The gradients after the averages were copied over the defined ones. */
  function CopiedBack(gradients: seq<Gradient>, averages: seq<Payload>): seq<Gradient>
    requires |Defined(gradients)| == |averages|
  {
    if gradients == [] then []
    else
      var n, last := |gradients| - 1, gradients[|gradients| - 1];
      if last.Dense? then CopiedBack(gradients[..n], averages[..|averages| - 1]) + [Dense(averages[|averages| - 1])]
      else CopiedBack(gradients[..n], averages) + [last]
  }

  /** Replicas with the same metadata end with the same gradients. */
  lemma {:induction false} SameCopiedBack(a: Replica, b: Replica, averages: seq<Payload>)
    requires |a.parameters| == |b.parameters| && a.gradients.Some? && b.gradients.Some? && ValidReplica(a)
    requires ValidReplica(b)
    requires Metadata(a).Some? && Metadata(a) == Metadata(b)
    requires |Defined(a.gradients.value)| == |averages| == |Defined(b.gradients.value)|
    ensures CopiedBack(a.gradients.value, averages) == CopiedBack(b.gradients.value, averages)
    decreases |a.parameters|
  {
    if a.parameters != [] {
      var n := |a.parameters| - 1;
      var p := a.(parameters := a.parameters[..n], gradients := Some(a.gradients.value[..n]));
      var q := b.(parameters := b.parameters[..n], gradients := Some(b.gradients.value[..n]));
      var entries := Metadata(a).value;
      assert Metadata(p) == Some(entries[..n]) && Metadata(q) == Some(entries[..n]);
      var dense := entries[n].spec.Some?;
      assert a.gradients.value[n].Dense? == dense && b.gradients.value[n].Dense? == dense;
      SameCopiedBack(p, q, if dense then averages[..|averages| - 1] else averages);
    }
  }

  /** The mean of every gradient that takes part. */
  ghost function Means(c: Config, job: Job): (r: seq<Payload>)
    requires 0 < c.world && forall j | 0 <= j < Count(job) :: Contributes(c, job, j) && MeanGradient(c, job, j).Some?
    ensures |r| == Count(job)
  {
    seq(Count(job), j requires 0 <= j < Count(job) => MeanGradient(c, job, j).value)
  }

  /** The gradients every rank holds after a successful synchronisation. */
  ghost function Agreed(c: Config, job: Job): Option<seq<Gradient>>
    requires 0 < c.world && forall j | 0 <= j < Count(job) :: Contributes(c, job, j) && MeanGradient(c, job, j).Some?
  {
    if job.replicas == [] || job.replicas[0].gradients.None? then None
    else Some(CopiedBack(job.replicas[0].gradients.value, Means(c, job)))
  }

  /** Where `sync_gradients` returned Ok, the rank was given the rank-ordered mean of every
      defined gradient, and its gradients are those of every other rank. */
  ghost predicate Synchronised(c: Config, job: Job, r: nat, results: seq<Response>)
    requires 0 < c.world
  {
    && |results| == 6 + Count(job)
    && (forall j | 0 <= j < Count(job) ::
          Contributes(c, job, j) && MeanGradient(c, job, j).Some? &&
          results[5 + j].tensors == [MeanGradient(c, job, j).value])
    && r < |job.replicas| && job.replicas[r].gradients.Some? && |Contribution(job.replicas[r])| == Count(job)
    && Agreed(c, job) == Some(CopiedBack(job.replicas[r].gradients.value, Means(c, job)))
  }

  lemma FinishedLength(c: Config, job: Job, base: nat, k: nat)
    requires ValidJob(c, job) && CompletesAt(TableOf(c), Program(base, SyncGradients(c, job)), k)
    ensures k == 6 + Count(job) && SameMetadata(c, job)
  {
    var prog := Program(base, SyncGradients(c, job));
    StageReached(c, job, base, k, 0);
    if k > 6 + Count(job) {
      NotEarlier(TableOf(c), prog, k, 6 + Count(job));
      EarlierRounds(c, prog, 6 + Count(job), k);
      EndsThere(c, job, base);
    }
  }

  lemma EndsThere(c: Config, job: Job, base: nat)
    requires ValidJob(c, job) && SameMetadata(c, job)
    requires Rounds(c, Program(base, SyncGradients(c, job)), 6 + Count(job)).Some?
    ensures CompletesAt(TableOf(c), Program(base, SyncGradients(c, job)), 6 + Count(job))
  {
    var prog := Program(base, SyncGradients(c, job));
    var history := Rounds(c, prog, 6 + Count(job)).value;
    forall i | 0 <= i < c.world
      ensures prog.turn(i, history[i]) == Quit(true)
    {
      StageReached(c, job, base, 6 + Count(job), i);
    }
  }

  lemma MeanHeld(c: Config, job: Job, base: nat, r: nat, results: seq<Response>, j: nat)
    requires ValidJob(c, job) && r < c.world && SameMetadata(c, job) && j < Count(job) && 6 + j <= |results|
    requires Rounds(c, Program(base, SyncGradients(c, job)), |results|).Some?
    requires Rounds(c, Program(base, SyncGradients(c, job)), |results|).value[r] == results
    ensures Contributes(c, job, j) && MeanGradient(c, job, j).Some?
    ensures results[5 + j].tensors == [MeanGradient(c, job, j).value]
  {
    EarlierResults(c, Program(base, SyncGradients(c, job)), 6 + j, |results|, r);
    AverageResult(c, job, base, 5 + j, r);
    assert results[..6 + j][5 + j] == results[5 + j];
  }

  lemma GradientsAgree(c: Config, job: Job, base: nat, k: nat, r: nat)
    requires ValidJob(c, job) && r < c.world && 5 <= k && Rounds(c, Program(base, SyncGradients(c, job)), k).Some?
    requires SameMetadata(c, job)
    requires forall j | 0 <= j < Count(job) :: Contributes(c, job, j) && MeanGradient(c, job, j).Some?
    ensures job.replicas[r].gradients.Some? && |Contribution(job.replicas[r])| == Count(job)
    ensures Agreed(c, job) == Some(CopiedBack(job.replicas[r].gradients.value, Means(c, job)))
  {
    EarlierRounds(c, Program(base, SyncGradients(c, job)), 3, k);
    EarlierRounds(c, Program(base, SyncGradients(c, job)), 4, k);
    MetadataChecked(c, job, base, r);
    MetadataChecked(c, job, base, 0);
    SameContributions(c, job, base, k, r, 0);
    var a, b := job.replicas[0], job.replicas[r];
    assert a in job.replicas && b in job.replicas;
    assert job.encode(Metadata(a).value) == job.encode(Metadata(b).value);
    SameCopiedBack(a, b, Means(c, job));
  }

  lemma FinishedSynchronised(c: Config, job: Job, base: nat, k: nat, history: History, r: nat)
    requires ValidJob(c, job) && r < c.world == |history|
    requires Completed(TableOf(c), Program(base, SyncGradients(c, job)), k, history)
    ensures Synchronised(c, job, r, history[r])
  {
    FinishedLength(c, job, base, k);
    var results := history[r];
    assert Rounds(c, Program(base, SyncGradients(c, job)), k).value == history;
    forall j | 0 <= j < Count(job)
      ensures Contributes(c, job, j) && MeanGradient(c, job, j).Some?
      ensures results[5 + j].tensors == [MeanGradient(c, job, j).value]
    {
      MeanHeld(c, job, base, r, results, j);
    }
    GradientsAgree(c, job, base, k, r);
  }

  lemma SyncUniform(c: Config, job: Job, base: nat)
    requires ValidJob(c, job)
    ensures Uniform(TableOf(c), Program(base, SyncGradients(c, job)))
  {
    var prog := Program(base, SyncGradients(c, job));
    forall k: nat
      ensures UniformAt(TableOf(c), prog, k)
    {
      if Rounds(c, prog, k).Some? {
        forall i | 0 <= i < c.world
          ensures TakesTurn(prog.turn(i, Rounds(c, prog, k).value[i]), StageAt(c, job, k))
        {
          StageReached(c, job, base, k, i);
        }
      }
    }
  }

  lemma NoRoundPast(c: Config, job: Job, base: nat)
    requires ValidJob(c, job)
    ensures EndsBy(TableOf(c), Program(base, SyncGradients(c, job)), 6 + Count(job))
  {
    var n := 6 + Count(job);
    if Rounds(c, Program(base, SyncGradients(c, job)), n + 1).Some? {
      RoundSucceeded(c, Program(base, SyncGradients(c, job)), n, 0);
      StageReached(c, job, base, n, 0);
    }
    EndsWithoutNext(TableOf(c), Program(base, SyncGradients(c, job)), n);
  }

  // ---- call after call ----

  ghost predicate ValidJobs(c: Config, jobs: seq<Job>)
  {
    ValidConfig(c) && forall i | 0 <= i < |jobs| :: ValidJob(c, jobs[i])
  }

  /** One `sync_gradients` per job. */
  function CallsOf(c: Config, jobs: seq<Job>): (r: seq<Turning>)
    ensures |r| == |jobs| && forall i | 0 <= i < |jobs| :: r[i] == SyncGradients(c, jobs[i])
  {
    seq(|jobs|, i requires 0 <= i < |jobs| => SyncGradients(c, jobs[i]))
  }

  /** How many collectives each call takes at most. */
  function LengthsOf(jobs: seq<Job>): (r: seq<nat>)
    ensures |r| == |jobs| && forall i | 0 <= i < |jobs| :: r[i] == 6 + Count(jobs[i])
  {
    seq(|jobs|, i requires 0 <= i < |jobs| => 6 + Count(jobs[i]))
  }

  /** After a program of at most `most` collectives, the calls take the rest. */
  function MostCollectives(most: nat, jobs: seq<Job>): nat
  {
    most + Total(LengthsOf(jobs))
  }

  /** A program followed by one `sync_gradients` per job. */
  function Training(c: Config, first: Program, jobs: seq<Job>): (p: Program)
    ensures p.base == first.base
  {
    Chain(first, CallsOf(c, jobs))
  }

  lemma SyncSound(c: Config, job: Job)
    requires ValidJob(c, job)
    ensures Sound(TableOf(c), SyncGradients(c, job), 6 + Count(job))
  {
    forall base: nat
      ensures SoundAt(TableOf(c), Program(base, SyncGradients(c, job)), 6 + Count(job))
    {
      SyncAligned(c, job, base);
      SyncUniform(c, job, base);
      NoRoundPast(c, job, base);
    }
  }

  lemma CallsSound(c: Config, jobs: seq<Job>)
    requires ValidJobs(c, jobs)
    ensures AllSound(TableOf(c), CallsOf(c, jobs), LengthsOf(jobs))
  {
    forall i | 0 <= i < |jobs|
      ensures Sound(TableOf(c), CallsOf(c, jobs)[i], LengthsOf(jobs)[i])
    {
      SyncSound(c, jobs[i]);
    }
  }

  lemma TrainingAligned(c: Config, first: Program, jobs: seq<Job>)
    requires ValidJobs(c, jobs) && Aligned(c, first)
    ensures Aligned(c, Training(c, first, jobs))
  {
    CallsSound(c, jobs);
    ChainTogether(TableOf(c), first, CallsOf(c, jobs), LengthsOf(jobs));
  }

  lemma TrainingUniform(c: Config, first: Program, jobs: seq<Job>)
    requires ValidJobs(c, jobs) && Aligned(c, first) && Uniform(TableOf(c), first)
    ensures Uniform(TableOf(c), Training(c, first, jobs))
  {
    CallsSound(c, jobs);
    ChainUniform(TableOf(c), first, CallsOf(c, jobs), LengthsOf(jobs));
  }

  lemma TrainingStops(c: Config, first: Program, jobs: seq<Job>, most: nat)
    requires ValidJobs(c, jobs) && Aligned(c, first) && EndsBy(TableOf(c), first, most)
    ensures EndsBy(TableOf(c), Training(c, first, jobs), MostCollectives(most, jobs))
  {
    CallsSound(c, jobs);
    ChainEnds(TableOf(c), first, CallsOf(c, jobs), LengthsOf(jobs), most);
  }

  /** The rank's results end with those of one synchronisation per job, each with its means. */
  ghost predicate Held(c: Config, jobs: seq<Job>, r: nat, results: seq<Response>)
    requires 0 < c.world
  {
    jobs == [] ||
    (var job := jobs[|jobs| - 1];
     var n := 6 + Count(job);
     n <= |results| && Synchronised(c, job, r, results[|results| - n..]) &&
       Held(c, jobs[..|jobs| - 1], r, results[..|results| - n]))
  }

  lemma HeldMore(c: Config, jobs: seq<Job>, job: Job, r: nat, a: seq<Response>, b: seq<Response>)
    requires 0 < c.world && Held(c, jobs, r, a) && Synchronised(c, job, r, b)
    ensures Held(c, jobs + [job], r, a + b)
  {
    var all := jobs + [job];
    assert all[..|all| - 1] == jobs && all[|all| - 1] == job;
    assert (a + b)[|a|..] == b && (a + b)[..|a|] == a;
  }

  lemma LastHeld(c: Config, jobs: seq<Job>, job: Job, base: nat, m: nat, a: History, b: History, r: nat)
    requires ValidJob(c, job) && r < c.world == |a| == |b| && Held(c, jobs, r, a[r])
    requires Completed(TableOf(c), Program(base, SyncGradients(c, job)), m, b)
    ensures Held(c, jobs + [job], r, Glued(a, b)[r])
  {
    FinishedSynchronised(c, job, base, m, b, r);
    HeldMore(c, jobs, job, r, a[r], b[r]);
  }

  lemma LastPart(c: Config, base: nat, jobs: seq<Job>, history: History) returns (at: nat, m: nat, a: History,
      b: History)
    requires 0 < c.world && jobs != [] && Parted(TableOf(c), base, CallsOf(c, jobs), history)
    ensures |a| == |b| == c.world && history == Glued(a, b)
    ensures Parted(TableOf(c), base, CallsOf(c, jobs[..|jobs| - 1]), a)
    ensures Completed(TableOf(c), Program(at, SyncGradients(c, jobs[|jobs| - 1])), m, b)
  {
    var n: nat;
    n, m, a, b :| PartedAt(TableOf(c), base, CallsOf(c, jobs), history, n, m, a, b);
    at := base + n;
    assert CallsOf(c, jobs)[..|jobs| - 1] == CallsOf(c, jobs[..|jobs| - 1]);
  }

  lemma JobsSplit(c: Config, front: seq<Job>, job: Job)
    requires ValidJobs(c, front + [job])
    ensures ValidJobs(c, front) && ValidJob(c, job)
  {
    assert (front + [job])[|front|] == job;
    forall i | 0 <= i < |front|
      ensures ValidJob(c, front[i])
    {
      assert (front + [job])[i] == front[i];
    }
  }

  lemma {:induction false} PartedHeld(c: Config, base: nat, jobs: seq<Job>, history: History, r: nat)
    requires ValidJobs(c, jobs) && r < c.world == |history| && Parted(TableOf(c), base, CallsOf(c, jobs), history)
    ensures Held(c, jobs, r, history[r])
    decreases |jobs|
  {
    if jobs != [] {
      var front, job := jobs[..|jobs| - 1], jobs[|jobs| - 1];
      assert front + [job] == jobs;
      JobsSplit(c, front, job);
      var at, m, a, b := LastPart(c, base, jobs, history);
      PartedHeld(c, base, front, a, r);
      LastHeld(c, front, job, at, m, a, b, r);
    }
  }

  lemma TrainingHeld(c: Config, first: Program, jobs: seq<Job>, k: nat, history: History, r: nat)
    requires ValidJobs(c, jobs) && Aligned(c, first) && r < c.world == |history|
    requires Completed(TableOf(c), Training(c, first, jobs), k, history)
    ensures Held(c, jobs, r, history[r])
  {
    CallsSound(c, jobs);
    ChainParted(TableOf(c), first, CallsOf(c, jobs), LengthsOf(jobs), k);
    PartedHeld(c, first.base, jobs, history, r);
  }

  // ---- the theorems ----

  /** The collectives a rank entered since the state `s0`. */
  function CallsSince(s0: State, s: State, r: nat): seq<Request>
    requires r < |s0| && r < |s|
  {
    if |s0[r].calls| <= |s[r].calls| then s[r].calls[|s0[r].calls|..] else []
  }

  predicate SamePlaces(a: seq<Request>, b: seq<Request>)
  {
    forall k | 0 <= k < |a| && k < |b| :: a[k].operation == b[k].operation
  }

  /** Since the state `s0` the ranks' collectives agree, operation by operation. */
  predicate SameOperations(s0: State, s: State)
    requires |s0| == |s|
  {
    forall i, j | 0 <= i < |s| && 0 <= j < |s| :: SamePlaces(CallsSince(s0, s, i), CallsSince(s0, s, j))
  }

  lemma OperationsAgree(c: Config, prog: Program, t: State, i: nat, j: nat)
    requires 0 < c.world && AllTracked(c, prog, t) && Uniform(TableOf(c), prog) && i < c.world && j < c.world
    ensures SamePlaces(t[i].calls, t[j].calls)
  {
    forall k: nat | k < |t[i].calls| && k < |t[j].calls|
      ensures t[i].calls[k].operation == t[j].calls[k].operation
    {
      assert Tracked(c, prog, i, t[i]) && Tracked(c, prog, j, t[j]);
      assert UniformAt(TableOf(c), prog, k);
      var turns := Turns(prog, Rounds(c, prog, k).value);
      assert turns[i].Ask? && turns[j].Ask?;
    }
  }

  lemma SameOperationsAtop(c: Config, prog: Program, s0: State, t: State)
    requires 0 < c.world && Sized(c, s0) && Sized(c, t) && AllTracked(c, prog, t) && Uniform(TableOf(c), prog)
    ensures SameOperations(s0, AllAtop(c, s0, t))
  {
    var s := AllAtop(c, s0, t);
    forall i, j | 0 <= i < |s| && 0 <= j < |s|
      ensures SamePlaces(CallsSince(s0, s, i), CallsSince(s0, s, j))
    {
      OperationsAgree(c, prog, t, i, j);
      assert CallsSince(s0, s, i) == t[i].calls && CallsSince(s0, s, j) == t[j].calls;
    }
  }

  lemma EndsComplete(c: Config, prog: Program, t: State)
    requires 0 < c.world && Aligned(c, prog) && AllTracked(c, prog, t) && AllReturned(c, prog, t)
    ensures (forall r | 0 <= r < c.world :: t[r].failed) || (forall r | 0 <= r < c.world :: !t[r].failed)
    ensures !t[0].failed ==> CompletesAt(TableOf(c), prog, |t[0].results|)
    ensures !t[0].failed ==> forall r | 0 <= r < c.world :: Rounds(c, prog, |t[0].results|).value[r] == t[r].results
  {
    forall r | 0 <= r < c.world
      ensures t[r].failed <==> t[0].failed
      ensures Rounds(c, prog, |t[0].results|).Some? && Rounds(c, prog, |t[0].results|).value[r] == t[r].results
      ensures !t[r].failed ==> prog.turn(r, t[r].results) == Quit(true)
    {
      EndTogether(c, prog, t, r, 0);
    }
  }

  /** What a rank was given since the state `s0`. */
  function Since(s0: State, s: State, r: nat): (results: seq<Response>)
    requires r < |s0| && r < |s|
  {
    if |s0[r].results| <= |s[r].results| then s[r].results[|s0[r].results|..] else []
  }

  lemma OutcomeAtop(c: Config, first: Program, jobs: seq<Job>, s0: State, t: State)
    requires ValidJobs(c, jobs) && Aligned(c, first) && Sized(c, s0) && Sized(c, t)
    requires AllTracked(c, Training(c, first, jobs), t) && AllReturned(c, Training(c, first, jobs), t)
    ensures var s := AllAtop(c, s0, t);
      (forall r | 0 <= r < c.world :: s[r].failed) ||
      (forall r | 0 <= r < c.world :: !s[r].failed && Held(c, jobs, r, Since(s0, s, r)))
  {
    var prog, s := Training(c, first, jobs), AllAtop(c, s0, t);
    TrainingAligned(c, first, jobs);
    EndsComplete(c, prog, t);
    if !t[0].failed {
      forall r | 0 <= r < c.world
        ensures !s[r].failed && Held(c, jobs, r, Since(s0, s, r))
      {
        TrainingHeld(c, first, jobs, |t[0].results|, Rounds(c, prog, |t[0].results|).value, r);
        assert Since(s0, s, r) == t[r].results;
      }
    }
  }

  /** Without transport faults, in any settled state of the group, after any aligned program
      the ranks run first, for any number of calls, under every interleaving and whatever local
      errors or differing gradients the ranks have: the ranks issue the same operations, and
      once all have returned, either every rank's group has failed, or every rank holds in every
      call the same rank-ordered mean gradients and the group is settled again. */
  lemma CoherentOutcome(c: Config, first: Program, jobs: seq<Job>, s0: State, schedule: seq<nat>)
    requires ValidJobs(c, jobs) && Aligned(c, first) && Settled(c, s0, first.base)
    ensures var prog := Resumed(Training(c, first, jobs), s0);
      var s := Drive(c, prog, s0, schedule);
      (Uniform(TableOf(c), first) ==> SameOperations(s0, s)) &&
      (AllReturned(c, prog, s) ==>
         (forall r | 0 <= r < c.world :: s[r].failed) ||
         ((forall r | 0 <= r < c.world :: !s[r].failed && Held(c, jobs, r, Since(s0, s, r))) &&
          Settled(c, s, s[0].sequence)))
  {
    var p := Training(c, first, jobs);
    var prog := Resumed(p, s0);
    var s := Drive(c, prog, s0, schedule);
    TrainingAligned(c, first, jobs);
    StartTracked(c, p);
    DriveAtop(c, p, s0, schedule);
    DriveTracked(c, p, StartAt(c, p.base), schedule);
    var t := Drive(c, p, StartAt(c, p.base), schedule);
    if Uniform(TableOf(c), first) {
      TrainingUniform(c, first, jobs);
      SameOperationsAtop(c, p, s0, t);
    }
    if AllReturned(c, prog, s) {
      ReturnedAtop(c, p, s0, t);
      OutcomeAtop(c, first, jobs, s0, t);
      if !s[0].failed {
        SettledAgain(c, p, s0, schedule);
      }
    }
  }

  /** And all do return: no schedule can keep the group busy for longer than its size and the
      number of collectives allow. */
  lemma SyncTerminates(c: Config, first: Program, jobs: seq<Job>, s0: State, schedule: seq<nat>, most: nat)
    requires ValidJobs(c, jobs) && Aligned(c, first) && Settled(c, s0, first.base)
    requires EndsBy(TableOf(c), first, most)
    requires Productive(c, Resumed(Training(c, first, jobs), s0), s0, schedule)
    ensures |schedule| <= Times(c.world, MostSteps(c, MostCollectives(most, jobs)))
  {
    TrainingAligned(c, first, jobs);
    TrainingStops(c, first, jobs, most);
    RunEndsFrom(c, Training(c, first, jobs), s0, schedule, MostCollectives(most, jobs));
  }

  /** Until all ranks have returned some rank can move. */
  lemma SyncProgresses(c: Config, first: Program, jobs: seq<Job>, s0: State, schedule: seq<nat>)
    requires ValidJobs(c, jobs) && Aligned(c, first) && Settled(c, s0, first.base)
    ensures var prog := Resumed(Training(c, first, jobs), s0);
      var s := Drive(c, prog, s0, schedule);
      AllReturned(c, prog, s) || exists r :: Enabled(c, prog, s, r)
  {
    TrainingAligned(c, first, jobs);
    SomeRankMoves(c, Training(c, first, jobs), s0, schedule);
  }
}
