/** Sharded and consolidated training checkpoints (src/distributed/training.rs,
    src/optim/stateful.rs). */
module Checkpoints {
  import opened Wrappers
  import opened Collectives
  import opened Names
  import Sharding

  const I64_LIMIT: nat := 0x7fff_ffff_ffff_ffff
  const MAX_BLOB: nat := 1024 * 1024 * 1024

  datatype ParameterSpec = ParameterSpec(name: string, shape: seq<int>, kind: ElementType)

  datatype SlotState = SlotState(shape: seq<int>, kind: ElementType, group: nat, step: nat, slots: map<string, Payload>)

  /** `settings` stands for the algorithm, its rates, groups and completed steps. */
  datatype OptimizerState = OptimizerState(settings: seq<Byte>, parameters: map<string, SlotState>)

  datatype ShardRecord = ShardRecord(
    schema: nat, id: string, rank: nat, world: nat,
    parameters: seq<ParameterSpec>, weights: map<string, Payload>, optimizer: OptimizerState)

  datatype FullRecord = FullRecord(
    schema: nat, parameters: seq<ParameterSpec>, weights: map<string, Payload>, optimizer: OptimizerState)

  // ---- validation ----

  /** Nonempty dot-separated components, no NUL. */
  predicate ValidName(name: string)
  {
    && 0 < |name| <= 4096 && name[0] != '.' && name[|name| - 1] != '.'
    && (forall i | 0 <= i < |name| - 1 :: !(name[i] == '.' && name[i + 1] == '.'))
    && '\0' !in name
  }

  /** Element count of a parameter shape. */
  function Count(shape: seq<int>): Option<nat>
  {
    if |shape| <= 64 && Elements(shape).Some? && Elements(shape).value <= I64_LIMIT then Elements(shape) else None
  }

  predicate ValidSpec(p: ParameterSpec)
  {
    ValidName(p.name) && !p.kind.Int64? && Count(p.shape).Some? && Count(p.shape).value > 0
  }

  predicate ValidSpecs(specs: seq<ParameterSpec>)
  {
    && specs != []
    && (forall i | 0 <= i < |specs| - 1 :: Less(specs[i].name, specs[i + 1].name))
    && forall i | 0 <= i < |specs| :: ValidSpec(specs[i])
  }

  lemma {:induction false} SortedNames(specs: seq<ParameterSpec>, i: nat, j: nat)
    requires ValidSpecs(specs) && i < j < |specs|
    ensures Less(specs[i].name, specs[j].name)
  {
    assert Less(specs[j - 1].name, specs[j - 1 + 1].name);
    if i < j - 1 {
      SortedNames(specs, i, j - 1);
      LessTransitive(specs[i].name, specs[j - 1].name, specs[j].name);
    }
  }

  /** Sorted names are distinct. */
  lemma DistinctNames(specs: seq<ParameterSpec>, i: nat, j: nat)
    requires ValidSpecs(specs) && i < j < |specs|
    ensures specs[i].name != specs[j].name
  {
    SortedNames(specs, i, j);
    LessIrreflexive(specs[i].name);
  }

  predicate ValidBlob(p: Payload)
  {
    Elements(p.shape).Some? && Elements(p.shape).value * Width(p.kind) == |p.bytes|
  }

  predicate ValidSlots(s: SlotState)
  {
    && |s.shape| <= 64 && Elements(s.shape).Some?
    && forall n | n in s.slots :: s.slots[n].shape == s.shape && s.slots[n].kind == s.kind && ValidBlob(s.slots[n])
  }

  predicate ValidOptimizer(o: OptimizerState)
  {
    forall n | n in o.parameters :: ValidSlots(o.parameters[n])
  }

  /** The payload a rank of `world` stores for a parameter. */
  predicate StoredChunk(p: Payload, spec: ParameterSpec, world: nat)
    requires 0 < world && Count(spec.shape).Some?
  {
    p.kind == spec.kind && p.shape == [Sharding.Chunk(Count(spec.shape).value, world)]
  }

  predicate ValidWeight(r: ShardRecord, spec: ParameterSpec)
    requires 0 < r.world && Count(spec.shape).Some?
  {
    && spec.name in r.weights && ValidPayload(r.weights[spec.name], MAX_BLOB)
    && spec.name in r.optimizer.parameters
    && r.optimizer.parameters[spec.name].shape == r.weights[spec.name].shape
    && r.optimizer.parameters[spec.name].kind == r.weights[spec.name].kind
    && StoredChunk(r.weights[spec.name], spec, r.world)
  }

  /** `ShardedCheckpoint::validate`. */
  predicate ValidShard(r: ShardRecord)
  {
    && r.schema == 1 && 0 < |r.id| <= 300 && 1 <= r.world <= MAX_RANKS && r.rank < r.world
    && ValidSpecs(r.parameters) && |r.weights| == |r.parameters|
    && ValidOptimizer(r.optimizer) && |r.optimizer.parameters| == |r.parameters|
    && forall i | 0 <= i < |r.parameters| :: ValidSpec(r.parameters[i]) && ValidWeight(r, r.parameters[i])
  }

  /** `ConsolidatedCheckpoint::validate`. */
  predicate ValidFull(f: FullRecord)
  {
    && f.schema == 1 && ValidSpecs(f.parameters) && |f.weights| == |f.parameters|
    && forall i | 0 <= i < |f.parameters| ::
      f.parameters[i].name in f.weights && ValidPayload(f.weights[f.parameters[i].name], MAX_BLOB) &&
      f.weights[f.parameters[i].name].shape == f.parameters[i].shape &&
      f.weights[f.parameters[i].name].kind == f.parameters[i].kind
  }

  // ---- sharding a full record ----

  function ShardPayload(p: Payload, rank: nat, world: nat): (r: Payload)
    requires 0 < world && ValidBlob(p)
    ensures ValidBlob(r) || Sharding.Chunk(Elements(p.shape).value, world) > USIZE_MAX
    ensures r.kind == p.kind && r.shape == [Sharding.Chunk(Elements(p.shape).value, world)]
  {
    var count := Elements(p.shape).value;
    var shape := [Sharding.Chunk(count, world)];
    assert Elements(shape[..0]) == Some(1);
    assert shape[..|shape| - 1] == shape[..0];
    Payload(shape, p.kind, Sharding.Shard(p.bytes, 0 as Byte, count, Width(p.kind), rank, world))
  }

  function ShardSlots(s: SlotState, rank: nat, world: nat): SlotState
    requires 0 < world && ValidSlots(s)
  {
    SlotState([Sharding.Chunk(Elements(s.shape).value, world)], s.kind, s.group, s.step,
              map n | n in s.slots :: ShardPayload(s.slots[n], rank, world))
  }

  function ShardOptimizer(o: OptimizerState, rank: nat, world: nat): OptimizerState
    requires 0 < world && ValidOptimizer(o)
  {
    OptimizerState(o.settings, map n | n in o.parameters :: ShardSlots(o.parameters[n], rank, world))
  }

  function ShardWeights(weights: map<string, Payload>, rank: nat, world: nat): map<string, Payload>
    requires 0 < world && forall n | n in weights :: ValidBlob(weights[n])
  {
    map n | n in weights :: ShardPayload(weights[n], rank, world)
  }

  /** The record rank `rank` of `world` would have captured from this state. */
  function Captured(f: FullRecord, id: string, rank: nat, world: nat): ShardRecord
    requires 0 < world && ValidOptimizer(f.optimizer) && forall n | n in f.weights :: ValidBlob(f.weights[n])
  {
    ShardRecord(1, id, rank, world, f.parameters, ShardWeights(f.weights, rank, world),
                ShardOptimizer(f.optimizer, rank, world))
  }

  function NamesOf(specs: seq<ParameterSpec>): set<string>
  {
    set p | p in specs :: p.name
  }

  lemma NamesCons(specs: seq<ParameterSpec>, last: ParameterSpec)
    ensures NamesOf(specs + [last]) == NamesOf(specs) + {last.name}
  {
    forall p | p in specs
      ensures p in specs + [last]
    {
    }
    assert last in specs + [last];
  }

  lemma NewName(specs: seq<ParameterSpec>, n: nat)
    requires ValidSpecs(specs) && n < |specs|
    ensures specs[n].name !in NamesOf(specs[..n])
  {
    forall i | 0 <= i < n
      ensures specs[..n][i].name != specs[n].name
    {
      DistinctNames(specs, i, n);
    }
  }

  lemma {:induction false} NameCount(specs: seq<ParameterSpec>, n: nat)
    requires ValidSpecs(specs) && n <= |specs|
    ensures |NamesOf(specs[..n])| == n
  {
    if n == 0 {
      assert NamesOf(specs[..0]) == {};
    } else {
      NameCount(specs, n - 1);
      NewName(specs, n - 1);
      assert specs[..n] == specs[..n - 1] + [specs[n - 1]];
      NamesCons(specs[..n - 1], specs[n - 1]);
    }
  }

  lemma {:induction false} SubsetEqual<T>(a: set<T>, b: set<T>)
    requires a <= b && |a| == |b|
    ensures a == b
  {
    if a != {} {
      var x :| x in a;
      SubsetEqual(a - {x}, b - {x});
    }
  }

  /** A map with one entry per parameter has no other entries. */
  lemma KeysAreNames<T>(specs: seq<ParameterSpec>, m: map<string, T>)
    requires ValidSpecs(specs) && |m| == |specs|
    requires forall i | 0 <= i < |specs| :: specs[i].name in m
    ensures m.Keys == NamesOf(specs)
  {
    NameCount(specs, |specs|);
    assert specs[..|specs|] == specs;
    assert |m.Keys| == |m|;
    SubsetEqual(NamesOf(specs), m.Keys);
  }

  lemma FullBlobs(f: FullRecord)
    requires ValidFull(f)
    ensures f.weights.Keys == NamesOf(f.parameters)
    ensures forall n | n in f.weights :: ValidBlob(f.weights[n])
  {
    KeysAreNames(f.parameters, f.weights);
    forall n | n in f.weights
      ensures ValidBlob(f.weights[n])
    {
      var i :| 0 <= i < |f.parameters| && f.parameters[i].name == n;
    }
  }

  /** `ConsolidatedCheckpoint::shard`. */
  function ShardOf(f: FullRecord, rank: nat, world: nat): Option<ShardRecord>
  {
    if !ValidFull(f) || world == 0 || world > MAX_RANKS || rank >= world || !ValidOptimizer(f.optimizer) then None
    else
      FullBlobs(f);
      Some(Captured(f, "consolidated", rank, world))
  }

  // ---- consolidation ----

  predicate SameSet(a: ShardRecord, b: ShardRecord)
  {
    a.world == b.world && a.id == b.id && a.parameters == b.parameters
  }

  predicate Usable(records: seq<ShardRecord>, k: nat)
    requires k < |records|
  {
    ValidShard(records[k]) && SameSet(records[0], records[k])
  }

  predicate DistinctRanks(records: seq<ShardRecord>)
  {
    forall i, j | 0 <= i < j < |records| :: records[i].rank != records[j].rank
  }

  /** A complete set: one valid record per rank of one capture, in any order. */
  predicate Complete(records: seq<ShardRecord>)
  {
    && records != [] && 1 <= records[0].world <= MAX_RANKS && |records| == records[0].world
    && (forall k: nat | k < |records| :: Usable(records, k)) && DistinctRanks(records)
  }

  function Ranks(records: seq<ShardRecord>): set<nat>
  {
    set r | r in records :: r.rank
  }

  lemma {:induction false} RankCount(records: seq<ShardRecord>)
    requires DistinctRanks(records)
    ensures |Ranks(records)| == |records|
  {
    if records != [] {
      var n := |records| - 1;
      RankCount(records[..n]);
      assert records == records[..n] + [records[n]];
      assert Ranks(records) == Ranks(records[..n]) + {records[n].rank};
    }
  }

  ghost function Below(n: nat): (s: set<nat>)
    ensures |s| == n && forall k: nat :: k in s <==> k < n
  {
    if n == 0 then {} else Below(n - 1) + {n - 1}
  }

  /** As many distinct in-range ranks as there are ranks cover every rank. */
  lemma RanksCovered(records: seq<ShardRecord>, r: nat)
    requires DistinctRanks(records) && r < |records|
    requires forall i | 0 <= i < |records| :: records[i].rank < |records|
    ensures exists i :: 0 <= i < |records| && records[i].rank == r
  {
    RankCount(records);
    SubsetEqual(Ranks(records), Below(|records|));
    assert r in Ranks(records);
  }

  predicate InOrder(ordered: seq<ShardRecord>)
  {
    forall r | 0 <= r < |ordered| :: ordered[r].rank == r
  }

  /** `ordered` lists the same records by rank. */
  predicate Sorts(records: seq<ShardRecord>, ordered: seq<ShardRecord>)
  {
    |ordered| == |records| && InOrder(ordered) && forall r | r in ordered :: r in records
  }

  /** What `ordered` holds after the first records. */
  ghost predicate Placed(records: seq<ShardRecord>, i: nat, slots: seq<Option<ShardRecord>>)
    requires i <= |records|
  {
    && (forall k | 0 <= k < i :: records[k].rank < |slots| && slots[records[k].rank] == Some(records[k]))
    && forall r | 0 <= r < |slots| && slots[r].Some? :: PlacedAt(records, i, slots[r].value, r)
  }

  ghost predicate PlacedAt(records: seq<ShardRecord>, i: nat, record: ShardRecord, r: nat)
    requires i <= |records|
  {
    record.rank == r && exists k :: 0 <= k < i && records[k] == record
  }

  lemma PlaceNext(records: seq<ShardRecord>, i: nat, slots: seq<Option<ShardRecord>>)
    requires i < |records| && Placed(records, i, slots) && records[i].rank < |slots| && slots[records[i].rank].None?
    ensures Placed(records, i + 1, slots[records[i].rank := Some(records[i])])
  {
    var next := slots[records[i].rank := Some(records[i])];
    forall r | 0 <= r < |next| && next[r].Some?
      ensures PlacedAt(records, i + 1, next[r].value, r)
    {
      if r != records[i].rank {
        assert PlacedAt(records, i, slots[r].value, r);
      }
    }
  }

  /** One slot per rank, or `None` when a record does not belong or repeats a rank. */
  method PlaceRecords(records: seq<ShardRecord>) returns (result: Option<seq<Option<ShardRecord>>>)
    requires records != [] && |records| == records[0].world
    ensures result.Some? <==> DistinctRanks(records) && forall k: nat | k < |records| :: Usable(records, k)
    ensures result.Some? ==> |result.value| == |records| && Placed(records, |records|, result.value)
  {
    var slots: seq<Option<ShardRecord>> := seq(|records|, _ => None);
    for i := 0 to |records|
      invariant |slots| == |records| && Placed(records, i, slots)
      invariant forall k: nat | k < i :: Usable(records, k)
      invariant DistinctRanks(records[..i])
    {
      var record := records[i];
      if !Usable(records, i) {
        return None;
      }
      if slots[record.rank].Some? {
        assert PlacedAt(records, i, slots[record.rank].value, record.rank);
        return None;
      }
      assert records[..i + 1] == records[..i] + [record];
      PlaceNext(records, i, slots);
      slots := slots[record.rank := Some(record)];
    }
    assert records[..|records|] == records;
    return Some(slots);
  }

  /** The records by rank, `Failed` when the set is not complete; `Stuck` would be a missing rank. */
  method OrderRecords(records: seq<ShardRecord>) returns (result: Outcome<seq<ShardRecord>>)
    ensures result.Ok? <==> Complete(records)
    ensures result.Ok? ==> Sorts(records, result.value)
    ensures !result.Stuck?
  {
    if records == [] || records[0].world == 0 || records[0].world > MAX_RANKS || |records| != records[0].world {
      return Failed;
    }
    var placed := PlaceRecords(records);
    if placed.None? {
      return Failed;
    }
    var ordered: seq<ShardRecord> := [];
    for r := 0 to |records|
      invariant |ordered| == r && InOrder(ordered) && forall x | x in ordered :: x in records
    {
      RanksCovered(records, r);
      if placed.value[r].None? {
        assert false;
        return Stuck;
      }
      assert PlacedAt(records, |records|, placed.value[r].value, r);
      ordered := ordered + [placed.value[r].value];
    }
    return Ok(ordered);
  }

  // ---- merging ----

  /** The records' bytes of one blob, in rank order, cut to the full length. */
  function MergedBytes(parts: seq<seq<Byte>>, count: nat, kind: ElementType): seq<Byte>
  {
    Sharding.Joined(parts, count * Width(kind))
  }

  function WeightParts(ordered: seq<ShardRecord>, name: string): (r: seq<seq<Byte>>)
    requires forall r | 0 <= r < |ordered| :: name in ordered[r].weights
    ensures |r| == |ordered|
  {
    seq(|ordered|, r requires 0 <= r < |ordered| => ordered[r].weights[name].bytes)
  }

  predicate Mergeable(ordered: seq<ShardRecord>, specs: seq<ParameterSpec>)
  {
    forall i | 0 <= i < |specs| ::
      Count(specs[i].shape).Some? && forall r | 0 <= r < |ordered| :: specs[i].name in ordered[r].weights
  }

  function MergedWeight(ordered: seq<ShardRecord>, spec: ParameterSpec): Payload
    requires Mergeable(ordered, [spec])
  {
    assert [spec][0] == spec;
    Payload(spec.shape, spec.kind, MergedBytes(WeightParts(ordered, spec.name), Count(spec.shape).value, spec.kind))
  }

  function MergedWeights(ordered: seq<ShardRecord>, specs: seq<ParameterSpec>): map<string, Payload>
    requires Mergeable(ordered, specs)
  {
    if specs == [] then map[]
    else
      var last := specs[|specs| - 1];
      MergedWeights(ordered, specs[..|specs| - 1])[last.name := MergedWeight(ordered, last)]
  }

  method MergeWeights(ordered: seq<ShardRecord>, specs: seq<ParameterSpec>) returns (weights: map<string, Payload>)
    requires Mergeable(ordered, specs)
    ensures weights == MergedWeights(ordered, specs)
  {
    weights := map[];
    for i := 0 to |specs|
      invariant weights == MergedWeights(ordered, specs[..i])
    {
      var spec := specs[i];
      var bytes := Sharding.JoinLoop(WeightParts(ordered, spec.name), Count(spec.shape).value * Width(spec.kind));
      weights := weights[spec.name := Payload(spec.shape, spec.kind, bytes)];
      assert specs[..i + 1][..i] == specs[..i];
    }
    assert specs[..|specs|] == specs;
  }

  lemma {:induction false} MergedAt(ordered: seq<ShardRecord>, specs: seq<ParameterSpec>, i: nat, n: nat)
    requires ValidSpecs(specs) && Mergeable(ordered, specs) && i < n <= |specs|
    ensures Mergeable(ordered, specs[..n]) && specs[i].name in MergedWeights(ordered, specs[..n])
    ensures MergedWeights(ordered, specs[..n])[specs[i].name] == MergedWeight(ordered, specs[i])
  {
    assert specs[..n][..n - 1] == specs[..n - 1];
    if i < n - 1 {
      MergedAt(ordered, specs, i, n - 1);
      DistinctNames(specs, i, n - 1);
    }
  }

  lemma {:induction false} MergedKeys(ordered: seq<ShardRecord>, specs: seq<ParameterSpec>)
    requires Mergeable(ordered, specs)
    ensures MergedWeights(ordered, specs).Keys == NamesOf(specs)
  {
    if specs != [] {
      var n := |specs| - 1;
      MergedKeys(ordered, specs[..n]);
      assert specs == specs[..n] + [specs[n]];
    }
  }

  // ---- merging optimizer state ----

  /** Ranks' states of one parameter agree with the first and are its chunks. */
  predicate SlotsAgree(states: seq<SlotState>, shape: seq<int>)
    requires states != [] && |shape| <= 64 && Elements(shape).Some?
  {
    forall r | 0 <= r < |states| ::
      && states[r].shape == [Sharding.Chunk(Elements(shape).value, |states|)]
      && states[r].kind == states[0].kind && states[r].group == states[0].group
      && states[r].step == states[0].step && states[r].slots.Keys == states[0].slots.Keys
  }

  function SlotParts(states: seq<SlotState>, slot: string): (r: seq<seq<Byte>>)
    requires forall r | 0 <= r < |states| :: slot in states[r].slots
    ensures |r| == |states|
  {
    seq(|states|, r requires 0 <= r < |states| => states[r].slots[slot].bytes)
  }

  function MergedSlots(states: seq<SlotState>, shape: seq<int>): SlotState
    requires states != [] && |shape| <= 64 && Elements(shape).Some? && SlotsAgree(states, shape)
  {
    SlotState(shape, states[0].kind, states[0].group, states[0].step,
              map n | n in states[0].slots ::
                Payload(shape, states[0].slots[n].kind, MergedBytes(SlotParts(states, n), Elements(shape).value,
                                                                    states[0].kind)))
  }

  /** Every rank's state of one parameter. */
  function StatesOf(states: seq<OptimizerState>, name: string): (r: seq<SlotState>)
    requires forall r | 0 <= r < |states| :: name in states[r].parameters
    ensures |r| == |states|
  {
    seq(|states|, r requires 0 <= r < |states| => states[r].parameters[name])
  }

  predicate OptimizersAgree(states: seq<OptimizerState>, shapes: map<string, seq<int>>)
    requires states != []
  {
    && (forall r | 0 <= r < |states| ::
          ValidOptimizer(states[r]) && states[r].settings == states[0].settings &&
          states[r].parameters.Keys == states[0].parameters.Keys)
    && shapes.Keys == states[0].parameters.Keys
    && forall n | n in shapes ::
      |shapes[n]| <= 64 && Elements(shapes[n]).Some? && SlotsAgree(StatesOf(states, n), shapes[n])
  }

  /** `OptimizerState::consolidate_shards`. */
  function MergedOptimizer(states: seq<OptimizerState>, shapes: map<string, seq<int>>): Option<OptimizerState>
    requires states != []
  {
    if !OptimizersAgree(states, shapes) then None
    else
      var merged := OptimizerState(states[0].settings,
                                   map n | n in shapes :: MergedSlots(StatesOf(states, n), shapes[n]));
      if ValidOptimizer(merged) then Some(merged) else None
  }

  function Shapes(specs: seq<ParameterSpec>): map<string, seq<int>>
  {
    if specs == [] then map[]
    else
      var last := specs[|specs| - 1];
      Shapes(specs[..|specs| - 1])[last.name := last.shape]
  }

  function Optimizers(ordered: seq<ShardRecord>): (r: seq<OptimizerState>)
    ensures |r| == |ordered|
  {
    seq(|ordered|, r requires 0 <= r < |ordered| => ordered[r].optimizer)
  }

  predicate BytesFit(specs: seq<ParameterSpec>)
  {
    forall i | 0 <= i < |specs| ::
      Count(specs[i].shape).Some? && Count(specs[i].shape).value * Width(specs[i].kind) <= USIZE_MAX
  }

  function Assembled(ordered: seq<ShardRecord>): Option<FullRecord>
    requires ordered != [] && Mergeable(ordered, ordered[0].parameters)
  {
    var specs := ordered[0].parameters;
    var optimizer := MergedOptimizer(Optimizers(ordered), Shapes(specs));
    if !BytesFit(specs) || optimizer.None? then None
    else Some(FullRecord(1, specs, MergedWeights(ordered, specs), optimizer.value))
  }

  /** The records of a complete set by rank. */
  ghost function ByRank(records: seq<ShardRecord>): (ordered: seq<ShardRecord>)
    requires Complete(records)
    ensures Sorts(records, ordered)
  {
    seq(|records|, r requires 0 <= r < |records| => OfRank(records, r))
  }

  ghost function OfRank(records: seq<ShardRecord>, r: nat): (record: ShardRecord)
    requires Complete(records) && r < |records|
    ensures record in records && record.rank == r
  {
    RanksBounded(records);
    RanksCovered(records, r);
    var i :| 0 <= i < |records| && records[i].rank == r;
    records[i]
  }

  lemma RanksBounded(records: seq<ShardRecord>)
    requires Complete(records)
    ensures forall i | 0 <= i < |records| :: records[i].rank < |records|
  {
    forall i | 0 <= i < |records|
      ensures records[i].rank < |records|
    {
      assert Usable(records, i);
    }
  }

  lemma SortedMergeable(records: seq<ShardRecord>, ordered: seq<ShardRecord>)
    requires Complete(records) && Sorts(records, ordered)
    ensures ordered[0].parameters == records[0].parameters && Mergeable(ordered, records[0].parameters)
  {
    var specs := records[0].parameters;
    forall r | 0 <= r < |ordered|
      ensures ordered[r].parameters == specs && ValidShard(ordered[r])
    {
      assert ordered[r] in ordered;
      var k: nat :| k < |records| && records[k] == ordered[r];
      assert Usable(records, k);
    }
    forall i | 0 <= i < |specs|
      ensures Count(specs[i].shape).Some? && forall r | 0 <= r < |ordered| :: specs[i].name in ordered[r].weights
    {
      assert ValidSpec(ordered[0].parameters[i]);
      forall r | 0 <= r < |ordered|
        ensures specs[i].name in ordered[r].weights
      {
        assert ValidWeight(ordered[r], ordered[r].parameters[i]);
      }
    }
  }

  /** `ShardedCheckpoint::consolidate` as a function of the record set. */
  ghost function Consolidated(records: seq<ShardRecord>): Option<FullRecord>
  {
    if !Complete(records) then None
    else
      SortedMergeable(records, ByRank(records));
      Assembled(ByRank(records))
  }

  lemma SortedIsByRank(records: seq<ShardRecord>, ordered: seq<ShardRecord>)
    requires Complete(records) && Sorts(records, ordered)
    ensures ordered == ByRank(records)
  {
    forall r: nat | r < |records|
      ensures ordered[r] == OfRank(records, r)
    {
      assert ordered[r] in ordered && ordered[r].rank == r;
      var record := OfRank(records, r);
      var i :| 0 <= i < |records| && records[i] == ordered[r];
      var j :| 0 <= j < |records| && records[j] == record;
      assert i == j by {
        assert records[i].rank == records[j].rank;
      }
    }
  }

  /** Consolidation never misses a rank and computes the merge of the records by rank. */
  method Consolidate(records: seq<ShardRecord>) returns (result: Outcome<FullRecord>)
    ensures result == if Consolidated(records).Some? then Ok(Consolidated(records).value) else Failed
  {
    var sorted := OrderRecords(records);
    if !sorted.Ok? {
      return Failed;
    }
    var ordered := sorted.value;
    SortedIsByRank(records, ordered);
    SortedMergeable(records, ordered);
    var specs := ordered[0].parameters;
    if !BytesFit(specs) {
      return Failed;
    }
    var weights := MergeWeights(ordered, specs);
    var optimizer := MergedOptimizer(Optimizers(ordered), Shapes(specs));
    return if optimizer.Some? then Ok(FullRecord(1, specs, weights, optimizer.value)) else Failed;
  }

  // ---- the order of the records does not matter ----

  lemma OneMoreDistinct(records: seq<ShardRecord>, n: nat)
    requires |records| == n + 1 && DistinctRanks(records[..n]) && records[n].rank !in Ranks(records[..n])
    ensures DistinctRanks(records)
  {
    var before := records[..n];
    forall i, j | 0 <= i < j < |records|
      ensures records[i].rank != records[j].rank
    {
      assert before[i] == records[i] && before[i] in before;
      if j < n {
        assert before[j] == records[j];
      }
    }
  }

  lemma {:induction false} FewerRanks(records: seq<ShardRecord>)
    ensures |Ranks(records)| <= |records|
    ensures |Ranks(records)| == |records| ==> DistinctRanks(records)
  {
    if records != [] {
      var n := |records| - 1;
      FewerRanks(records[..n]);
      assert records == records[..n] + [records[n]];
      assert Ranks(records) == Ranks(records[..n]) + {records[n].rank};
      if |Ranks(records)| == |records| {
        assert |Ranks(records[..n])| == n && records[n].rank !in Ranks(records[..n]);
        OneMoreDistinct(records, n);
      }
    }
  }

  lemma SameMembers(a: seq<ShardRecord>, b: seq<ShardRecord>, r: ShardRecord)
    requires multiset(a) == multiset(b)
    ensures r in a <==> r in b
  {
    assert r in a <==> r in multiset(a);
    assert r in b <==> r in multiset(b);
  }

  lemma PermutedComplete(a: seq<ShardRecord>, b: seq<ShardRecord>)
    requires multiset(a) == multiset(b) && Complete(a)
    ensures Complete(b)
  {
    assert |a| == |multiset(a)| == |multiset(b)| == |b|;
    forall k: nat | k < |b|
      ensures ValidShard(b[k]) && SameSet(a[0], b[k])
    {
      SameMembers(a, b, b[k]);
      var i: nat :| i < |a| && a[i] == b[k];
      assert Usable(a, i);
    }
    forall k: nat | k < |b|
      ensures Usable(b, k)
    {
      assert SameSet(a[0], b[0]) && SameSet(a[0], b[k]);
    }
    forall r: nat
      ensures r in Ranks(a) <==> r in Ranks(b)
    {
      forall x: ShardRecord
        ensures x in a <==> x in b
      {
        SameMembers(a, b, x);
      }
    }
    RankCount(a);
    assert Ranks(a) == Ranks(b);
    FewerRanks(b);
  }

  /** Records may come in any order: the outcome is the same. */
  lemma OrderIrrelevant(a: seq<ShardRecord>, b: seq<ShardRecord>)
    requires multiset(a) == multiset(b)
    ensures Consolidated(a) == Consolidated(b)
  {
    if Complete(a) {
      PermutedComplete(a, b);
      assert |a| == |multiset(a)| == |b|;
      forall r | r in ByRank(a)
        ensures r in b
      {
        SameMembers(a, b, r);
      }
      SortedIsByRank(b, ByRank(a));
    } else if Complete(b) {
      PermutedComplete(b, a);
    }
  }

  // ---- consolidation undoes sharding ----

  /** The optimizer state belongs to the model: one state per parameter, of its shape and type. */
  predicate OptimizerFits(f: FullRecord)
  {
    && ValidOptimizer(f.optimizer) && f.optimizer.parameters.Keys == NamesOf(f.parameters)
    && forall i | 0 <= i < |f.parameters| ::
      f.parameters[i].name in f.optimizer.parameters &&
      f.optimizer.parameters[f.parameters[i].name].shape == f.parameters[i].shape &&
      f.optimizer.parameters[f.parameters[i].name].kind == f.parameters[i].kind
  }

  lemma QuotientBound(sum: nat, world: nat, count: nat)
    requires 0 < world && sum <= count * world
    ensures sum / world <= count
  {
    var q := sum / world;
    assert q * world <= sum;
    assert (count + 1) * world == count * world + world;
    if q > count {
      Sharding.Scaled(count + 1, q, world);
    }
  }

  lemma ChunkWithin(count: nat, world: nat)
    requires 0 < world && 0 < count
    ensures 0 < Sharding.Chunk(count, world) <= count
  {
    assert 0 <= (count - 1) * (world - 1) == count * world - count - world + 1;
    QuotientBound(count + world - 1, world, count);
    if Sharding.Chunk(count, world) == 0 {
      Sharding.ChunksCover(count, world);
    }
  }

  lemma ShardPayloadFits(p: Payload, rank: nat, world: nat)
    requires 0 < world && ValidPayload(p, MAX_BLOB) && 0 < Elements(p.shape).value
    ensures ValidBlob(p) && ValidPayload(ShardPayload(p, rank, world), MAX_BLOB)
  {
    var count := Elements(p.shape).value;
    ChunkWithin(count, world);
    Sharding.Scaled(Sharding.Chunk(count, world), count, Width(p.kind));
    assert ValidBlob(ShardPayload(p, rank, world));
  }

  lemma ShardSlotsValid(s: SlotState, rank: nat, world: nat)
    requires 0 < world && ValidSlots(s) && 0 < Elements(s.shape).value
    ensures ValidSlots(ShardSlots(s, rank, world))
  {
    var t := ShardSlots(s, rank, world);
    ChunkWithin(Elements(s.shape).value, world);
    ElementsBounded(s.shape);
    var shape := t.shape;
    assert shape[..|shape| - 1] == [] && Elements(shape[..|shape| - 1]) == Some(1);
    forall n | n in t.slots
      ensures t.slots[n].shape == t.shape && t.slots[n].kind == t.kind && ValidBlob(t.slots[n])
    {
      assert ValidBlob(ShardPayload(s.slots[n], rank, world));
    }
  }

  lemma ElementsBounded(shape: seq<int>)
    requires Elements(shape).Some?
    ensures Elements(shape).value <= USIZE_MAX
  {
  }

  lemma CapturedWeight(f: FullRecord, id: string, rank: nat, world: nat, i: nat)
    requires ValidFull(f) && OptimizerFits(f) && 1 <= world && rank < world && i < |f.parameters|
    requires forall n | n in f.weights :: ValidBlob(f.weights[n])
    ensures ValidSpec(f.parameters[i]) && ValidWeight(Captured(f, id, rank, world), f.parameters[i])
  {
    assert ValidSpec(f.parameters[i]);
    ShardPayloadFits(f.weights[f.parameters[i].name], rank, world);
  }

  lemma CapturedOptimizer(f: FullRecord, rank: nat, world: nat)
    requires ValidFull(f) && OptimizerFits(f) && 1 <= world
    ensures ValidOptimizer(ShardOptimizer(f.optimizer, rank, world))
  {
    var o := ShardOptimizer(f.optimizer, rank, world);
    forall n | n in o.parameters
      ensures ValidSlots(o.parameters[n])
    {
      var i :| 0 <= i < |f.parameters| && f.parameters[i].name == n;
      assert ValidSpec(f.parameters[i]);
      ShardSlotsValid(f.optimizer.parameters[n], rank, world);
    }
  }

  lemma WeightCount(weights: map<string, Payload>, rank: nat, world: nat)
    requires 0 < world && forall n | n in weights :: ValidBlob(weights[n])
    ensures |ShardWeights(weights, rank, world)| == |weights|
  {
    var r := ShardWeights(weights, rank, world);
    assert r.Keys == weights.Keys && |r| == |r.Keys| && |weights| == |weights.Keys|;
  }

  lemma StateCount(o: OptimizerState, rank: nat, world: nat)
    requires 0 < world && ValidOptimizer(o)
    ensures |ShardOptimizer(o, rank, world).parameters| == |o.parameters|
  {
    var r := ShardOptimizer(o, rank, world).parameters;
    assert r.Keys == o.parameters.Keys && |r| == |r.Keys| && |o.parameters| == |o.parameters.Keys|;
  }

  lemma OneStateEach(specs: seq<ParameterSpec>, o: OptimizerState)
    requires ValidSpecs(specs) && o.parameters.Keys == NamesOf(specs)
    ensures |o.parameters| == |specs|
  {
    NameCount(specs, |specs|);
    assert specs[..|specs|] == specs;
    assert |o.parameters| == |o.parameters.Keys|;
  }

  lemma CapturedValid(f: FullRecord, id: string, rank: nat, world: nat)
    requires ValidFull(f) && OptimizerFits(f) && 0 < |id| <= 300 && 1 <= world <= MAX_RANKS && rank < world
    ensures forall n | n in f.weights :: ValidBlob(f.weights[n])
    ensures ValidShard(Captured(f, id, rank, world))
  {
    FullBlobs(f);
    WeightCount(f.weights, rank, world);
    StateCount(f.optimizer, rank, world);
    OneStateEach(f.parameters, f.optimizer);
    CapturedOptimizer(f, rank, world);
    var r := Captured(f, id, rank, world);
    forall i | 0 <= i < |r.parameters|
      ensures ValidSpec(r.parameters[i]) && ValidWeight(r, r.parameters[i])
    {
      CapturedWeight(f, id, rank, world, i);
    }
  }

  /** One record per rank of `world`, each what its rank captured from `f`. */
  ghost predicate CapturedFrom(f: FullRecord, id: string, world: nat, records: seq<ShardRecord>)
    requires 0 < world && ValidOptimizer(f.optimizer) && forall n | n in f.weights :: ValidBlob(f.weights[n])
  {
    && |records| == world && DistinctRanks(records)
    && forall i: nat | i < world :: records[i].rank < world && records[i] == Captured(f, id, records[i].rank, world)
  }

  /** The captured records in rank order. */
  ghost function AllRanks(f: FullRecord, id: string, world: nat): seq<ShardRecord>
    requires 0 < world && ValidOptimizer(f.optimizer) && forall n | n in f.weights :: ValidBlob(f.weights[n])
  {
    seq(world, r requires 0 <= r < world => Captured(f, id, r, world))
  }

  lemma CapturedComplete(f: FullRecord, id: string, world: nat, records: seq<ShardRecord>)
    requires ValidFull(f) && OptimizerFits(f) && 0 < |id| <= 300 && 1 <= world <= MAX_RANKS
    requires forall n | n in f.weights :: ValidBlob(f.weights[n])
    requires CapturedFrom(f, id, world, records)
    ensures Complete(records) && ByRank(records) == AllRanks(f, id, world)
  {
    forall k: nat | k < |records|
      ensures Usable(records, k)
    {
      CapturedValid(f, id, records[k].rank, world);
      assert records[0].rank < world;
    }
    assert records[0].rank < world;
    forall r | 0 <= r < world
      ensures ByRank(records)[r] == AllRanks(f, id, world)[r]
    {
      var record := OfRank(records, r);
      var i: nat :| i < |records| && records[i] == record;
      assert records[i].rank == r;
    }
  }

  lemma MergedWeightIs(f: FullRecord, id: string, world: nat, i: nat)
    requires ValidFull(f) && OptimizerFits(f) && 0 < world && i < |f.parameters|
    requires forall n | n in f.weights :: ValidBlob(f.weights[n])
    requires Mergeable(AllRanks(f, id, world), f.parameters)
    ensures MergedWeight(AllRanks(f, id, world), f.parameters[i]) == f.weights[f.parameters[i].name]
  {
    var ordered, spec := AllRanks(f, id, world), f.parameters[i];
    var p := f.weights[spec.name];
    var count := Elements(p.shape).value;
    assert ValidSpec(spec);
    assert WeightParts(ordered, spec.name) == Sharding.Shards(p.bytes, 0 as Byte, count, Width(p.kind), world);
    Sharding.JoinUndoesShard(p.bytes, 0 as Byte, count, Width(p.kind), world);
  }

  lemma MergedByName(f: FullRecord, id: string, world: nat, n: string)
    requires ValidFull(f) && OptimizerFits(f) && 0 < world
    requires forall m | m in f.weights :: ValidBlob(f.weights[m])
    requires Mergeable(AllRanks(f, id, world), f.parameters) && n in NamesOf(f.parameters)
    ensures n in MergedWeights(AllRanks(f, id, world), f.parameters) && n in f.weights
    ensures MergedWeights(AllRanks(f, id, world), f.parameters)[n] == f.weights[n]
  {
    var specs := f.parameters;
    var i: nat :| i < |specs| && specs[i].name == n;
    assert specs[..|specs|] == specs;
    MergedAt(AllRanks(f, id, world), specs, i, |specs|);
    MergedWeightIs(f, id, world, i);
  }

  lemma SameMap<T>(a: map<string, T>, b: map<string, T>)
    requires a.Keys == b.Keys && forall n | n in b :: n in a && a[n] == b[n]
    ensures a == b
  {
  }

  lemma MergedWeightsAre(f: FullRecord, id: string, world: nat)
    requires ValidFull(f) && OptimizerFits(f) && 0 < world
    requires forall n | n in f.weights :: ValidBlob(f.weights[n])
    requires Mergeable(AllRanks(f, id, world), f.parameters)
    ensures MergedWeights(AllRanks(f, id, world), f.parameters) == f.weights
  {
    FullBlobs(f);
    var ordered := AllRanks(f, id, world);
    MergedKeys(ordered, f.parameters);
    forall n | n in f.weights
      ensures n in MergedWeights(ordered, f.parameters) && MergedWeights(ordered, f.parameters)[n] == f.weights[n]
    {
      MergedByName(f, id, world, n);
    }
    SameMap(MergedWeights(ordered, f.parameters), f.weights);
  }

  lemma {:induction false} ShapesAt(specs: seq<ParameterSpec>, i: nat, n: nat)
    requires ValidSpecs(specs) && i < n <= |specs|
    ensures specs[i].name in Shapes(specs[..n]) && Shapes(specs[..n])[specs[i].name] == specs[i].shape
  {
    assert specs[..n][..n - 1] == specs[..n - 1];
    if i < n - 1 {
      ShapesAt(specs, i, n - 1);
      DistinctNames(specs, i, n - 1);
    }
  }

  lemma {:induction false} ShapesKeys(specs: seq<ParameterSpec>)
    ensures Shapes(specs).Keys == NamesOf(specs)
  {
    if specs != [] {
      var n := |specs| - 1;
      ShapesKeys(specs[..n]);
      assert specs == specs[..n] + [specs[n]];
      NamesCons(specs[..n], specs[n]);
    }
  }

  /** Every rank's slots of one parameter. */
  ghost function SlotShards(s: SlotState, world: nat): seq<SlotState>
    requires 0 < world && ValidSlots(s)
  {
    seq(world, r requires 0 <= r < world => ShardSlots(s, r, world))
  }

  lemma MergedSlotIs(s: SlotState, world: nat, n: string)
    requires 0 < world && ValidSlots(s) && n in s.slots
    ensures forall r | 0 <= r < world :: n in SlotShards(s, world)[r].slots
    ensures MergedBytes(SlotParts(SlotShards(s, world), n), Elements(s.shape).value, s.kind) == s.slots[n].bytes
  {
    var p := s.slots[n];
    var count := Elements(p.shape).value;
    assert SlotParts(SlotShards(s, world), n) == Sharding.Shards(p.bytes, 0 as Byte, count, Width(p.kind), world);
    Sharding.JoinUndoesShard(p.bytes, 0 as Byte, count, Width(p.kind), world);
  }

  lemma SlotShardsAgree(s: SlotState, world: nat)
    requires 0 < world && ValidSlots(s)
    ensures SlotsAgree(SlotShards(s, world), s.shape)
  {
    forall r | 0 <= r < world
      ensures SlotShards(s, world)[r].slots.Keys == s.slots.Keys
    {
    }
  }

  lemma MergedSlotsAre(s: SlotState, world: nat)
    requires 0 < world && ValidSlots(s) && SlotsAgree(SlotShards(s, world), s.shape)
    ensures MergedSlots(SlotShards(s, world), s.shape) == s
  {
    var merged := MergedSlots(SlotShards(s, world), s.shape);
    assert merged.slots.Keys == s.slots.Keys;
    forall n | n in s.slots
      ensures merged.slots[n] == s.slots[n]
    {
      MergedSlotIs(s, world, n);
    }
  }

  /** Every rank's share of the optimizer state. */
  ghost function OptimizerShards(o: OptimizerState, world: nat): seq<OptimizerState>
    requires 0 < world && ValidOptimizer(o)
  {
    seq(world, r requires 0 <= r < world => ShardOptimizer(o, r, world))
  }

  lemma StatesAre(o: OptimizerState, world: nat, n: string)
    requires 0 < world && ValidOptimizer(o) && n in o.parameters
    ensures forall r | 0 <= r < world :: n in OptimizerShards(o, world)[r].parameters
    ensures StatesOf(OptimizerShards(o, world), n) == SlotShards(o.parameters[n], world)
  {
  }

  ghost predicate ShapesOf(o: OptimizerState, shapes: map<string, seq<int>>)
  {
    shapes.Keys == o.parameters.Keys && forall n | n in shapes :: shapes[n] == o.parameters[n].shape
  }

  lemma OptimizerShardsAgree(o: OptimizerState, shapes: map<string, seq<int>>, world: nat)
    requires 0 < world && ValidOptimizer(o) && ShapesOf(o, shapes)
    requires forall r | 0 <= r < world :: ValidOptimizer(ShardOptimizer(o, r, world))
    ensures OptimizersAgree(OptimizerShards(o, world), shapes)
  {
    var states := OptimizerShards(o, world);
    forall r | 0 <= r < world
      ensures states[r].parameters.Keys == o.parameters.Keys && states[r].settings == o.settings
    {
    }
    forall n | n in shapes
      ensures SlotsAgree(StatesOf(states, n), shapes[n])
    {
      StatesAre(o, world, n);
      SlotShardsAgree(o.parameters[n], world);
    }
  }

  /** Merging every rank's share of an optimizer state gives the state back. */
  lemma MergedOptimizerIs(o: OptimizerState, shapes: map<string, seq<int>>, world: nat)
    requires 0 < world && ValidOptimizer(o) && ShapesOf(o, shapes)
    requires forall r | 0 <= r < world :: ValidOptimizer(ShardOptimizer(o, r, world))
    ensures MergedOptimizer(OptimizerShards(o, world), shapes) == Some(o)
  {
    var states := OptimizerShards(o, world);
    OptimizerShardsAgree(o, shapes, world);
    var merged := map n | n in shapes :: MergedSlots(StatesOf(states, n), shapes[n]);
    forall n | n in shapes
      ensures merged[n] == o.parameters[n]
    {
      StatesAre(o, world, n);
      SlotShardsAgree(o.parameters[n], world);
      MergedSlotsAre(o.parameters[n], world);
    }
    assert merged == o.parameters;
  }

  lemma ShapesFit(f: FullRecord)
    requires ValidFull(f) && OptimizerFits(f)
    ensures ShapesOf(f.optimizer, Shapes(f.parameters))
  {
    var specs := f.parameters;
    ShapesKeys(specs);
    assert specs[..|specs|] == specs;
    forall n | n in f.optimizer.parameters
      ensures Shapes(specs)[n] == f.optimizer.parameters[n].shape
    {
      var i: nat :| i < |specs| && specs[i].name == n;
      ShapesAt(specs, i, |specs|);
    }
  }

  lemma MergedStateIs(f: FullRecord, id: string, world: nat)
    requires ValidFull(f) && OptimizerFits(f) && 0 < world
    requires forall n | n in f.weights :: ValidBlob(f.weights[n])
    ensures MergedOptimizer(Optimizers(AllRanks(f, id, world)), Shapes(f.parameters)) == Some(f.optimizer)
  {
    forall r | 0 <= r < world
      ensures ValidOptimizer(ShardOptimizer(f.optimizer, r, world))
    {
      CapturedOptimizer(f, r, world);
    }
    ShapesFit(f);
    MergedOptimizerIs(f.optimizer, Shapes(f.parameters), world);
    assert Optimizers(AllRanks(f, id, world)) == OptimizerShards(f.optimizer, world);
  }

  lemma FullBytesFit(f: FullRecord)
    requires ValidFull(f)
    ensures BytesFit(f.parameters)
  {
    forall i | 0 <= i < |f.parameters|
      ensures Count(f.parameters[i].shape).Some?
      ensures Count(f.parameters[i].shape).value * Width(f.parameters[i].kind) <= USIZE_MAX
    {
      assert ValidSpec(f.parameters[i]);
      assert ValidPayload(f.weights[f.parameters[i].name], MAX_BLOB);
    }
  }

  lemma AssembledIs(f: FullRecord, id: string, world: nat)
    requires ValidFull(f) && OptimizerFits(f) && 0 < world
    requires forall n | n in f.weights :: ValidBlob(f.weights[n])
    requires Mergeable(AllRanks(f, id, world), f.parameters)
    ensures Assembled(AllRanks(f, id, world)) == Some(f)
  {
    MergedWeightsAre(f, id, world);
    MergedStateIs(f, id, world);
    FullBytesFit(f);
  }

  /** Consolidating the shards of a state gives the state back: for every world
      size, every parameter length and any order of the records. */
  lemma ConsolidateUndoesShard(f: FullRecord, id: string, world: nat, records: seq<ShardRecord>)
    requires ValidFull(f) && OptimizerFits(f) && 0 < |id| <= 300 && 1 <= world <= MAX_RANKS
    requires forall n | n in f.weights :: ValidBlob(f.weights[n])
    requires CapturedFrom(f, id, world, records)
    ensures Consolidated(records) == Some(f)
  {
    CapturedComplete(f, id, world, records);
    SortedMergeable(records, ByRank(records));
    AssembledIs(f, id, world);
  }

  /** Re-sharding through a consolidated checkpoint is sharding the original,
      whatever the old and the new world size. */
  lemma ReshardIsShard(f: FullRecord, id: string, world: nat, records: seq<ShardRecord>, rank: nat, other: nat)
    requires ValidFull(f) && OptimizerFits(f) && 0 < |id| <= 300 && 1 <= world <= MAX_RANKS
    requires forall n | n in f.weights :: ValidBlob(f.weights[n])
    requires CapturedFrom(f, id, world, records) && rank < other <= MAX_RANKS
    ensures Consolidated(records).Some?
    ensures ShardOf(Consolidated(records).value, rank, other) == Some(Captured(f, "consolidated", rank, other))
    ensures ValidShard(Captured(f, "consolidated", rank, other))
  {
    ConsolidateUndoesShard(f, id, world, records);
    CapturedValid(f, "consolidated", rank, other);
  }
}
