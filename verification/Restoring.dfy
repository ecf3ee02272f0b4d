/** Restoring model tensors that may share storage (`TrainingCheckpoint::restore`,
    src/checkpoint.rs). */
module Restoring {
  import opened Wrappers
  import opened Tensors
  import opened Names
  import opened Collectives

  /** A saved tensor: its bytes in row-major order. */
  datatype Saved = Saved(kind: DType, shape: seq<nat>, bytes: seq<Byte>)

  /** A live tensor: where its contiguous bytes are. */
  datatype Target = Target(device: nat, start: nat, kind: DType, shape: seq<nat>, contiguous: bool)

  /** A byte range of a device's memory and the tensor it belongs to. */
  datatype Range = Range(start: nat, end: nat, name: string)

  /** `torch.equal` on two tensors of one dtype and shape: value equality, so not
      reflexive where a value is NaN. */
  type Equal = (DType, seq<Byte>, seq<Byte>) -> bool

  ghost predicate ValueEquality(eq: Equal)
  {
    && (forall k, a, b :: eq(k, a, b) ==> eq(k, b, a))
    && forall k, a, b, c :: eq(k, a, b) && eq(k, b, c) ==> eq(k, a, c)
  }

  type Weights = map<string, Saved>

  // ---- ordering ranges ----

  predicate AtMost(a: Range, b: Range)
  {
    a.start < b.start || (a.start == b.start && (a.end < b.end || (a.end == b.end && !Less(b.name, a.name))))
  }

  function Insert(r: Range, ranges: seq<Range>): seq<Range>
  {
    if ranges == [] then [r]
    else if AtMost(r, ranges[0]) then [r] + ranges
    else [ranges[0]] + Insert(r, ranges[1..])
  }

  function Sort(ranges: seq<Range>): seq<Range>
  {
    if ranges == [] then [] else Insert(ranges[0], Sort(ranges[1..]))
  }

  predicate Ordered(ranges: seq<Range>)
  {
    forall i | 0 <= i < |ranges| - 1 :: ranges[i].start <= ranges[i + 1].start
  }

  lemma {:induction false} InsertOrdered(r: Range, ranges: seq<Range>)
    requires Ordered(ranges)
    ensures Ordered(Insert(r, ranges))
    ensures Insert(r, ranges) != []
    ensures (Insert(r, ranges)[0] == r || (ranges != [] && Insert(r, ranges)[0] == ranges[0]))
  {
    if ranges != [] {
      if AtMost(r, ranges[0]) {
        var all := [r] + ranges;
        forall i | 0 <= i < |all| - 1
          ensures all[i].start <= all[i + 1].start
        {
          assert i > 0 ==> all[i] == ranges[i - 1] && all[i + 1] == ranges[i - 1 + 1];
        }
      } else {
        var tail := ranges[1..];
        forall i | 0 <= i < |tail| - 1
          ensures tail[i].start <= tail[i + 1].start
        {
          assert tail[i] == ranges[i + 1] && tail[i + 1] == ranges[i + 1 + 1];
        }
        InsertOrdered(r, tail);
        var rest := Insert(r, tail);
        assert tail != [] ==> ranges[0].start <= ranges[0 + 1].start;
        var all := [ranges[0]] + rest;
        forall i | 0 <= i < |all| - 1
          ensures all[i].start <= all[i + 1].start
        {
          assert i > 0 ==> all[i] == rest[i - 1] && all[i + 1] == rest[i - 1 + 1];
        }
      }
    }
  }

  lemma {:induction false} SortOrdered(ranges: seq<Range>)
    ensures Ordered(Sort(ranges))
  {
    if ranges != [] {
      SortOrdered(ranges[1..]);
      InsertOrdered(ranges[0], Sort(ranges[1..]));
    }
  }

  lemma {:induction false} InsertMultiset(r: Range, ranges: seq<Range>)
    ensures multiset(Insert(r, ranges)) == multiset(ranges) + multiset{r}
  {
    if ranges != [] && !AtMost(r, ranges[0]) {
      InsertMultiset(r, ranges[1..]);
      assert ranges == [ranges[0]] + ranges[1..];
    }
  }

  lemma {:induction false} SortMultiset(ranges: seq<Range>)
    ensures multiset(Sort(ranges)) == multiset(ranges)
  {
    if ranges != [] {
      SortMultiset(ranges[1..]);
      InsertMultiset(ranges[0], Sort(ranges[1..]));
      assert ranges == [ranges[0]] + ranges[1..];
    }
  }

  // ---- adjacent pairs decide all pairs ----

  predicate Named(ranges: seq<Range>, weights: Weights)
  {
    forall i | 0 <= i < |ranges| :: ranges[i].start < ranges[i].end && ranges[i].name in weights
  }

  /** The two tensors' saved values may stand for each other. */
  predicate Interchangeable(eq: Equal, a: Saved, b: Saved)
  {
    a.kind == b.kind && a.shape == b.shape && eq(a.kind, a.bytes, b.bytes)
  }

  /** Two ranges are disjoint, or identical with equal saved values. */
  predicate Compatible(eq: Equal, weights: Weights, a: Range, b: Range)
    requires a.name in weights && b.name in weights
  {
    a.end <= b.start || b.end <= a.start ||
    (a.start == b.start && a.end == b.end && Interchangeable(eq, weights[b.name], weights[a.name]))
  }

  /** The check made on neighbours of the sorted list. */
  predicate NeighbourOk(eq: Equal, weights: Weights, previous: Range, next: Range)
    requires previous.name in weights && next.name in weights
  {
    next.start < previous.end ==>
      next.start == previous.start && next.end == previous.end &&
        Interchangeable(eq, weights[next.name], weights[previous.name])
  }

  predicate NeighboursOk(eq: Equal, weights: Weights, ranges: seq<Range>)
    requires Named(ranges, weights)
  {
    forall i | 0 <= i < |ranges| - 1 :: NeighbourOk(eq, weights, ranges[i], ranges[i + 1])
  }

  method CheckNeighbours(eq: Equal, weights: Weights, ranges: seq<Range>) returns (ok: bool)
    requires Named(ranges, weights)
    ensures ok == NeighboursOk(eq, weights, ranges)
  {
    var i := 1;
    while i < |ranges|
      invariant 1 <= i
      invariant forall k | 0 <= k < i - 1 && k < |ranges| - 1 :: NeighbourOk(eq, weights, ranges[k], ranges[k + 1])
    {
      if !NeighbourOk(eq, weights, ranges[i - 1], ranges[i]) {
        assert ranges[i] == ranges[i - 1 + 1];
        return false;
      }
      assert ranges[i] == ranges[i - 1 + 1];
      i := i + 1;
    }
    return true;
  }

  lemma {:induction false} OrderedStarts(ranges: seq<Range>, i: nat, j: nat)
    requires Ordered(ranges) && i <= j < |ranges|
    ensures ranges[i].start <= ranges[j].start
  {
    if i < j {
      OrderedStarts(ranges, i, j - 1);
      assert ranges[j - 1].start <= ranges[j - 1 + 1].start;
    }
  }

  /** Everything between two overlapping ranges is a copy of the first. */
  lemma {:induction false} OverlapChain(eq: Equal, weights: Weights, ranges: seq<Range>, i: nat, j: nat)
    requires ValueEquality(eq) && Ordered(ranges) && Named(ranges, weights) && NeighboursOk(eq, weights, ranges)
    requires i < j < |ranges| && ranges[j].start < ranges[i].end
    ensures ranges[j].start == ranges[i].start && ranges[j].end == ranges[i].end
    ensures Interchangeable(eq, weights[ranges[j].name], weights[ranges[i].name])
  {
    assert NeighbourOk(eq, weights, ranges[j - 1], ranges[j - 1 + 1]);
    if i < j - 1 {
      OrderedStarts(ranges, j - 1, j);
      OverlapChain(eq, weights, ranges, i, j - 1);
    }
  }

  ghost predicate AllCompatible(eq: Equal, weights: Weights, ranges: seq<Range>)
    requires Named(ranges, weights)
  {
    forall i, j | 0 <= i < |ranges| && 0 <= j < |ranges| && i != j :: Compatible(eq, weights, ranges[i], ranges[j])
  }

  /** Checking neighbours of the sorted list is checking every pair. */
  lemma NeighboursDecideAll(eq: Equal, weights: Weights, ranges: seq<Range>)
    requires ValueEquality(eq) && Ordered(ranges) && Named(ranges, weights)
    ensures NeighboursOk(eq, weights, ranges) <==> AllCompatible(eq, weights, ranges)
  {
    if NeighboursOk(eq, weights, ranges) {
      forall i: nat, j: nat | i < |ranges| && j < |ranges| && i != j
        ensures Compatible(eq, weights, ranges[i], ranges[j])
      {
        if i < j {
          if ranges[j].start < ranges[i].end { OverlapChain(eq, weights, ranges, i, j); }
        } else {
          if ranges[i].start < ranges[j].end { OverlapChain(eq, weights, ranges, j, i); }
        }
      }
    }
    if AllCompatible(eq, weights, ranges) {
      forall i | 0 <= i < |ranges| - 1
        ensures NeighbourOk(eq, weights, ranges[i], ranges[i + 1])
      {
        assert Compatible(eq, weights, ranges[i], ranges[i + 1]);
        assert ranges[i].start <= ranges[i + 1].start;
      }
    }
  }

  // ---- the restore ----

  type Destination = map<string, Target>

  /** Bytes of each device's memory. */
  type Memory = map<nat, seq<Byte>>

  function Size(t: Target): nat
  {
    Numel(t.shape) * Tensors.Width(t.kind)
  }

  predicate MetadataOk(t: Target, w: Saved)
  {
    t.shape == w.shape && t.kind == w.kind && t.contiguous && t.start + Size(t) <= Tensors.USIZE_MAX
  }

  /** A loaded checkpoint: byte counts agree with shapes and dtypes. */
  predicate LoadedWeights(weights: Weights)
  {
    forall n | n in weights :: |weights[n].bytes| == Numel(weights[n].shape) * Tensors.Width(weights[n].kind)
  }

  predicate Allocated(destination: Destination, memory: Memory)
  {
    forall n | n in destination ::
      destination[n].device in memory && destination[n].start + Size(destination[n]) <= |memory[destination[n].device]|
  }

  function RangeOf(destination: Destination, n: string): Range
    requires n in destination
  {
    Range(destination[n].start, destination[n].start + Size(destination[n]), n)
  }

  /** The nonempty ranges on one device, in name order. */
  function RangesOn(destination: Destination, names: seq<string>, device: nat): (r: seq<Range>)
    requires forall i | 0 <= i < |names| :: names[i] in destination
    ensures forall i | 0 <= i < |r| :: r[i].start < r[i].end && r[i].name in destination
  {
    if names == [] then []
    else
      var before, n := RangesOn(destination, Front(names), device), Last(names);
      if destination[n].device == device && Size(destination[n]) != 0 then
        before + [RangeOf(destination, n)] else before
  }

  lemma {:induction false} RangeListed(destination: Destination, names: seq<string>, device: nat, n: string)
    requires forall i | 0 <= i < |names| :: names[i] in destination
    requires n in names && destination[n].device == device && Size(destination[n]) != 0
    ensures RangeOf(destination, n) in RangesOn(destination, names, device)
  {
    if n != Last(names) {
      assert names == Front(names) + [Last(names)];
      RangeListed(destination, Front(names), device, n);
    }
  }

  function Devices(destination: Destination): set<nat>
  {
    set n | n in destination :: destination[n].device
  }

  /** No two targets share bytes unless they are the same range with equal saved values. */
  ghost predicate Consistent(eq: Equal, destination: Destination, weights: Weights)
    requires destination.Keys == weights.Keys
  {
    forall m, n | m in destination && n in destination && m != n && destination[m].device == destination[n].device &&
      Size(destination[m]) != 0 && Size(destination[n]) != 0 ::
      Compatible(eq, weights, RangeOf(destination, m), RangeOf(destination, n))
  }

  predicate DeviceOk(eq: Equal, destination: Destination, weights: Weights, names: seq<string>, device: nat)
    requires destination.Keys == weights.Keys && forall i | 0 <= i < |names| :: names[i] in destination
  {
    SortNamed(destination, weights, names, device);
    NeighboursOk(eq, weights, Sort(RangesOn(destination, names, device)))
  }

  lemma SortNamed(destination: Destination, weights: Weights, names: seq<string>, device: nat)
    requires destination.Keys == weights.Keys && forall i | 0 <= i < |names| :: names[i] in destination
    ensures Named(Sort(RangesOn(destination, names, device)), weights)
  {
    var ranges := RangesOn(destination, names, device);
    SortMultiset(ranges);
    forall i | 0 <= i < |Sort(ranges)|
      ensures Sort(ranges)[i].start < Sort(ranges)[i].end && Sort(ranges)[i].name in weights
    {
      assert Sort(ranges)[i] in multiset(ranges);
    }
  }

  lemma {:induction false} RangesNamed(destination: Destination, names: seq<string>, device: nat, i: nat)
    requires forall k | 0 <= k < |names| :: names[k] in destination
    requires i < |RangesOn(destination, names, device)|
    ensures var r := RangesOn(destination, names, device)[i];
      r.name in names && r == RangeOf(destination, r.name) && destination[r.name].device == device &&
        Size(destination[r.name]) != 0
  {
    var before := RangesOn(destination, Front(names), device);
    assert names == Front(names) + [Last(names)];
    if i < |before| {
      RangesNamed(destination, Front(names), device, i);
    }
  }

  lemma MemberPositions(ranges: seq<Range>, r: Range) returns (i: nat)
    requires r in multiset(ranges)
    ensures i < |ranges| && ranges[i] == r
  {
    assert r in ranges;
    i :| 0 <= i < |ranges| && ranges[i] == r;
  }

  /** The per-device neighbour checks hold exactly when every two targets are compatible. */
  lemma DevicesDecide(eq: Equal, destination: Destination, weights: Weights, names: seq<string>)
    requires ValueEquality(eq) && destination.Keys == weights.Keys && Members(names) == destination.Keys
    requires Names.Ascending(names)
    requires forall i | 0 <= i < |names| :: names[i] in destination
    ensures (forall d | d in Devices(destination) :: DeviceOk(eq, destination, weights, names, d)) <==>
      Consistent(eq, destination, weights)
  {
    if forall d | d in Devices(destination) :: DeviceOk(eq, destination, weights, names, d) {
      forall m, n | m in destination && n in destination && m != n && destination[m].device == destination[n].device &&
        Size(destination[m]) != 0 && Size(destination[n]) != 0
        ensures Compatible(eq, weights, RangeOf(destination, m), RangeOf(destination, n))
      {
        DeviceOkPair(eq, destination, weights, names, m, n);
      }
    }
    if Consistent(eq, destination, weights) {
      forall d | d in Devices(destination)
        ensures DeviceOk(eq, destination, weights, names, d)
      {
        ConsistentDevice(eq, destination, weights, names, d);
      }
    }
  }

  lemma DeviceOkPair(eq: Equal, destination: Destination, weights: Weights, names: seq<string>, m: string, n: string)
    requires ValueEquality(eq) && destination.Keys == weights.Keys && Members(names) == destination.Keys
    requires forall i | 0 <= i < |names| :: names[i] in destination
    requires m in destination && n in destination && m != n && destination[m].device == destination[n].device
    requires Size(destination[m]) != 0 && Size(destination[n]) != 0
    requires DeviceOk(eq, destination, weights, names, destination[m].device)
    ensures Compatible(eq, weights, RangeOf(destination, m), RangeOf(destination, n))
  {
    var ranges := RangesOn(destination, names, destination[m].device);
    var sorted := Sort(ranges);
    assert m in Members(names) && n in Members(names);
    RangeListed(destination, names, destination[m].device, m);
    RangeListed(destination, names, destination[m].device, n);
    SortMultiset(ranges);
    SortOrdered(ranges);
    SortNamed(destination, weights, names, destination[m].device);
    var i := MemberPositions(sorted, RangeOf(destination, m));
    var j := MemberPositions(sorted, RangeOf(destination, n));
    NeighboursDecideAll(eq, weights, sorted);
    assert Compatible(eq, weights, sorted[i], sorted[j]);
  }

  lemma {:induction false} DistinctRanges(destination: Destination, names: seq<string>, device: nat, i: nat, j: nat)
    requires (forall k | 0 <= k < |names| :: names[k] in destination) && Names.Ascending(names)
    requires i < j < |RangesOn(destination, names, device)|
    ensures RangesOn(destination, names, device)[i].name != RangesOn(destination, names, device)[j].name
  {
    var front := Front(names);
    var before := RangesOn(destination, front, device);
    if j < |before| {
      DistinctRanges(destination, front, device, i, j);
    } else {
      RangesNamed(destination, front, device, i);
      var k :| 0 <= k < |front| && front[k] == before[i].name;
      AscendingDistinct(names, k, |names| - 1);
    }
  }

  lemma {:induction false} OnceEach(ranges: seq<Range>, r: Range)
    requires forall i, j | 0 <= i < j < |ranges| :: ranges[i].name != ranges[j].name
    ensures multiset(ranges)[r] <= 1
  {
    if ranges != [] {
      OnceEach(Front(ranges), r);
      assert ranges == Front(ranges) + [Last(ranges)];
      if multiset(Front(ranges))[r] == 1 {
        assert r in Front(ranges);
        var k :| 0 <= k < |ranges| - 1 && ranges[k] == r;
        assert ranges[k].name != ranges[|ranges| - 1].name;
      }
    }
  }

  lemma TwiceIsTwo(ranges: seq<Range>, i: nat, j: nat)
    requires i < j < |ranges| && ranges[i] == ranges[j]
    ensures multiset(ranges)[ranges[i]] >= 2
  {
    assert ranges == ranges[..j] + [ranges[j]] + ranges[j + 1..];
    assert ranges[..j][i] == ranges[i];
    assert ranges[i] in ranges[..j];
  }

  lemma ConsistentDevice(eq: Equal, destination: Destination, weights: Weights, names: seq<string>, device: nat)
    requires ValueEquality(eq) && destination.Keys == weights.Keys && Names.Ascending(names)
    requires forall i | 0 <= i < |names| :: names[i] in destination
    requires Consistent(eq, destination, weights)
    ensures DeviceOk(eq, destination, weights, names, device)
  {
    var ranges := RangesOn(destination, names, device);
    var sorted := Sort(ranges);
    SortMultiset(ranges);
    SortOrdered(ranges);
    SortNamed(destination, weights, names, device);
    forall i: nat, j: nat | i < |sorted| && j < |sorted| && i != j
      ensures Compatible(eq, weights, sorted[i], sorted[j])
    {
      assert sorted[i] in multiset(ranges) && sorted[j] in multiset(ranges);
      var a := MemberPositions(ranges, sorted[i]);
      var b := MemberPositions(ranges, sorted[j]);
      RangesNamed(destination, names, device, a);
      RangesNamed(destination, names, device, b);
      if sorted[i].name == sorted[j].name {
        SortedOnce(destination, names, device, if i < j then i else j, if i < j then j else i);
      }
    }
    NeighboursDecideAll(eq, weights, sorted);
  }

  lemma SortedOnce(destination: Destination, names: seq<string>, device: nat, i: nat, j: nat)
    requires (forall k | 0 <= k < |names| :: names[k] in destination) && Names.Ascending(names)
    requires i < j < |Sort(RangesOn(destination, names, device))|
    ensures Sort(RangesOn(destination, names, device))[i] != Sort(RangesOn(destination, names, device))[j]
  {
    var ranges := RangesOn(destination, names, device);
    var sorted := Sort(ranges);
    SortMultiset(ranges);
    forall a: nat, b: nat | a < b < |ranges|
      ensures ranges[a].name != ranges[b].name
    {
      DistinctRanges(destination, names, device, a, b);
    }
    if sorted[i] == sorted[j] {
      TwiceIsTwo(sorted, i, j);
      OnceEach(ranges, sorted[i]);
    }
  }

  // ---- copying ----

  function Overwrite(cells: seq<Byte>, start: nat, bytes: seq<Byte>): (r: seq<Byte>)
    requires start + |bytes| <= |cells|
    ensures |r| == |cells|
  {
    cells[..start] + bytes + cells[start + |bytes|..]
  }

  function Stored(memory: Memory, t: Target): seq<Byte>
    requires t.device in memory && t.start + Size(t) <= |memory[t.device]|
  {
    memory[t.device][t.start..t.start + Size(t)]
  }

  /** Whether the saved tensors fit their destinations. */
  predicate Matching(destination: Destination, weights: Weights)
  {
    destination.Keys == weights.Keys && LoadedWeights(weights) &&
    forall n | n in destination :: MetadataOk(destination[n], weights[n])
  }

  function CopyOne(memory: Memory, destination: Destination, weights: Weights, n: string): (r: Memory)
    requires Matching(destination, weights) && Allocated(destination, memory) && n in destination
    ensures Allocated(destination, r)
  {
    var t := destination[n];
    memory[t.device := Overwrite(memory[t.device], t.start, weights[n].bytes)]
  }

  /** The copies, in the given order. */
  function CopyAll(memory: Memory, destination: Destination, weights: Weights, order: seq<string>): (r: Memory)
    requires Matching(destination, weights) && Allocated(destination, memory)
    requires forall i | 0 <= i < |order| :: order[i] in destination
    ensures Allocated(destination, r)
  {
    if order == [] then memory
    else CopyOne(CopyAll(memory, destination, weights, Front(order)), destination, weights, Last(order))
  }

  /** The tensor holds its saved bytes, or those of a tensor in the same place with an equal value. */
  ghost predicate Holds(eq: Equal, memory: Memory, destination: Destination, weights: Weights, n: string)
    requires Matching(destination, weights) && Allocated(destination, memory) && n in destination
  {
    Stored(memory, destination[n]) == weights[n].bytes ||
    exists u :: u in destination && Stored(memory, destination[n]) == weights[u].bytes &&
      Interchangeable(eq, weights[u], weights[n])
  }

  lemma HoldsOther(eq: Equal, memory: Memory, destination: Destination, weights: Weights, n: string, u: string)
    requires Matching(destination, weights) && Allocated(destination, memory) && n in destination && u in destination
    requires Stored(memory, destination[n]) == weights[u].bytes && Interchangeable(eq, weights[u], weights[n])
    ensures Holds(eq, memory, destination, weights, n)
  {
  }

  lemma CopiedItself(memory: Memory, destination: Destination, weights: Weights, n: string)
    requires Matching(destination, weights) && Allocated(destination, memory) && n in destination
    ensures Stored(CopyOne(memory, destination, weights, n), destination[n]) == weights[n].bytes
  {
    assert MetadataOk(destination[n], weights[n]);
    assert |weights[n].bytes| == Size(destination[n]);
  }

  lemma CopiedElsewhere(memory: Memory, destination: Destination, weights: Weights, n: string, u: string)
    requires Matching(destination, weights) && Allocated(destination, memory) && n in destination && u in destination
    requires destination[n].device != destination[u].device || Size(destination[u]) == 0 ||
             RangeOf(destination, u).end <= RangeOf(destination, n).start ||
               RangeOf(destination, n).end <= RangeOf(destination, u).start
    ensures Stored(CopyOne(memory, destination, weights, u), destination[n]) == Stored(memory, destination[n])
  {
    assert MetadataOk(destination[u], weights[u]);
    assert |weights[u].bytes| == Size(destination[u]);
    if Size(destination[u]) == 0 {
      var cells := memory[destination[u].device];
      assert Overwrite(cells, destination[u].start, []) == cells;
      assert weights[u].bytes == [];
    }
  }

  lemma CopiedOver(eq: Equal, memory: Memory, destination: Destination, weights: Weights, n: string, u: string)
    requires ValueEquality(eq) && Matching(destination, weights) && Allocated(destination, memory)
    requires n in destination && u in destination && n != u && Consistent(eq, destination, weights)
    ensures Stored(CopyOne(memory, destination, weights, u), destination[n]) == Stored(memory, destination[n]) ||
            Holds(eq, CopyOne(memory, destination, weights, u), destination, weights, n)
  {
    var a, b := RangeOf(destination, n), RangeOf(destination, u);
    if Size(destination[n]) == 0 {
      assert Stored(memory, destination[n]) == [] == Stored(CopyOne(memory, destination, weights, u), destination[n]);
    } else if destination[n].device != destination[u].device || Size(destination[u]) == 0 || b.end <= a.start ||
      a.end <= b.start {
      CopiedElsewhere(memory, destination, weights, n, u);
    } else {
      assert Compatible(eq, weights, a, b);
      CopiedItself(memory, destination, weights, u);
      var after := CopyOne(memory, destination, weights, u);
      assert Stored(after, destination[n]) == weights[u].bytes;
      HoldsOther(eq, after, destination, weights, n, u);
    }
  }

  /** After the copies, in any order, every copied tensor value-equals its saved one. */
  lemma {:induction false} CopiesHold(eq: Equal, memory: Memory, destination: Destination, weights: Weights,
                                      order: seq<string>, n: string)
    requires ValueEquality(eq) && Matching(destination, weights) && Allocated(destination, memory)
    requires Consistent(eq, destination, weights) && (forall i | 0 <= i < |order| :: order[i] in destination)
    requires n in order
    ensures n in destination && Holds(eq, CopyAll(memory, destination, weights, order), destination, weights, n)
  {
    var before, u := CopyAll(memory, destination, weights, Front(order)), Last(order);
    assert order == Front(order) + [u];
    if n == u {
      CopiedItself(before, destination, weights, n);
    } else {
      CopiesHold(eq, memory, destination, weights, Front(order), n);
      CopiedOver(eq, before, destination, weights, n, u);
    }
  }

  /** The overlap check, device by device. */
  method CheckOverlaps(eq: Equal, destination: Destination, weights: Weights, names: seq<string>) returns (ok: bool)
    requires ValueEquality(eq) && destination.Keys == weights.Keys && Members(names) == destination.Keys
    requires Names.Ascending(names)
    requires forall i | 0 <= i < |names| :: names[i] in destination
    ensures ok <==> Consistent(eq, destination, weights)
  {
    DevicesDecide(eq, destination, weights, names);
    var devices := Devices(destination);
    while devices != {}
      invariant devices <= Devices(destination)
      invariant forall d | d in Devices(destination) && d !in devices :: DeviceOk(eq, destination, weights, names, d)
      decreases devices
    {
      var d :| d in devices;
      SortNamed(destination, weights, names, d);
      ok := CheckNeighbours(eq, weights, Sort(RangesOn(destination, names, d)));
      if !ok {
        assert !DeviceOk(eq, destination, weights, names, d);
        return;
      }
      devices := devices - {d};
    }
    return true;
  }

  method CopyLoop(memory: Memory, destination: Destination, weights: Weights,
                  order: seq<string>)
    returns (current: Memory)
    requires Matching(destination, weights) && Allocated(destination, memory)
    requires forall i | 0 <= i < |order| :: order[i] in destination
    ensures current == CopyAll(memory, destination, weights, order)
  {
    current := memory;
    for i := 0 to |order|
      invariant current == CopyAll(memory, destination, weights, order[..i])
    {
      assert Front(order[..i + 1]) == order[..i] && Last(order[..i + 1]) == order[i];
      current := CopyOne(current, destination, weights, order[i]);
    }
    assert order[..|order|] == order;
  }

  /** `restore` up to the optimizer: metadata, overlap check, copies in name order. */
  method Restore(eq: Equal, destination: Destination, weights: Weights, memory: Memory) returns (r: Option<Memory>)
    requires ValueEquality(eq) && LoadedWeights(weights) && Allocated(destination, memory)
    ensures r.Some? <==> Matching(destination, weights) && Consistent(eq, destination, weights)
    ensures r.Some? ==> Allocated(destination, r.value) && forall n | n in destination ::
      Holds(eq, r.value, destination, weights, n)
  {
    if destination.Keys != weights.Keys || exists n | n in destination :: !MetadataOk(destination[n], weights[n]) {
      return None;
    }
    var names := Sorted(destination.Keys);
    forall i | 0 <= i < |names|
      ensures names[i] in destination
    {
      assert names[i] in Members(names);
    }
    var ok := CheckOverlaps(eq, destination, weights, names);
    if !ok {
      return None;
    }
    var current := CopyLoop(memory, destination, weights, names);
    forall n | n in destination
      ensures Holds(eq, current, destination, weights, n)
    {
      assert n in Members(names);
      CopiesHold(eq, memory, destination, weights, names, n);
    }
    return Some(current);
  }
}
