/** Padded sharding of one tensor and its inverse (src/distributed/training.rs,
    src/optim/stateful.rs). A tensor of `count` elements is `width` items an
    element: its raw bytes, or the elements themselves with `width == 1`. */
module Sharding {

  function Min(a: nat, b: nat): nat
  {
    if a <= b then a else b
  }

  /** Elements per rank: the count divided by the world size, rounded up. */
  function Chunk(count: nat, world: nat): nat
    requires 0 < world
  {
    (count + world - 1) / world
  }

  /** The first element rank `rank` owns. */
  function First(count: nat, rank: nat, world: nat): nat
    requires 0 < world
  {
    Min(rank * Chunk(count, world), count)
  }

  function Zeros<T>(zero: T, n: nat): seq<T>
  {
    seq(n, _ => zero)
  }

  predicate Blob<T>(items: seq<T>, count: nat, width: nat)
  {
    |items| == count * width
  }

  lemma Scaled(a: nat, b: nat, width: nat)
    requires a <= b
    ensures a * width <= b * width && b * width - a * width == (b - a) * width
  {
  }

  lemma FirstOrdered(count: nat, rank: nat, world: nat)
    requires 0 < world
    ensures First(count, rank, world) <= First(count, rank + 1, world) <= count
    ensures First(count, rank + 1, world) - First(count, rank, world) ==
      Min(Chunk(count, world), count - First(count, rank, world))
  {
    assert (rank + 1) * Chunk(count, world) == rank * Chunk(count, world) + Chunk(count, world);
  }

  /** `shard_tensor` on the flattened tensor: the rank's elements, then zeros up to the chunk. */
  function Shard<T>(items: seq<T>, zero: T, count: nat, width: nat, rank: nat, world: nat): (s: seq<T>)
    requires 0 < world && Blob(items, count, width)
    ensures |s| == Chunk(count, world) * width
  {
    var chunk := Chunk(count, world);
    var start := First(count, rank, world);
    var length := Min(chunk, count - start);
    Scaled(start, start + length, width);
    Scaled(start + length, count, width);
    Scaled(length, chunk, width);
    items[start * width..(start + length) * width] + Zeros(zero, (chunk - length) * width)
  }

  /** The chunks cover every element. */
  lemma ChunksCover(count: nat, world: nat)
    requires 0 < world
    ensures First(count, 0, world) == 0 && First(count, world, world) == count
    ensures count <= world * Chunk(count, world) < count + world
  {
    var sum := count + world - 1;
    assert sum == world * (sum / world) + sum % world;
  }

  /** What consolidation appends: each shard, cut at the items still missing. */
  function Joined<T>(parts: seq<seq<T>>, length: nat): (r: seq<T>)
    ensures |r| <= length
  {
    if parts == [] then []
    else
      var before, last := Joined(parts[..|parts| - 1], length), parts[|parts| - 1];
      before + last[..Min(length - |before|, |last|)]
  }

  method JoinLoop<T>(parts: seq<seq<T>>, length: nat) returns (items: seq<T>)
    ensures items == Joined(parts, length)
  {
    items := [];
    for i := 0 to |parts|
      invariant items == Joined(parts[..i], length)
    {
      assert parts[..i + 1][..i] == parts[..i];
      var remaining := length - |items|;
      items := items + parts[i][..Min(remaining, |parts[i]|)];
    }
    assert parts[..|parts|] == parts;
  }

  function Shards<T>(items: seq<T>, zero: T, count: nat, width: nat, world: nat): (s: seq<seq<T>>)
    requires 0 < world && Blob(items, count, width)
    ensures |s| == world
  {
    seq(world, r requires 0 <= r < world => Shard(items, zero, count, width, r, world))
  }

  /** One more shard adds exactly the elements its rank owns. */
  lemma JoinStep<T>(items: seq<T>, zero: T, count: nat, width: nat, rank: nat, world: nat)
    requires rank < world && Blob(items, count, width)
    ensures First(count, rank, world) * width <= First(count, rank + 1, world) * width <= |items|
    ensures var start := First(count, rank, world) * width;
      var s := Shard(items, zero, count, width, rank, world);
      s[..Min(|items| - start, |s|)] == items[start..First(count, rank + 1, world) * width]
  {
    var chunk, start, next := Chunk(count, world), First(count, rank, world), First(count, rank + 1, world);
    FirstOrdered(count, rank, world);
    Scaled(start, next, width);
    Scaled(next, count, width);
    Scaled(start, count, width);
    var length := next - start;
    if length == chunk {
      Scaled(chunk, count - start, width);
    } else {
      assert next == count;
      Scaled(length, chunk, width);
    }
  }

  lemma JoinedNext<T>(parts: seq<seq<T>>, length: nat, r: nat)
    requires r < |parts|
    ensures Joined(parts[..r + 1], length) ==
      Joined(parts[..r], length) + parts[r][..Min(length - |Joined(parts[..r], length)|, |parts[r]|)]
  {
    assert parts[..r + 1][..r] == parts[..r];
  }

  /** Consolidation takes from `part` exactly the items between two cuts. */
  ghost predicate Cut<T>(part: seq<T>, items: seq<T>, from: nat, to: nat)
  {
    from <= to <= |items| && part[..Min(|items| - from, |part|)] == items[from..to]
  }

  lemma JoinCut<T>(before: seq<T>, part: seq<T>, items: seq<T>, from: nat, to: nat)
    requires from <= |items| && before == items[..from] && Cut(part, items, from, to)
    ensures before + part[..Min(|items| - |before|, |part|)] == items[..to]
  {
  }

  lemma {:induction false} JoinedPrefix<T>(parts: seq<seq<T>>, items: seq<T>, cuts: nat -> nat, r: nat)
    requires r <= |parts| && cuts(0) == 0
    requires forall i: nat | i < |parts| :: Cut(parts[i], items, cuts(i), cuts(i + 1))
    ensures cuts(r) <= |items| && Joined(parts[..r], |items|) == items[..cuts(r)]
  {
    if r > 0 {
      JoinedPrefix(parts, items, cuts, r - 1);
      JoinedNext(parts, |items|, r - 1);
      JoinCut(Joined(parts[..r - 1], |items|), parts[r - 1], items, cuts(r - 1), cuts(r));
    }
  }

  /** Byte positions at which the ranks' elements start. */
  function Boundary(count: nat, width: nat, world: nat): nat -> nat
    requires 0 < world
  {
    r => First(count, r, world) * width
  }

  lemma ShardCut<T>(items: seq<T>, zero: T, count: nat, width: nat, world: nat, i: nat)
    requires i < world && Blob(items, count, width)
    ensures var cuts := Boundary(count, width, world);
      Cut(Shards(items, zero, count, width, world)[i], items, cuts(i), cuts(i + 1))
  {
    JoinStep(items, zero, count, width, i, world);
  }

  lemma BoundaryEnds<T>(items: seq<T>, zero: T, count: nat, width: nat, world: nat)
    requires 0 < world && Blob(items, count, width)
    ensures Boundary(count, width, world)(0) == 0 && Boundary(count, width, world)(world) == |items|
  {
    ChunksCover(count, world);
  }

  /** Joining the shards gives the tensor back, for every length and world size. */
  lemma JoinUndoesShard<T>(items: seq<T>, zero: T, count: nat, width: nat, world: nat)
    requires 0 < world && Blob(items, count, width)
    ensures Joined(Shards(items, zero, count, width, world), |items|) == items
  {
    var parts, cuts := Shards(items, zero, count, width, world), Boundary(count, width, world);
    BoundaryEnds(items, zero, count, width, world);
    forall i: nat | i < world
      ensures Cut(parts[i], items, cuts(i), cuts(i + 1))
    {
      ShardCut(items, zero, count, width, world, i);
    }
    JoinedPrefix(parts, items, cuts, world);
    assert parts[..world] == parts;
  }

  // ---- gathering ----

  function Flat<T>(parts: seq<seq<T>>): seq<T>
  {
    if parts == [] then [] else Flat(parts[..|parts| - 1]) + parts[|parts| - 1]
  }

  /** Cutting while joining is cutting after joining. */
  lemma {:induction false} JoinedIsNarrowed<T>(parts: seq<seq<T>>, length: nat)
    ensures Joined(parts, length) == Flat(parts)[..Min(length, |Flat(parts)|)]
  {
    if parts != [] {
      JoinedIsNarrowed(parts[..|parts| - 1], length);
    }
  }

  /** The shards hold the tensor; what their padding holds does not matter. */
  ghost predicate Represents<T>(parts: seq<seq<T>>, full: seq<T>, world: nat)
  {
    0 < world == |parts| &&
    forall r | 0 <= r < world :: Represented(parts[r], full, r, world)
  }

  ghost predicate Represented<T>(part: seq<T>, full: seq<T>, r: nat, world: nat)
    requires 0 < world
  {
    |part| == Chunk(|full|, world) && Cut(part, full, First(|full|, r, world), First(|full|, r + 1, world))
  }

  /** All-gathering, concatenating and narrowing gives the tensor. */
  lemma GatherRepresented<T>(parts: seq<seq<T>>, full: seq<T>, world: nat)
    requires Represents(parts, full, world)
    ensures |full| <= |Flat(parts)| && Flat(parts)[..|full|] == full
  {
    var cuts := (r: nat) => First(|full|, r, world);
    ChunksCover(|full|, world);
    forall i: nat | i < world
      ensures Cut(parts[i], full, cuts(i), cuts(i + 1))
    {
      assert Represented(parts[i], full, i, world);
    }
    JoinedPrefix(parts, full, cuts, world);
    assert parts[..world] == parts;
    JoinedIsNarrowed(parts, |full|);
  }

  lemma ShardRepresented<T>(full: seq<T>, zero: T, r: nat, world: nat)
    requires r < world
    ensures Represented(Shard(full, zero, |full|, 1, r, world), full, r, world)
  {
    JoinStep(full, zero, |full|, 1, r, world);
  }

  /** Element `k` of a shard is element `First + k` of the tensor. */
  lemma RepresentedAt<T>(part: seq<T>, full: seq<T>, r: nat, world: nat, k: nat)
    requires r < world && Represented(part, full, r, world)
    requires k < First(|full|, r + 1, world) - First(|full|, r, world)
    ensures k < |part| && First(|full|, r, world) + k < |full| && part[k] == full[First(|full|, r, world) + k]
  {
    FirstOrdered(|full|, r, world);
    var from, to := First(|full|, r, world), First(|full|, r + 1, world);
    assert part[..Min(|full| - from, |part|)][k] == full[from..to][k];
  }

  lemma RepresentedFrom<T>(part: seq<T>, full: seq<T>, r: nat, world: nat)
    requires r < world && |part| == Chunk(|full|, world)
    requires First(|full|, r, world) <= First(|full|, r + 1, world) <= |full|
    requires forall k: nat | k < First(|full|, r + 1, world) - First(|full|, r, world) && k < |part| ::
      part[k] == full[First(|full|, r, world) + k]
    ensures Represented(part, full, r, world)
  {
    FirstOrdered(|full|, r, world);
    var from, to := First(|full|, r, world), First(|full|, r + 1, world);
    assert |part[..Min(|full| - from, |part|)]| == to - from;
    assert part[..Min(|full| - from, |part|)] == full[from..to];
  }
}
