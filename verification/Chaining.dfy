/** Collective programs run one after the other. A rank that is done with the first
    goes on to the second at once, whatever the other ranks are still doing. */
module Chaining {
  import opened Wrappers
  import opened Collectives
  import opened CollectivePrograms

  /** How many collectives the program ran at this rank before it returned Ok, if it has. */
  function Finished(first: Program, r: nat, results: seq<Response>): (n: Option<nat>)
    ensures n.Some? ==> n.value <= |results|
  {
    if results == [] then (if first.turn(r, results) == Quit(true) then Some(0) else None)
    else
      var before := Finished(first, r, results[..|results| - 1]);
      if before.Some? then before else if first.turn(r, results) == Quit(true) then Some(|results|) else None
  }

  function Then(first: Program, second: Turning): Program
  {
    Program(first.base, (r: nat, results: seq<Response>) =>
      var n := Finished(first, r, results);
      if n.Some? then second(r, results[n.value..]) else first.turn(r, results))
  }

  /** Every rank returns Ok after exactly `n` collectives. */
  ghost predicate CompletesAt(t: Table, prog: Program, n: nat)
  {
    RoundsOf(t, prog, n).Some? && forall i | 0 <= i < t.world ::
      prog.turn(i, RoundsOf(t, prog, n).value[i]) == Quit(true)
  }

  /** The program returns Ok when it has the first `j` of these results. */
  predicate QuitsAt(first: Program, r: nat, results: seq<Response>, j: nat)
    requires j <= |results|
  {
    first.turn(r, results[..j]) == Quit(true)
  }

  lemma {:induction false} NotFinished(first: Program, r: nat, results: seq<Response>)
    requires forall j: nat | j <= |results| :: !QuitsAt(first, r, results, j)
    ensures Finished(first, r, results).None?
  {
    var n := |results|;
    assert results[..n] == results;
    assert !QuitsAt(first, r, results, n);
    if results != [] {
      var front := results[..n - 1];
      forall j: nat | j <= |front|
        ensures !QuitsAt(first, r, front, j)
      {
        assert !QuitsAt(first, r, results, j);
        PrefixOfPrefix(results, j, n - 1);
      }
      NotFinished(first, r, front);
    }
  }

  lemma {:induction false} StaysFinished(first: Program, r: nat, a: seq<Response>, b: seq<Response>)
    requires Finished(first, r, a) == Some(|a|)
    ensures Finished(first, r, a + b) == Some(|a|)
  {
    if b == [] {
      assert a + b == a;
    } else {
      StaysFinished(first, r, a, b[..|b| - 1]);
      assert (a + b)[..|a + b| - 1] == a + b[..|b| - 1];
    }
  }

  lemma FinishedHere(first: Program, r: nat, results: seq<Response>)
    requires first.turn(r, results) == Quit(true)
    requires forall j: nat | j < |results| :: !QuitsAt(first, r, results, j)
    ensures Finished(first, r, results) == Some(|results|)
  {
    if results != [] {
      var front := results[..|results| - 1];
      forall j: nat | j <= |front|
        ensures !QuitsAt(first, r, front, j)
      {
        assert !QuitsAt(first, r, results, j);
        PrefixOfPrefix(results, j, |results| - 1);
      }
      NotFinished(first, r, front);
    }
  }

  // ---- before the first program completes ----

  /** No rank returns Ok before the `k`-th round. */
  ghost predicate Pending(t: Table, first: Program, k: nat)
  {
    forall j: nat | j < k :: !CompletesAt(t, first, j)
  }

  lemma StillAsking(t: Table, first: Program, j: nat, i: nat)
    requires AlwaysTogether(t, first) && RoundsOf(t, first, j).Some? && !CompletesAt(t, first, j) && i < t.world
    ensures first.turn(i, RoundsOf(t, first, j).value[i]) != Quit(true)
  {
    assert TogetherAt(t, first, j);
  }

  lemma PendingTurns(t: Table, first: Program, k: nat, i: nat, results: seq<Response>)
    requires AlwaysTogether(t, first) && Pending(t, first, k) && i < t.world
    requires RoundsOf(t, first, k).Some? && RoundsOf(t, first, k).value[i] == results
    ensures |results| == k && forall j: nat | j < k :: !QuitsAt(first, i, results, j)
  {
    forall j: nat | j < k
      ensures !QuitsAt(first, i, results, j)
    {
      EarlierRoundsOf(t, first, j, k, i);
      StillAsking(t, first, j, i);
    }
  }

  lemma PendingFinished(t: Table, first: Program, k: nat, i: nat, results: seq<Response>)
    requires AlwaysTogether(t, first) && Pending(t, first, k + 1) && i < t.world
    requires RoundsOf(t, first, k).Some? && RoundsOf(t, first, k).value[i] == results
    ensures Finished(first, i, results).None?
  {
    PendingTurns(t, first, k, i, results);
    StillAsking(t, first, k, i);
    assert results[..k] == results;
    NotFinished(first, i, results);
  }

  /** While `first` runs, the chain takes its turns. */
  lemma HeadTurns(t: Table, first: Program, second: Turning, k: nat, history: History)
    requires AlwaysTogether(t, first) && Pending(t, first, k + 1) && RoundsOf(t, first, k) == Some(history)
    ensures forall i | 0 <= i < t.world :: Then(first, second).turn(i, history[i]) == first.turn(i, history[i])
  {
    forall i | 0 <= i < t.world
      ensures Then(first, second).turn(i, history[i]) == first.turn(i, history[i])
    {
      PendingFinished(t, first, k, i, history[i]);
    }
  }

  /** Programs with the same turns are told the same. */
  lemma SameRound(t: Table, p: Program, q: Program, history: History, k: nat)
    requires |history| == t.world && p.base == q.base
    requires forall i | 0 <= i < t.world :: p.turn(i, history[i]) == q.turn(i, history[i])
    ensures Turns(p, history) == Turns(q, history) && (AllAsk(p, history) <==> AllAsk(q, history))
    ensures RoundAfter(t, p, history, k) == RoundAfter(t, q, history, k)
  {
    assert Turns(p, history) == Turns(q, history);
  }

  lemma HeadStep(t: Table, first: Program, second: Turning, k: nat)
    requires AlwaysTogether(t, first) && Pending(t, first, k + 1)
    requires RoundsOf(t, Then(first, second), k) == RoundsOf(t, first, k)
    ensures RoundsOf(t, Then(first, second), k + 1) == RoundsOf(t, first, k + 1)
  {
    if RoundsOf(t, first, k).Some? {
      HeadTurns(t, first, second, k, RoundsOf(t, first, k).value);
      SameRound(t, Then(first, second), first, RoundsOf(t, first, k).value, k);
    }
  }

  lemma PendingLess(t: Table, first: Program, j: nat, k: nat)
    requires Pending(t, first, k) && j <= k
    ensures Pending(t, first, j)
  {
  }

  lemma {:induction false} HeadRounds(t: Table, first: Program, second: Turning, k: nat)
    requires AlwaysTogether(t, first) && Pending(t, first, k)
    ensures RoundsOf(t, Then(first, second), k) == RoundsOf(t, first, k)
    decreases k
  {
    if k > 0 {
      PendingLess(t, first, k - 1, k);
      HeadRounds(t, first, second, k - 1);
      HeadStep(t, first, second, k - 1);
    }
  }

  // ---- after it ----

  /** Earlier results of every rank with later ones. */
  function Glued(a: History, b: History): (r: History)
    requires |a| == |b|
    ensures |r| == |a|
  {
    seq(|a|, i requires 0 <= i < |a| => a[i] + b[i])
  }

  lemma NotEarlier(t: Table, first: Program, n: nat, j: nat)
    requires RoundsOf(t, first, n).Some? && j < n
    ensures !CompletesAt(t, first, j)
  {
    EarlierRoundsOf(t, first, j, n, 0);
    assert first.turn(0, RoundsOf(t, first, j).value[0]).Ask?;
  }

  lemma AskedEarlier(t: Table, first: Program, n: nat, i: nat, results: seq<Response>, j: nat)
    requires i < t.world && RoundsOf(t, first, n).Some? && RoundsOf(t, first, n).value[i] == results
    requires j < n == |results|
    ensures !QuitsAt(first, i, results, j)
  {
    EarlierRoundsOf(t, first, j, n, i);
  }

  lemma CompletedFinished(t: Table, first: Program, n: nat, i: nat)
    requires CompletesAt(t, first, n) && i < t.world
    ensures Finished(first, i, RoundsOf(t, first, n).value[i]) == Some(n)
  {
    var results := RoundsOf(t, first, n).value[i];
    forall j: nat | j < n
      ensures !QuitsAt(first, i, results, j)
    {
      AskedEarlier(t, first, n, i, results, j);
    }
    FinishedHere(first, i, results);
  }

  /** `a` is what every rank holds when `first` completes. */
  ghost predicate Completed(t: Table, first: Program, n: nat, a: History)
  {
    CompletesAt(t, first, n) && RoundsOf(t, first, n).value == a
  }

  /** Once `first` is complete, the chain takes the turns of `second`. */
  lemma GluedTurns(t: Table, first: Program, second: Turning, n: nat, a: History, b: History)
    requires Completed(t, first, n, a) && |a| == |b| == t.world
    ensures forall i | 0 <= i < t.world :: Then(first, second).turn(i, Glued(a, b)[i]) == second(i, b[i])
  {
    forall i | 0 <= i < t.world
      ensures Then(first, second).turn(i, Glued(a, b)[i]) == second(i, b[i])
    {
      CompletedFinished(t, first, n, i);
      StaysFinished(first, i, a[i], b[i]);
      assert (a[i] + b[i])[n..] == b[i];
    }
  }

  lemma GluedRound(t: Table, both: Program, later: Program, n: nat, a: History, b: History, k: nat)
    requires |a| == |b| == t.world && later.base == both.base + n
    requires forall i | 0 <= i < t.world :: both.turn(i, Glued(a, b)[i]) == later.turn(i, b[i])
    ensures Turns(both, Glued(a, b)) == Turns(later, b) && (AllAsk(both, Glued(a, b)) <==> AllAsk(later, b))
    ensures RoundAfter(t, both, Glued(a, b), n + k) ==
      var r := RoundAfter(t, later, b, k); if r.None? then None else Some(Glued(a, r.value))
  {
    assert Turns(both, Glued(a, b)) == Turns(later, b);
    var answer := t.answer(later.base + k, Turns(later, b));
    if answer.Some? && |answer.value| == t.world {
      GluedMore(a, b, answer.value);
    }
  }

  lemma GluedMore(a: History, b: History, more: seq<Response>)
    requires |a| == |b| == |more|
    ensures Extended(Glued(a, b), more) == Glued(a, Extended(b, more))
  {
    forall i | 0 <= i < |a|
      ensures Extended(Glued(a, b), more)[i] == Glued(a, Extended(b, more))[i]
    {
      assert (a[i] + b[i]) + [more[i]] == a[i] + (b[i] + [more[i]]);
    }
  }

  lemma GluedNone(a: History)
    ensures Glued(a, seq(|a|, _ => [])) == a
  {
    forall i | 0 <= i < |a|
      ensures Glued(a, seq(|a|, _ => []))[i] == a[i]
    {
      assert a[i] + [] == a[i];
    }
  }

  /** The chain's round `n + k` is round `k` of `second`, with the earlier results in front. */
  ghost predicate TailAt(t: Table, first: Program, second: Turning, n: nat, a: History, k: nat)
    requires t.world == |a|
  {
    RoundsOf(t, Then(first, second), n + k) ==
      var r := RoundsOf(t, Program(first.base + n, second), k); if r.None? then None else Some(Glued(a, r.value))
  }

  lemma TailBegins(t: Table, first: Program, second: Turning, n: nat, a: History)
    requires t.world == |a| && AlwaysTogether(t, first) && Completed(t, first, n, a)
    ensures TailAt(t, first, second, n, a, 0)
  {
    forall j: nat | j < n
      ensures !CompletesAt(t, first, j)
    {
      NotEarlier(t, first, n, j);
    }
    HeadRounds(t, first, second, n);
    GluedNone(a);
  }

  lemma TailStep(t: Table, first: Program, second: Turning, n: nat, a: History, k: nat)
    requires t.world == |a| && Completed(t, first, n, a) && TailAt(t, first, second, n, a, k)
    ensures TailAt(t, first, second, n, a, k + 1)
  {
    var before := RoundsOf(t, Program(first.base + n, second), k);
    if before.Some? {
      GluedTurns(t, first, second, n, a, before.value);
      GluedRound(t, Then(first, second), Program(first.base + n, second), n, a, before.value, k);
    }
  }

  lemma {:induction false} TailRounds(t: Table, first: Program, second: Turning, n: nat, a: History, k: nat)
    requires t.world == |a| && AlwaysTogether(t, first) && Completed(t, first, n, a)
    ensures TailAt(t, first, second, n, a, k)
    decreases k
  {
    if k == 0 {
      TailBegins(t, first, second, n, a);
    } else {
      TailRounds(t, first, second, n, a, k - 1);
      TailStep(t, first, second, n, a, k - 1);
    }
  }

  /** A chain is either still in its first part at round `k`, or its first part completed at some `n`. */
  lemma Where(t: Table, first: Program, k: nat) returns (n: nat)
    ensures !Pending(t, first, k + 1) ==>
      n <= k && CompletesAt(t, first, n) && |RoundsOf(t, first, n).value| == t.world &&
      Completed(t, first, n, RoundsOf(t, first, n).value)
  {
    n := 0;
    if j: nat :| j <= k && CompletesAt(t, first, j) {
      n := j;
    }
  }

  // ---- chained programs stay aligned ----

  /** `second` is aligned wherever `first` may leave the group. */
  ghost predicate TogetherAfter(t: Table, first: Program, second: Turning)
  {
    forall n: nat :: CompletesAt(t, first, n) ==> AlwaysTogether(t, Program(first.base + n, second))
  }

  /** Turns that agree rank by rank are together or not together. */
  lemma SameTogether(t: Table, p: Program, q: Program, a: History, b: History)
    requires |a| == |b| == t.world && Together(q, b)
    requires forall i | 0 <= i < t.world :: p.turn(i, a[i]) == q.turn(i, b[i])
    ensures Together(p, a)
  {
    if ok :| forall i | 0 <= i < t.world :: q.turn(i, b[i]) == Quit(ok) {
      assert forall i | 0 <= i < t.world :: p.turn(i, a[i]) == Quit(ok);
    }
  }

  lemma HeadTogether(t: Table, first: Program, second: Turning, k: nat)
    requires AlwaysTogether(t, first) && Pending(t, first, k + 1)
    ensures TogetherAt(t, Then(first, second), k)
  {
    HeadRounds(t, first, second, k);
    assert TogetherAt(t, first, k);
    if RoundsOf(t, first, k).Some? {
      var history := RoundsOf(t, first, k).value;
      HeadTurns(t, first, second, k, history);
      SameTogether(t, Then(first, second), first, history, history);
    }
  }

  lemma TailTogether(t: Table, first: Program, second: Turning, n: nat, a: History, k: nat)
    requires t.world == |a| && AlwaysTogether(t, first) && Completed(t, first, n, a)
    requires TogetherAt(t, Program(first.base + n, second), k)
    ensures TogetherAt(t, Then(first, second), n + k)
  {
    var later := Program(first.base + n, second);
    TailRounds(t, first, second, n, a, k);
    if RoundsOf(t, later, k).Some? {
      var b := RoundsOf(t, later, k).value;
      GluedTurns(t, first, second, n, a, b);
      SameTogether(t, Then(first, second), later, Glued(a, b), b);
    }
  }

  lemma ThenTogether(t: Table, first: Program, second: Turning)
    requires AlwaysTogether(t, first) && TogetherAfter(t, first, second)
    ensures AlwaysTogether(t, Then(first, second))
  {
    forall k: nat
      ensures TogetherAt(t, Then(first, second), k)
    {
      var n := Where(t, first, k);
      if Pending(t, first, k + 1) {
        HeadTogether(t, first, second, k);
      } else {
        assert TogetherAt(t, Program(first.base + n, second), k - n);
        TailTogether(t, first, second, n, RoundsOf(t, first, n).value, k - n);
      }
    }
  }

  lemma HeadIncomplete(t: Table, first: Program, second: Turning, k: nat)
    requires AlwaysTogether(t, first) && Pending(t, first, k + 1)
    ensures !CompletesAt(t, Then(first, second), k)
  {
    HeadRounds(t, first, second, k);
    if RoundsOf(t, first, k).Some? {
      HeadTurns(t, first, second, k, RoundsOf(t, first, k).value);
      StillAsking(t, first, k, 0);
    }
  }

  lemma TailComplete(t: Table, first: Program, second: Turning, n: nat, a: History, k: nat)
    requires t.world == |a| && AlwaysTogether(t, first) && Completed(t, first, n, a)
    requires CompletesAt(t, Then(first, second), n + k)
    ensures CompletesAt(t, Program(first.base + n, second), k)
    ensures RoundsOf(t, Then(first, second), n + k).value ==
      Glued(a, RoundsOf(t, Program(first.base + n, second), k).value)
  {
    TailRounds(t, first, second, n, a, k);
    GluedTurns(t, first, second, n, a, RoundsOf(t, Program(first.base + n, second), k).value);
  }

  /** A chain completes where its second part does. */
  lemma ThenCompletes(t: Table, first: Program, second: Turning, k: nat) returns (n: nat)
    requires AlwaysTogether(t, first) && CompletesAt(t, Then(first, second), k)
    ensures n <= k && CompletesAt(t, first, n) && CompletesAt(t, Program(first.base + n, second), k - n)
    ensures RoundsOf(t, Then(first, second), k).value ==
      Glued(RoundsOf(t, first, n).value, RoundsOf(t, Program(first.base + n, second), k - n).value)
  {
    n := Where(t, first, k);
    if Pending(t, first, k + 1) {
      HeadIncomplete(t, first, second, k);
    }
    TailComplete(t, first, second, n, RoundsOf(t, first, n).value, k - n);
  }

  lemma TailStops(t: Table, first: Program, second: Turning, n: nat, a: History, k: nat, most: nat)
    requires t.world == |a| && AlwaysTogether(t, first) && Completed(t, first, n, a)
    requires EndsBy(t, Program(first.base + n, second), most) && most < k
    ensures NoRound(t, Then(first, second), n + k)
  {
    assert NoRound(t, Program(first.base + n, second), k);
    TailRounds(t, first, second, n, a, k);
  }

  /** At whatever sequence number it begins, the program runs at most `n` collectives. */
  ghost predicate AlwaysEndsBy(t: Table, later: Turning, n: nat)
  {
    forall base: nat :: EndsBy(t, Program(base, later), n)
  }

  /** A chain runs at most as many collectives as its parts together. */
  lemma ThenStops(t: Table, first: Program, second: Turning, p: nat, q: nat, total: nat)
    requires AlwaysTogether(t, first) && EndsBy(t, first, p) && AlwaysEndsBy(t, second, q) && total == p + q
    ensures EndsBy(t, Then(first, second), total)
  {
    var n := Where(t, first, total);
    if Pending(t, first, total + 1) {
      HeadRounds(t, first, second, total + 1);
      assert NoRound(t, first, total + 1);
    } else {
      NotPast(t, first, p, n);
      assert EndsBy(t, Program(first.base + n, second), q);
      TailStops(t, first, second, n, RoundsOf(t, first, n).value, total + 1 - n, q);
    }
    EndsWithoutNext(t, Then(first, second), total);
  }

  // ---- one operation at a time ----

  predicate SameOperation(turns: seq<Turn>)
  {
    forall i, j | 0 <= i < |turns| && 0 <= j < |turns| && turns[i].Ask? && turns[j].Ask? ::
      turns[i].operation == turns[j].operation
  }

  /** The ranks' collectives agree in round `k`. */
  ghost predicate UniformAt(t: Table, prog: Program, k: nat)
  {
    RoundsOf(t, prog, k).Some? ==> SameOperation(Turns(prog, RoundsOf(t, prog, k).value))
  }

  ghost predicate Uniform(t: Table, prog: Program)
  {
    forall k: nat :: UniformAt(t, prog, k)
  }

  ghost predicate UniformAfter(t: Table, first: Program, second: Turning)
  {
    forall n: nat :: CompletesAt(t, first, n) ==> Uniform(t, Program(first.base + n, second))
  }

  lemma HeadUniform(t: Table, first: Program, second: Turning, k: nat)
    requires AlwaysTogether(t, first) && UniformAt(t, first, k) && Pending(t, first, k + 1)
    ensures UniformAt(t, Then(first, second), k)
  {
    HeadRounds(t, first, second, k);
    if RoundsOf(t, first, k).Some? {
      HeadTurns(t, first, second, k, RoundsOf(t, first, k).value);
      SameRound(t, Then(first, second), first, RoundsOf(t, first, k).value, k);
    }
  }

  lemma TailUniform(t: Table, first: Program, second: Turning, n: nat, a: History, k: nat)
    requires t.world == |a| && AlwaysTogether(t, first) && Completed(t, first, n, a)
    requires UniformAt(t, Program(first.base + n, second), k)
    ensures UniformAt(t, Then(first, second), n + k)
  {
    var later := Program(first.base + n, second);
    TailRounds(t, first, second, n, a, k);
    if RoundsOf(t, later, k).Some? {
      GluedTurns(t, first, second, n, a, RoundsOf(t, later, k).value);
      GluedRound(t, Then(first, second), later, n, a, RoundsOf(t, later, k).value, k);
    }
  }

  lemma ThenUniform(t: Table, first: Program, second: Turning)
    requires AlwaysTogether(t, first) && Uniform(t, first) && UniformAfter(t, first, second)
    ensures Uniform(t, Then(first, second))
  {
    forall k: nat
      ensures UniformAt(t, Then(first, second), k)
    {
      var n := Where(t, first, k);
      if Pending(t, first, k + 1) {
        HeadUniform(t, first, second, k);
      } else {
        assert UniformAt(t, Program(first.base + n, second), k - n);
        TailUniform(t, first, second, n, RoundsOf(t, first, n).value, k - n);
      }
    }
  }

  // ---- call after call ----

  /** `first`, then the calls in turn. A rank goes on to the next call as soon as its own returned. */
  function Chain(first: Program, calls: seq<Turning>): (p: Program)
    ensures p.base == first.base
  {
    if calls == [] then first else Then(Chain(first, calls[..|calls| - 1]), calls[|calls| - 1])
  }

  /** Begun at any sequence number, the ranks stay together, ask for the same operations
      and are done after `length` collectives. */
  ghost predicate Sound(t: Table, call: Turning, length: nat)
  {
    forall base: nat :: SoundAt(t, Program(base, call), length)
  }

  ghost predicate SoundAt(t: Table, prog: Program, length: nat)
  {
    AlwaysTogether(t, prog) && Uniform(t, prog) && EndsBy(t, prog, length)
  }

  ghost predicate AllSound(t: Table, calls: seq<Turning>, lengths: seq<nat>)
  {
    |calls| == |lengths| && forall i | 0 <= i < |calls| :: Sound(t, calls[i], lengths[i])
  }

  function Total(lengths: seq<nat>): nat
  {
    if lengths == [] then 0 else Total(lengths[..|lengths| - 1]) + lengths[|lengths| - 1]
  }

  lemma SoundAfter(t: Table, first: Program, call: Turning, length: nat)
    requires Sound(t, call, length)
    ensures TogetherAfter(t, first, call) && UniformAfter(t, first, call) && AlwaysEndsBy(t, call, length)
  {
    forall n: nat | CompletesAt(t, first, n)
      ensures AlwaysTogether(t, Program(first.base + n, call)) && Uniform(t, Program(first.base + n, call))
    {
      assert SoundAt(t, Program(first.base + n, call), length);
    }
    forall base: nat
      ensures EndsBy(t, Program(base, call), length)
    {
      assert SoundAt(t, Program(base, call), length);
    }
  }

  lemma {:induction false} ChainTogether(t: Table, first: Program, calls: seq<Turning>, lengths: seq<nat>)
    requires AlwaysTogether(t, first) && AllSound(t, calls, lengths)
    ensures AlwaysTogether(t, Chain(first, calls))
    decreases |calls|
  {
    if calls != [] {
      var n := |calls| - 1;
      ChainTogether(t, first, calls[..n], lengths[..n]);
      SoundAfter(t, Chain(first, calls[..n]), calls[n], lengths[n]);
      ThenTogether(t, Chain(first, calls[..n]), calls[n]);
    }
  }

  lemma {:induction false} ChainUniform(t: Table, first: Program, calls: seq<Turning>, lengths: seq<nat>)
    requires AlwaysTogether(t, first) && Uniform(t, first) && AllSound(t, calls, lengths)
    ensures Uniform(t, Chain(first, calls))
    decreases |calls|
  {
    if calls != [] {
      var n := |calls| - 1;
      ChainUniform(t, first, calls[..n], lengths[..n]);
      ChainTogether(t, first, calls[..n], lengths[..n]);
      SoundAfter(t, Chain(first, calls[..n]), calls[n], lengths[n]);
      ThenUniform(t, Chain(first, calls[..n]), calls[n]);
    }
  }

  lemma {:induction false} ChainEnds(t: Table, first: Program, calls: seq<Turning>, lengths: seq<nat>, most: nat)
    requires AlwaysTogether(t, first) && EndsBy(t, first, most) && AllSound(t, calls, lengths)
    ensures EndsBy(t, Chain(first, calls), most + Total(lengths))
    decreases |calls|
  {
    if calls != [] {
      var n := |calls| - 1;
      ChainEnds(t, first, calls[..n], lengths[..n], most);
      ChainTogether(t, first, calls[..n], lengths[..n]);
      SoundAfter(t, Chain(first, calls[..n]), calls[n], lengths[n]);
      ThenStops(t, Chain(first, calls[..n]), calls[n], most + Total(lengths[..n]), lengths[n], most + Total(lengths));
    }
  }

  /** The history ends with what the last call gave, and so on back to the first call. */
  ghost predicate Parted(t: Table, base: nat, calls: seq<Turning>, history: History)
    decreases |calls|, 1
  {
    calls == [] || exists n: nat, m: nat, a, b :: PartedAt(t, base, calls, history, n, m, a, b)
  }

  /** `b` is what the last call gave, begun after `n` collectives; `a` is what came before. */
  ghost predicate PartedAt(t: Table, base: nat, calls: seq<Turning>, history: History, n: nat, m: nat, a: History,
                           b: History)
    requires calls != []
    decreases |calls|, 0
  {
    && |a| == |b| == t.world && history == Glued(a, b)
    && Completed(t, Program(base + n, calls[|calls| - 1]), m, b) && Parted(t, base, calls[..|calls| - 1], a)
  }

  /** Where a chain completes, so did each call in it. */
  lemma {:induction false} ChainParted(t: Table, first: Program, calls: seq<Turning>, lengths: seq<nat>, k: nat)
    requires AlwaysTogether(t, first) && AllSound(t, calls, lengths) && CompletesAt(t, Chain(first, calls), k)
    ensures Parted(t, first.base, calls, RoundsOf(t, Chain(first, calls), k).value)
    decreases |calls|
  {
    if calls != [] {
      var before, last := Chain(first, calls[..|calls| - 1]), calls[|calls| - 1];
      ChainTogether(t, first, calls[..|calls| - 1], lengths[..|calls| - 1]);
      var n := ThenCompletes(t, before, last, k);
      ChainParted(t, first, calls[..|calls| - 1], lengths[..|calls| - 1], n);
      assert PartedAt(t, first.base, calls, RoundsOf(t, Chain(first, calls), k).value, n, k - n,
                      RoundsOf(t, before, n).value, RoundsOf(t, Program(before.base + n, last), k - n).value);
    }
  }
}
