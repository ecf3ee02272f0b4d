/** Groups that were used before: a collective program that begins in any settled
    state runs as it would on an unused group, and leaves a settled state. */
module Resuming {
  import opened Wrappers
  import opened Collectives
  import opened ProcessGroup
  import opened CollectivePrograms
  import opened Lockstep

  /** Between operations: no rank is in one, none has failed, all have completed the
      same number of collectives, and every frame sent was read. */
  ghost predicate Settled(c: Config, s: State, base: nat)
  {
    && Sized(c, s) && base <= U64_MAX
    && (forall r | 0 <= r < c.world :: s[r].phase.Idle? && !s[r].failed && s[r].sequence == base)
    && Drained(c, s)
  }

  ghost predicate Drained(c: Config, s: State)
    requires Sized(c, s)
  {
    forall p, q | 0 <= p < c.world && 0 <= q < c.world :: s[q].taken[p] == |s[p].out[q]|
  }

  lemma StartSettled(c: Config)
    ensures Settled(c, Start(c), 0)
  {
  }

  /** The program as a group with a past runs it: earlier results are not its own. */
  function Resumed(prog: Program, s0: State): Program
  {
    Program(prog.base, (r: nat, results: seq<Response>) =>
      if r < |s0| && |s0[r].results| <= |results| then prog.turn(r, results[|s0[r].results|..]) else Quit(true))
  }

  // ---- putting a run on top of a past ----

  /** The record of a rank with past `m0` that has since done what `m` records. */
  function Atop(c: Config, m0: Rank, m: Rank): (t: Rank)
    requires Shaped(c, m0) && Shaped(c, m)
    ensures Shaped(c, t)
  {
    Rank(m.phase, m.failed, m.sequence, m0.sends, m0.receives, m0.calls + m.calls, m0.results + m.results,
         m0.points, m0.got,
         seq(c.world, q requires 0 <= q < c.world => m0.out[q] + m.out[q]),
         seq(c.world, q requires 0 <= q < c.world => m0.taken[q] + m.taken[q]))
  }

  ghost function AllAtop(c: Config, s0: State, t: State): (s: State)
    requires Sized(c, s0) && Sized(c, t)
    ensures Sized(c, s)
  {
    seq(c.world, r requires 0 <= r < c.world => Atop(c, s0[r], t[r]))
  }

  lemma AtopFresh(c: Config, m0: Rank, base: nat)
    requires Shaped(c, m0) && m0.phase.Idle? && !m0.failed && m0.sequence == base
    ensures Atop(c, m0, Fresh(c, base)) == m0
  {
    var t := Atop(c, m0, Fresh(c, base));
    forall q | 0 <= q < c.world
      ensures t.out[q] == m0.out[q] && t.taken[q] == m0.taken[q]
    {
      assert m0.out[q] + [] == m0.out[q];
    }
    assert t.out == m0.out && t.taken == m0.taken;
    assert t.calls == m0.calls && t.results == m0.results;
  }

  lemma AtopStart(c: Config, s0: State, base: nat)
    requires Settled(c, s0, base)
    ensures AllAtop(c, s0, StartAt(c, base)) == s0
  {
    forall r | 0 <= r < c.world
      ensures AllAtop(c, s0, StartAt(c, base))[r] == s0[r]
    {
      AtopFresh(c, s0[r], base);
    }
  }

  lemma AtopAborted(c: Config, m0: Rank, m: Rank)
    requires Shaped(c, m0) && Shaped(c, m)
    ensures Aborted(Atop(c, m0, m)) == Atop(c, m0, Aborted(m))
  {
  }

  lemma AtopWrite(c: Config, m0: Rank, m: Rank, peer: nat, frame: Frame)
    requires Shaped(c, m0) && Shaped(c, m) && peer < c.world
    ensures Write(Atop(c, m0, m), peer, frame) == Atop(c, m0, Write(m, peer, frame))
  {
    var a, b := Write(Atop(c, m0, m), peer, frame), Atop(c, m0, Write(m, peer, frame));
    assert (m0.out[peer] + m.out[peer]) + [frame] == m0.out[peer] + (m.out[peer] + [frame]);
    assert a.out == b.out;
  }

  lemma AtopConclude(c: Config, m0: Rank, m: Rank, response: Response)
    requires Shaped(c, m0) && Shaped(c, m)
    ensures Conclude(c, Atop(c, m0, m), response) == Atop(c, m0, Conclude(c, m, response))
  {
    assert (m0.results + m.results) + [response] == m0.results + (m.results + [response]);
  }

  lemma AtopCalled(c: Config, m0: Rank, m: Rank, r: nat, operation: Operation, tensors: Option<seq<Payload>>,
                   bytes: seq<Byte>)
    requires Shaped(c, m0) && Shaped(c, m) && 0 < c.world
    ensures Called(c, Atop(c, m0, m), r, operation, tensors, bytes) ==
      Atop(c, m0, Called(c, m, r, operation, tensors, bytes))
  {
    var request := Request(m.sequence, operation, tensors.None?, if tensors.Some? then tensors.value else [], bytes);
    var entered := m.(calls := m.calls + [request]);
    assert (m0.calls + m.calls) + [request] == m0.calls + entered.calls;
    if r != 0 {
      AtopWrite(c, m0, entered.(phase := AwaitingResponse), 0, RequestFrame(request));
    }
  }

  lemma AtopReplied(c: Config, m0: Rank, m: Rank)
    requires Shaped(c, m0) && Shaped(c, m)
    ensures Replied(c, Atop(c, m0, m)) == Atop(c, m0, Replied(c, m))
  {
    if m.phase.Replying? && |m.phase.responses| == c.world && c.world != 0 {
      if m.phase.next < c.world {
        var k := m.phase.next;
        AtopWrite(c, m0, m.(phase := Replying(m.phase.responses, k + 1)), k, ResponseFrame(m.phase.responses[k]));
      } else {
        AtopConclude(c, m0, m, m.phase.responses[0]);
      }
    }
  }

  /** The rank is not in a point-to-point operation. */
  predicate Collective(m: Rank)
  {
    !m.phase.AwaitingAck? && !m.phase.Receiving?
  }

  lemma AtopHandled(c: Config, m0: Rank, m: Rank, f: Frame)
    requires Shaped(c, m0) && Shaped(c, m) && Collective(m) && Awaited(c, m).Some? && Awaited(c, m).value < c.world
    ensures Handled(c, Atop(c, m0, m), f) == Atop(c, m0, Handled(c, m, f))
  {
    if m.phase.AwaitingResponse? && f.ResponseFrame? {
      AtopConclude(c, m0, m, f.response);
    }
  }

  lemma AtopReads(c: Config, m0: Rank, m: Rank, p: nat)
    requires Shaped(c, m0) && Shaped(c, m) && p < c.world
    ensures var a := Atop(c, m0, m);
      a.(taken := a.taken[p := a.taken[p] + 1]) == Atop(c, m0, m.(taken := m.taken[p := m.taken[p] + 1]))
  {
    var a := Atop(c, m0, m);
    assert a.taken[p := a.taken[p] + 1] == Atop(c, m0, m.(taken := m.taken[p := m.taken[p] + 1])).taken;
  }

  lemma AtopTaken(c: Config, s0: State, t: State, r: nat)
    requires Sized(c, s0) && Sized(c, t) && r < c.world && Drained(c, s0) && Collective(t[r])
    ensures Taken(c, AllAtop(c, s0, t), r) == Atop(c, s0[r], Taken(c, t, r))
  {
    var peer := Awaited(c, t[r]);
    assert Awaited(c, AllAtop(c, s0, t)[r]) == peer;
    if peer.Some? && peer.value < c.world {
      var p := peer.value;
      assert s0[r].taken[p] == |s0[p].out[r]|;
      if t[r].taken[p] < |t[p].out[r]| {
        AtopReads(c, s0[r], t[r], p);
        AtopHandled(c, s0[r], t[r].(taken := t[r].taken[p := t[r].taken[p] + 1]), t[p].out[r][t[r].taken[p]]);
      }
    }
  }

  lemma AtopMoved(c: Config, s0: State, t: State, r: nat, a: Action)
    requires Sized(c, s0) && Sized(c, t) && r < c.world && Drained(c, s0) && Collective(t[r]) && !a.Send? && !a.Recv?
    ensures Moved(c, AllAtop(c, s0, t), r, a) == Atop(c, s0[r], Moved(c, t, r, a))
  {
    var m0, m := s0[r], t[r];
    if !m.failed {
      match a
      case Fail(_) => AtopAborted(c, m0, m);
      case Take(_) => AtopTaken(c, s0, t, r);
      case Reply => AtopReplied(c, m0, m);
      case Call(_, operation, tensors, bytes) => AtopCalled(c, m0, m, r, operation, tensors, bytes);
      case _ =>
    }
  }

  lemma AtopStep(c: Config, s0: State, t: State, a: Action)
    requires Sized(c, s0) && Sized(c, t) && Drained(c, s0) && !a.Send? && !a.Recv?
    requires Actor(a) < c.world ==> Collective(t[Actor(a)])
    ensures Step(c, AllAtop(c, s0, t), a) == AllAtop(c, s0, Step(c, t, a))
  {
    if Actor(a) < c.world {
      AtopMoved(c, s0, t, Actor(a), a);
    }
  }

  lemma ActorIsRank(c: Config, prog: Program, r: nat, m: Rank)
    requires r < c.world && PhaseFits(c, r, m) && Move(prog, r, m, c.world).Some?
    ensures var a := Move(prog, r, m, c.world).value; Actor(a) == r && !a.Send? && !a.Recv?
  {
  }

  lemma AtopDriven(c: Config, prog: Program, s0: State, t: State, r: nat)
    requires 0 < c.world && Sized(c, s0) && Sized(c, t) && Drained(c, s0) && AllTracked(c, prog, t)
    ensures Driven(c, Resumed(prog, s0), AllAtop(c, s0, t), r) == AllAtop(c, s0, Driven(c, prog, t, r))
  {
    if r < c.world {
      var m := AllAtop(c, s0, t)[r];
      assert m.results[|s0[r].results|..] == t[r].results;
      assert Move(Resumed(prog, s0), r, m, c.world) == Move(prog, r, t[r], c.world);
      var a := Move(prog, r, t[r], c.world);
      TrackedFits(c, prog, r, t[r]);
      if a.Some? {
        ActorIsRank(c, prog, r, t[r]);
        AtopStep(c, s0, t, a.value);
      }
    }
  }

  /** A run from a settled state is a run of an unused group on top of the past. */
  lemma {:induction false} DriveAtop(c: Config, prog: Program, s0: State, schedule: seq<nat>)
    requires 0 < c.world && Aligned(c, prog) && Settled(c, s0, prog.base)
    ensures Drive(c, Resumed(prog, s0), s0, schedule) == AllAtop(c, s0, Drive(c, prog, StartAt(c, prog.base), schedule))
  {
    StartTracked(c, prog);
    if schedule == [] {
      AtopStart(c, s0, prog.base);
    } else {
      var front := schedule[..|schedule| - 1];
      DriveAtop(c, prog, s0, front);
      DriveTracked(c, prog, StartAt(c, prog.base), front);
      AtopDriven(c, prog, s0, Drive(c, prog, StartAt(c, prog.base), front), schedule[|schedule| - 1]);
    }
  }

  lemma AtopReturned(c: Config, prog: Program, s0: State, t: State, r: nat)
    requires Sized(c, s0) && Sized(c, t) && r < c.world
    ensures Returned(Resumed(prog, s0), r, AllAtop(c, s0, t)[r]) <==> Returned(prog, r, t[r])
  {
    assert AllAtop(c, s0, t)[r].results[|s0[r].results|..] == t[r].results;
  }

  lemma AtopEnabled(c: Config, prog: Program, s0: State, t: State, r: nat)
    requires 0 < c.world && Sized(c, s0) && Sized(c, t) && Drained(c, s0)
    ensures Enabled(c, Resumed(prog, s0), AllAtop(c, s0, t), r) <==> Enabled(c, prog, t, r)
  {
    if r < c.world {
      var m := AllAtop(c, s0, t)[r];
      assert m.results[|s0[r].results|..] == t[r].results;
      assert Awaited(c, m) == Awaited(c, t[r]);
      if Awaited(c, m).Some? && Awaited(c, m).value < c.world {
        assert s0[r].taken[Awaited(c, m).value] == |s0[Awaited(c, m).value].out[r]|;
      }
    }
  }

  lemma {:induction false} AtopProductive(c: Config, prog: Program, s0: State, schedule: seq<nat>)
    requires 0 < c.world && Aligned(c, prog) && Settled(c, s0, prog.base)
    requires Productive(c, Resumed(prog, s0), s0, schedule)
    ensures Productive(c, prog, StartAt(c, prog.base), schedule)
  {
    if schedule != [] {
      var front := schedule[..|schedule| - 1];
      AtopProductive(c, prog, s0, front);
      DriveAtop(c, prog, s0, front);
      AtopEnabled(c, prog, s0, Drive(c, prog, StartAt(c, prog.base), front), schedule[|schedule| - 1]);
    }
  }

  // ---- streams collectives do not use ----

  /** Only the streams between a worker and the coordinator carry frames. */
  predicate Quiet(c: Config, r: nat, m: Rank)
    requires Shaped(c, m)
  {
    forall q | 0 <= q < c.world && (q == r || (q != 0 && r != 0)) :: m.out[q] == [] && m.taken[q] == 0
  }

  ghost predicate AllQuiet(c: Config, s: State)
    requires Sized(c, s)
  {
    forall r | 0 <= r < c.world :: Quiet(c, r, s[r])
  }

  lemma TakenQuiet(c: Config, s: State, r: nat)
    requires Sized(c, s) && r < c.world && Quiet(c, r, s[r]) && PhaseFits(c, r, s[r])
    ensures Quiet(c, r, Taken(c, s, r))
  {
  }

  lemma MovedQuiet(c: Config, s: State, r: nat, a: Action)
    requires Sized(c, s) && r < c.world && Quiet(c, r, s[r]) && PhaseFits(c, r, s[r])
    requires !a.Send? && !a.Recv?
    ensures Quiet(c, r, Moved(c, s, r, a))
  {
    if a.Take? {
      TakenQuiet(c, s, r);
    }
  }

  lemma DrivenQuiet(c: Config, prog: Program, s: State, r: nat)
    requires 0 < c.world && Sized(c, s) && AllTracked(c, prog, s) && AllQuiet(c, s)
    ensures AllQuiet(c, Driven(c, prog, s, r))
  {
    if r < c.world {
      var a := Move(prog, r, s[r], c.world);
      TrackedFits(c, prog, r, s[r]);
      if a.Some? {
        ActorIsRank(c, prog, r, s[r]);
        MovedQuiet(c, s, r, a.value);
      }
    }
  }

  lemma {:induction false} DriveQuiet(c: Config, prog: Program, schedule: seq<nat>)
    requires 0 < c.world && Aligned(c, prog) && prog.base <= U64_MAX
    ensures Sized(c, StartAt(c, prog.base)) && AllQuiet(c, Drive(c, prog, StartAt(c, prog.base), schedule))
  {
    StartTracked(c, prog);
    if schedule != [] {
      DriveQuiet(c, prog, schedule[..|schedule| - 1]);
      DriveTracked(c, prog, StartAt(c, prog.base), schedule[..|schedule| - 1]);
      DrivenQuiet(c, prog, Drive(c, prog, StartAt(c, prog.base), schedule[..|schedule| - 1]), schedule[|schedule| - 1]);
    }
  }

  // ---- a program that succeeds leaves a settled state ----

  /** Every rank's program has returned Ok. */
  ghost predicate AllDone(c: Config, prog: Program, t: State)
  {
    |t| == c.world && forall r | 0 <= r < c.world :: !t[r].failed && Returned(prog, r, t[r])
  }

  lemma SameLength(c: Config, prog: Program, t: State, r: nat)
    requires 0 < c.world && r < c.world && Aligned(c, prog) && AllTracked(c, prog, t) && AllDone(c, prog, t)
    ensures |t[r].results| == |t[0].results| == |t[r].calls| && t[r].sequence == prog.base + |t[0].results| <= U64_MAX
  {
    EndTogether(c, prog, t, r, 0);
    assert Tracked(c, prog, r, t[r]);
  }

  lemma DrainedPair(c: Config, prog: Program, t: State, p: nat, q: nat)
    requires 0 < c.world && p < c.world && q < c.world && Sized(c, t)
    requires Aligned(c, prog) && AllTracked(c, prog, t) && AllDone(c, prog, t) && AllQuiet(c, t)
    ensures t[q].taken[p] == |t[p].out[q]|
  {
    SameLength(c, prog, t, p);
    SameLength(c, prog, t, q);
    assert Tracked(c, prog, p, t[p]) && Tracked(c, prog, q, t[q]) && Quiet(c, p, t[p]) && Quiet(c, q, t[q]);
    if p == 0 && q > 0 {
      assert |t[0].out[q]| == WrittenTo(t[0], q);
    } else if q == 0 && p > 0 {
      assert t[0].taken[p] == ReadFrom(t[0], p);
    }
  }

  lemma AtopDrained(c: Config, s0: State, t: State)
    requires Sized(c, s0) && Sized(c, t) && Drained(c, s0) && Drained(c, t)
    ensures Drained(c, AllAtop(c, s0, t))
  {
    var s := AllAtop(c, s0, t);
    forall p, q | 0 <= p < c.world && 0 <= q < c.world
      ensures s[q].taken[p] == |s[p].out[q]|
    {
      assert s0[q].taken[p] == |s0[p].out[q]| && t[q].taken[p] == |t[p].out[q]|;
    }
  }

  /** After all ranks returned Ok the group is settled again, at a later sequence number. */
  lemma SettledAgain(c: Config, prog: Program, s0: State, schedule: seq<nat>)
    requires 0 < c.world && Aligned(c, prog) && Settled(c, s0, prog.base)
    requires AllDone(c, Resumed(prog, s0), Drive(c, Resumed(prog, s0), s0, schedule))
    ensures Sized(c, StartAt(c, prog.base))
    ensures var t := Drive(c, prog, StartAt(c, prog.base), schedule);
      AllDone(c, prog, t) && Settled(c, Drive(c, Resumed(prog, s0), s0, schedule), prog.base + |t[0].results|)
  {
    StartTracked(c, prog);
    var t := Drive(c, prog, StartAt(c, prog.base), schedule);
    DriveAtop(c, prog, s0, schedule);
    DriveTracked(c, prog, StartAt(c, prog.base), schedule);
    DriveQuiet(c, prog, schedule);
    forall r | 0 <= r < c.world
      ensures !t[r].failed && Returned(prog, r, t[r])
    {
      AtopReturned(c, prog, s0, t, r);
      assert AllAtop(c, s0, t)[r].failed == t[r].failed;
    }
    forall r | 0 <= r < c.world
      ensures t[r].sequence == prog.base + |t[0].results| <= U64_MAX
    {
      SameLength(c, prog, t, r);
    }
    forall p, q | 0 <= p < c.world && 0 <= q < c.world
      ensures t[q].taken[p] == |t[p].out[q]|
    {
      DrainedPair(c, prog, t, p, q);
    }
    AtopDrained(c, s0, t);
  }

  // ---- every run from a settled state ends ----

  /** Every rank has returned from the last call it makes. */
  ghost predicate AllReturned(c: Config, prog: Program, s: State)
  {
    |s| == c.world && forall r | 0 <= r < c.world :: Returned(prog, r, s[r])
  }

  lemma ReturnedAtop(c: Config, prog: Program, s0: State, t: State)
    requires Sized(c, s0) && Sized(c, t)
    ensures AllReturned(c, Resumed(prog, s0), AllAtop(c, s0, t)) <==> AllReturned(c, prog, t)
  {
    forall r | 0 <= r < c.world
      ensures Returned(Resumed(prog, s0), r, AllAtop(c, s0, t)[r]) <==> Returned(prog, r, t[r])
    {
      AtopReturned(c, prog, s0, t, r);
    }
  }

  /** No schedule keeps the ranks busy forever. */
  lemma RunEndsFrom(c: Config, prog: Program, s0: State, schedule: seq<nat>, n: nat)
    requires 0 < c.world && Aligned(c, prog) && Settled(c, s0, prog.base) && EndsBy(TableOf(c), prog, n)
    requires Productive(c, Resumed(prog, s0), s0, schedule)
    ensures |schedule| <= Times(c.world, MostSteps(c, n))
  {
    StartTracked(c, prog);
    AtopProductive(c, prog, s0, schedule);
    EveryRunEnds(c, prog, schedule, n);
  }

  /** Until all ranks have returned some rank can move. */
  lemma SomeRankMoves(c: Config, prog: Program, s0: State, schedule: seq<nat>)
    requires 0 < c.world && Aligned(c, prog) && Settled(c, s0, prog.base)
    ensures var s := Drive(c, Resumed(prog, s0), s0, schedule);
      AllReturned(c, Resumed(prog, s0), s) || exists r :: Enabled(c, Resumed(prog, s0), s, r)
  {
    StartTracked(c, prog);
    DriveAtop(c, prog, s0, schedule);
    DriveTracked(c, prog, StartAt(c, prog.base), schedule);
    var t := Drive(c, prog, StartAt(c, prog.base), schedule);
    if !AllReturned(c, Resumed(prog, s0), AllAtop(c, s0, t)) {
      ReturnedAtop(c, prog, s0, t);
      var r :| 0 <= r < c.world && !Returned(prog, r, t[r]);
      NoDeadlock(c, prog, t, r);
      var i :| Enabled(c, prog, t, i);
      AtopEnabled(c, prog, s0, t, i);
    }
  }
}
