/** Collective programs that do not stay aligned, among crashes and timeouts: a
    collective that one rank does not enter ends well at no rank. */
module Stranding {
  import opened Wrappers
  import opened Collectives
  import opened ProcessGroup
  import opened CollectiveSafety
  import opened CollectivePrograms
  import opened Lockstep
  import opened Resuming

  /** A rank takes its next step, or its group fails: a crash, a timeout, a lost connection. */
  datatype Event = Moves(rank: nat) | Crashes(rank: nat)

  function Suffer(c: Config, prog: Program, s: State, e: Event): (t: State)
    requires Sized(c, s)
    ensures Sized(c, t)
  {
    match e
    case Moves(r) => Driven(c, prog, s, r)
    case Crashes(r) => Step(c, s, Fail(r))
  }

  function Suffered(c: Config, prog: Program, s: State, events: seq<Event>): (t: State)
    requires Sized(c, s)
    ensures Sized(c, t)
  {
    if events == [] then s
    else Suffer(c, prog, Suffered(c, prog, s, events[..|events| - 1]), events[|events| - 1])
  }

  // ---- ranks call what their program asks for ----

  /** The `d`-th collective since `m0` is what the program asked for after `d` results. */
  predicate CallFollows(prog: Program, m0: Rank, m: Rank, r: nat, d: nat)
    requires m0.results <= m.results && |m0.calls| + d < |m.calls|
  {
    |m0.results| + d <= |m.results| &&
    var t := prog.turn(r, m.results[|m0.results|..|m0.results| + d]);
    t.Ask? && m.calls[|m0.calls| + d] == RequestOf(t, prog.base + d)
  }

  predicate FollowsAt(prog: Program, m0: Rank, m: Rank, r: nat)
  {
    && m0.results <= m.results && m0.calls <= m.calls
    && forall d: nat | |m0.calls| + d < |m.calls| :: CallFollows(prog, m0, m, r, d)
  }

  predicate Follows(prog: Program, s0: State, s: State)
  {
    |s| == |s0| && forall r | 0 <= r < |s| :: FollowsAt(prog, s0[r], s[r], r)
  }

  /** No collective was entered, and at most one returned. */
  predicate NoCall(m: Rank, b: Rank)
  {
    b.calls == m.calls && m.results <= b.results
  }

  lemma HandledNoCall(c: Config, m: Rank, f: Frame)
    requires Shaped(c, m) && Awaited(c, m).Some? && Awaited(c, m).value < c.world
    ensures NoCall(m, Handled(c, m, f))
  {
  }

  lemma MovedNoCall(c: Config, s: State, r: nat, a: Action)
    requires Sized(c, s) && r < c.world && !a.Call?
    ensures NoCall(s[r], Moved(c, s, r, a))
  {
    var p := Awaited(c, s[r]);
    if a.Take? && !s[r].failed && p.Some? && p.value < c.world && s[r].taken[p.value] < |s[p.value].out[r]| {
      var m := s[r].(taken := s[r].taken[p.value := s[r].taken[p.value] + 1]);
      HandledNoCall(c, m, s[p.value].out[r][s[r].taken[p.value]]);
    }
  }

  lemma NoCallFollows(prog: Program, m0: Rank, m: Rank, b: Rank, r: nat)
    requires FollowsAt(prog, m0, m, r) && NoCall(m, b)
    ensures FollowsAt(prog, m0, b, r)
  {
    forall d: nat | |m0.calls| + d < |b.calls|
      ensures CallFollows(prog, m0, b, r, d)
    {
      assert CallFollows(prog, m0, m, r, d);
      var n := |m0.results| + d;
      assert b.results[|m0.results|..n] == m.results[|m0.results|..n];
    }
  }

  /** What the rank was given since `m0`. */
  function Given(m0: Rank, m: Rank): seq<Response>
    requires |m0.results| <= |m.results|
  {
    m.results[|m0.results|..]
  }

  lemma CalledFollows(c: Config, prog: Program, m0: Rank, m: Rank, r: nat)
    requires 0 < c.world && Shaped(c, m) && FollowsAt(prog, m0, m, r) && |m.calls| == |m.results| == m.sequence
    requires |m0.calls| == |m0.results| == prog.base && prog.turn(r, Given(m0, m)).Ask?
    ensures var t := prog.turn(r, Given(m0, m));
      FollowsAt(prog, m0, Called(c, m, r, t.operation, t.tensors, t.bytes), r)
  {
    var t := prog.turn(r, Given(m0, m));
    var b := Called(c, m, r, t.operation, t.tensors, t.bytes);
    assert b.calls == m.calls + [RequestOf(t, m.sequence)] && b.results == m.results;
    forall d: nat | |m0.calls| + d < |b.calls|
      ensures CallFollows(prog, m0, b, r, d)
    {
      if |m0.calls| + d < |m.calls| {
        assert CallFollows(prog, m0, m, r, d);
      } else {
        assert m.results[|m0.results|..|m0.results| + d] == Given(m0, m);
      }
    }
  }

  lemma MoveFollows(c: Config, prog: Program, s0: State, s: State, r: nat)
    requires 0 < c.world && Sized(c, s) && r < c.world == |s0| && Local(c, s[r]) && FollowsAt(prog, s0[r], s[r], r)
    requires |s0[r].calls| == |s0[r].results| == prog.base
    ensures FollowsAt(prog, s0[r], Driven(c, Resumed(prog, s0), s, r)[r], r)
  {
    var a := Move(Resumed(prog, s0), r, s[r], c.world);
    if a.Some? {
      if a.value.Call? {
        assert Resumed(prog, s0).turn(r, s[r].results) == prog.turn(r, Given(s0[r], s[r]));
        CalledFollows(c, prog, s0[r], s[r], r);
      } else if Actor(a.value) == r {
        MovedNoCall(c, s, r, a.value);
        NoCallFollows(prog, s0[r], s[r], Moved(c, s, r, a.value), r);
      }
    }
  }

  lemma DrivenOther(c: Config, prog: Program, s: State, r: nat, i: nat)
    requires Sized(c, s) && r < c.world && i < c.world && i != r
    ensures NoCall(s[i], Driven(c, prog, s, r)[i])
  {
    var a := Move(prog, r, s[r], c.world);
    if a.Some? && Actor(a.value) == i {
      MovedNoCall(c, s, i, a.value);
    }
  }

  lemma SufferFollows(c: Config, prog: Program, s0: State, s: State, e: Event)
    requires 0 < c.world && Sized(c, s) && Consistent(c, s) && Follows(prog, s0, s)
    requires forall r | 0 <= r < |s0| :: |s0[r].calls| == |s0[r].results| == prog.base
    ensures Follows(prog, s0, Suffer(c, Resumed(prog, s0), s, e))
  {
    var t := Suffer(c, Resumed(prog, s0), s, e);
    forall i | 0 <= i < |t|
      ensures FollowsAt(prog, s0[i], t[i], i)
    {
      if e.Moves? && e.rank == i {
        MoveFollows(c, prog, s0, s, i);
      } else {
        if e.Moves? && e.rank < c.world {
          DrivenOther(c, Resumed(prog, s0), s, e.rank, i);
        }
        NoCallFollows(prog, s0[i], s[i], t[i], i);
      }
    }
  }

  lemma SufferIsStep(c: Config, prog: Program, s: State, e: Event) returns (a: Option<Action>)
    requires Sized(c, s)
    ensures Suffer(c, prog, s, e) == if a.None? then s else Step(c, s, a.value)
  {
    if e.Crashes? {
      return Some(Fail(e.rank));
    }
    return if e.rank < c.world then Move(prog, e.rank, s[e.rank], c.world) else None;
  }

  lemma RunMore(c: Config, s: State, actions: seq<Action>, a: Action)
    requires Sized(c, s)
    ensures Run(c, s, actions + [a]) == Step(c, Run(c, s, actions), a)
  {
    assert (actions + [a])[..|actions + [a]| - 1] == actions;
  }

  lemma {:induction false} SufferedIsRun(c: Config, prog: Program, s: State, events: seq<Event>)
    returns (actions: seq<Action>)
    requires Sized(c, s)
    ensures Suffered(c, prog, s, events) == Run(c, s, actions)
  {
    actions := [];
    if events != [] {
      actions := SufferedIsRun(c, prog, s, events[..|events| - 1]);
      var a := SufferIsStep(c, prog, Suffered(c, prog, s, events[..|events| - 1]), events[|events| - 1]);
      if a.Some? {
        RunMore(c, s, actions, a.value);
        actions := actions + [a.value];
      }
    }
  }

  lemma SettledCounters(c: Config, s0: State, base: nat, r: nat)
    requires Settled(c, s0, base) && Consistent(c, s0) && r < c.world
    ensures |s0[r].calls| == |s0[r].results| == base
  {
    assert Local(c, s0[r]);
  }

  lemma {:induction false} SufferedFollows(c: Config, prog: Program, s0: State, events: seq<Event>)
    requires 0 < c.world && Settled(c, s0, prog.base) && Consistent(c, s0)
    ensures Consistent(c, Suffered(c, Resumed(prog, s0), s0, events))
    ensures Follows(prog, s0, Suffered(c, Resumed(prog, s0), s0, events))
  {
    forall r | 0 <= r < |s0|
      ensures |s0[r].calls| == |s0[r].results| == prog.base
    {
      SettledCounters(c, s0, prog.base, r);
    }
    var actions := SufferedIsRun(c, Resumed(prog, s0), s0, events);
    RunConsistent(c, s0, actions);
    if events != [] {
      SufferedFollows(c, prog, s0, events[..|events| - 1]);
      SufferFollows(c, prog, s0, Suffered(c, Resumed(prog, s0), s0, events[..|events| - 1]), events[|events| - 1]);
    }
  }

  // ---- what ranks are given is what lockstep execution gives ----

  /** `s` came of `s0` by ranks that follow the program, which began in `s0`. */
  ghost predicate Traced(c: Config, prog: Program, s0: State, s: State)
  {
    && 0 < c.world == |s0| == |s| && Consistent(c, s) && Follows(prog, s0, s)
    && forall i | 0 <= i < c.world :: |s0[i].results| == |s0[i].calls| == prog.base
  }

  ghost predicate GivenRound(c: Config, prog: Program, s0: State, s: State, d: nat, r: nat)
    requires 0 < c.world == |s0| == |s| && r < c.world && |s0[r].results| + d <= |s[r].results|
  {
    Rounds(c, prog, d).Some? && Rounds(c, prog, d).value[r] == s[r].results[|s0[r].results|..|s0[r].results| + d]
  }

  ghost predicate GivenIfReached(c: Config, prog: Program, s0: State, s: State, d: nat, r: nat)
    requires 0 < c.world == |s0| == |s| && r < c.world
  {
    |s0[r].results| + d <= |s[r].results| ==> GivenRound(c, prog, s0, s, d, r)
  }

  /** Collective `base + d` returned at `r`, so every rank entered it as its program asked. */
  lemma EveryRankAsked(c: Config, prog: Program, s0: State, s: State, d: nat, r: nat, i: nat)
    requires Traced(c, prog, s0, s) && r < c.world && i < c.world && prog.base + d < |s[r].results|
    ensures prog.base + d <= |s[i].results| && Entered(s, prog.base + d) && prog.base + d < U64_MAX
    ensures s0[i].results <= s[i].results && CallFollows(prog, s0[i], s[i], i, d)
    ensures var answer := Evaluated(Requests(s, prog.base + d), c.limit, c.arithmetic);
      answer.Some? && answer.value[r] == s[r].results[prog.base + d]
  {
    assert Local(c, s[r]) && Cross(c, s, r, s[r]);
    assert Justified(c, s, r, s[r].results[prog.base + d]);
    assert FollowsAt(prog, s0[i], s[i], i);
  }

  /** Rank `i` entered collective `base + d` as lockstep execution has it. */
  predicate AskedAsTold(c: Config, prog: Program, d: nat, i: nat, request: Request)
    requires 0 < c.world
  {
    i < c.world && Rounds(c, prog, d).Some? &&
    var t := prog.turn(i, Rounds(c, prog, d).value[i]);
    t.Ask? && request == RequestOf(t, prog.base + d)
  }

  lemma AskedInRound(c: Config, prog: Program, s0: State, s: State, d: nat, r: nat, i: nat)
    requires Traced(c, prog, s0, s) && r < c.world && i < c.world && prog.base + d < |s[r].results|
    requires GivenIfReached(c, prog, s0, s, d, i)
    ensures Entered(s, prog.base + d) && AskedAsTold(c, prog, d, i, Requests(s, prog.base + d)[i])
  {
    EveryRankAsked(c, prog, s0, s, d, r, i);
  }

  lemma RequestsAsked(c: Config, prog: Program, d: nat, requests: seq<Request>)
    requires 0 < c.world == |requests|
    requires forall i | 0 <= i < c.world :: AskedAsTold(c, prog, d, i, requests[i])
    ensures Asking(c, prog, d) && Asked(c, prog, Rounds(c, prog, d).value, d) == requests
  {
    assert AskedAsTold(c, prog, d, 0, requests[0]);
    var history := Rounds(c, prog, d).value;
    forall i | 0 <= i < c.world
      ensures prog.turn(i, history[i]).Ask? && requests[i] == RequestOf(prog.turn(i, history[i]), prog.base + d)
    {
      assert AskedAsTold(c, prog, d, i, requests[i]);
    }
    SameRequests(c, prog, d, history, requests);
  }

  lemma SameRequests(c: Config, prog: Program, d: nat, history: History, requests: seq<Request>)
    requires |requests| == |history| == c.world && AllAsk(prog, history)
    requires forall i | 0 <= i < c.world :: requests[i] == RequestOf(prog.turn(i, history[i]), prog.base + d)
    ensures Asked(c, prog, history, d) == requests
  {
  }

  lemma SliceNext<T>(results: seq<T>, n: nat, d: nat)
    requires n + d < |results|
    ensures results[n..n + (d + 1)] == results[n..n + d] + [results[n + d]]
  {
  }

  lemma ResultAppended(c: Config, prog: Program, d: nat, r: nat, answer: seq<Response>, a: seq<Response>,
                       b: seq<Response>)
    requires 0 < c.world == |answer| && r < c.world && Rounds(c, prog, d).Some?
    requires Rounds(c, prog, d + 1) == Some(Extended(Rounds(c, prog, d).value, answer))
    requires Rounds(c, prog, d).value[r] == a && b == a + [answer[r]]
    ensures Rounds(c, prog, d + 1).value[r] == b
  {
  }

  lemma RoundAnswered(c: Config, prog: Program, d: nat, requests: seq<Request>, answer: seq<Response>)
    requires 0 < c.world == |requests| == |answer| && prog.base + d < U64_MAX
    requires forall i | 0 <= i < c.world :: AskedAsTold(c, prog, d, i, requests[i])
    requires Evaluated(requests, c.limit, c.arithmetic) == Some(answer)
    ensures Rounds(c, prog, d).Some? && Rounds(c, prog, d + 1) == Some(Extended(Rounds(c, prog, d).value, answer))
  {
    RequestsAsked(c, prog, d, requests);
    RoundIs(c, prog, d);
  }

  lemma EntriesFound(c: Config, prog: Program, s0: State, s: State, d: nat, r: nat)
    returns (requests: seq<Request>, answer: seq<Response>)
    requires Traced(c, prog, s0, s) && r < c.world && prog.base + d < |s[r].results|
    requires forall i | 0 <= i < c.world :: GivenIfReached(c, prog, s0, s, d, i)
    ensures |requests| == |answer| == c.world && prog.base + d < U64_MAX
    ensures forall i | 0 <= i < c.world :: AskedAsTold(c, prog, d, i, requests[i])
    ensures Evaluated(requests, c.limit, c.arithmetic) == Some(answer) && answer[r] == s[r].results[prog.base + d]
  {
    EveryRankAsked(c, prog, s0, s, d, r, r);
    requests := Requests(s, prog.base + d);
    answer := Evaluated(requests, c.limit, c.arithmetic).value;
    forall i | 0 <= i < c.world
      ensures AskedAsTold(c, prog, d, i, requests[i])
    {
      assert GivenIfReached(c, prog, s0, s, d, i);
      AskedInRound(c, prog, s0, s, d, r, i);
    }
  }

  lemma AnswerFound(c: Config, prog: Program, s0: State, s: State, d: nat, r: nat) returns (answer: seq<Response>)
    requires Traced(c, prog, s0, s) && r < c.world && prog.base + d < |s[r].results|
    requires forall i | 0 <= i < c.world :: GivenIfReached(c, prog, s0, s, d, i)
    ensures |answer| == c.world && answer[r] == s[r].results[prog.base + d]
    ensures Rounds(c, prog, d).Some? && Rounds(c, prog, d + 1) == Some(Extended(Rounds(c, prog, d).value, answer))
  {
    var requests;
    requests, answer := EntriesFound(c, prog, s0, s, d, r);
    RoundAnswered(c, prog, d, requests, answer);
  }

  lemma RoundFromResults(c: Config, prog: Program, s0: State, s: State, d: nat, r: nat)
    requires Traced(c, prog, s0, s) && r < c.world && prog.base + d < |s[r].results|
    requires forall i | 0 <= i < c.world :: GivenIfReached(c, prog, s0, s, d, i)
    ensures GivenRound(c, prog, s0, s, d + 1, r)
  {
    var answer := AnswerFound(c, prog, s0, s, d, r);
    assert GivenIfReached(c, prog, s0, s, d, r);
    GivenMore(c, prog, d, r, answer, s[r].results);
  }

  lemma GivenMore(c: Config, prog: Program, d: nat, r: nat, answer: seq<Response>, results: seq<Response>)
    requires 0 < c.world == |answer| && r < c.world && prog.base + d < |results| && answer[r] == results[prog.base + d]
    requires Rounds(c, prog, d).Some? && Rounds(c, prog, d + 1) == Some(Extended(Rounds(c, prog, d).value, answer))
    requires Rounds(c, prog, d).value[r] == results[prog.base..prog.base + d]
    ensures Rounds(c, prog, d + 1).value[r] == results[prog.base..prog.base + (d + 1)]
  {
    SliceNext(results, prog.base, d);
    ResultAppended(c, prog, d, r, answer, results[prog.base..prog.base + d],
                   results[prog.base..prog.base + (d + 1)]);
  }

  lemma {:induction false} GivenRounds(c: Config, prog: Program, s0: State, s: State, d: nat, r: nat)
    requires Traced(c, prog, s0, s) && r < c.world
    ensures GivenIfReached(c, prog, s0, s, d, r)
    decreases d
  {
    if d > 0 {
      var before: nat := d - 1;
      forall i | 0 <= i < c.world
        ensures GivenIfReached(c, prog, s0, s, before, i)
      {
        GivenRounds(c, prog, s0, s, before, i);
      }
      if prog.base + d <= |s[r].results| {
        RoundFromResults(c, prog, s0, s, before, r);
      }
    }
  }

  // ---- a collective that one rank does not enter ----

  /** The rank returned Ok: it is idle, its group has not failed, and its program asks for nothing more. */
  predicate ReturnedOk(prog: Program, r: nat, m: Rank)
  {
    !m.failed && Returned(prog, r, m)
  }

  lemma NoneReturns(c: Config, prog: Program, s0: State, s: State, k: nat, r: nat, q: nat)
    requires Traced(c, prog, s0, s) && r < c.world && q < c.world
    requires Rounds(c, prog, k).Some? && !prog.turn(r, Rounds(c, prog, k).value[r]).Ask?
    ensures |s[q].results| <= prog.base + k
  {
    if |s[q].results| > prog.base + k {
      GivenRounds(c, prog, s0, s, k + 1, q);
      PreviousRound(c, prog, k + 1);
    }
  }

  lemma WantingEarlier(c: Config, prog: Program, d: nat, k: nat, q: nat)
    requires 0 < c.world && q < c.world && d <= k && Rounds(c, prog, k).Some?
    requires prog.turn(q, Rounds(c, prog, k).value[q]).Ask?
    ensures Rounds(c, prog, d).Some? && prog.turn(q, Rounds(c, prog, d).value[q]).Ask?
  {
    if d < k {
      EarlierRounds(c, prog, d, k);
    }
  }

  lemma StillWanting(c: Config, prog: Program, s0: State, s: State, k: nat, q: nat)
    requires Traced(c, prog, s0, s) && q < c.world && |s[q].results| <= prog.base + k
    requires Rounds(c, prog, k).Some? && prog.turn(q, Rounds(c, prog, k).value[q]).Ask?
    ensures !ReturnedOk(Resumed(prog, s0), q, s[q])
  {
    assert FollowsAt(prog, s0[q], s[q], q);
    var d := |s[q].results| - prog.base;
    GivenRounds(c, prog, s0, s, d, q);
    assert s[q].results[prog.base..prog.base + d] == Given(s0[q], s[q]);
    WantingEarlier(c, prog, d, k, q);
  }

  /** Where lockstep execution has one rank stop and another go on, no run, with whatever crashes and
      timeouts, gives any rank the collective that the one does not enter: those that go on return no Ok. */
  lemma LeftBehind(c: Config, prog: Program, s0: State, events: seq<Event>, k: nat, r: nat, q: nat)
    requires 0 < c.world && r < c.world && q < c.world && Settled(c, s0, prog.base) && Consistent(c, s0)
    requires Rounds(c, prog, k).Some? && !prog.turn(r, Rounds(c, prog, k).value[r]).Ask?
    ensures var s := Suffered(c, Resumed(prog, s0), s0, events);
      |s[q].results| <= prog.base + k &&
      (prog.turn(q, Rounds(c, prog, k).value[q]).Ask? ==> !ReturnedOk(Resumed(prog, s0), q, s[q]))
  {
    forall i | 0 <= i < c.world
      ensures |s0[i].results| == |s0[i].calls| == prog.base
    {
      SettledCounters(c, s0, prog.base, i);
    }
    SufferedFollows(c, prog, s0, events);
    var s := Suffered(c, Resumed(prog, s0), s0, events);
    NoneReturns(c, prog, s0, s, k, r, q);
    if prog.turn(q, Rounds(c, prog, k).value[q]).Ask? {
      StillWanting(c, prog, s0, s, k, q);
    }
  }
}
