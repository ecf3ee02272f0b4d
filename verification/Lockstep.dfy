/** Ranks that run collective programs without transport faults: every
    interleaving ends the way the programs' lockstep execution ends. */
module Lockstep {
  import opened Wrappers
  import opened Collectives
  import opened ProcessGroup
  import opened CollectivePrograms

  // ---- lockstep execution ----

  function RequestOf(t: Turn, k: nat): Request
    requires t.Ask?
  {
    Request(k, t.operation, t.tensors.None?, if t.tensors.Some? then t.tensors.value else [], t.bytes)
  }

  function RequestsOf(turns: seq<Turn>, k: nat): (r: seq<Request>)
    requires forall i | 0 <= i < |turns| :: turns[i].Ask?
    ensures |r| == |turns|
  {
    seq(|turns|, i requires 0 <= i < |turns| => RequestOf(turns[i], k))
  }

  /** A round as the coordinator answers it, while sequence numbers last. */
  function TableOf(c: Config): Table
    requires 0 < c.world
  {
    Table(c.world, (sequence: nat, turns: seq<Turn>) =>
      if sequence < U64_MAX && turns != [] && forall i | 0 <= i < |turns| :: turns[i].Ask?
      then Evaluated(RequestsOf(turns, sequence), c.limit, c.arithmetic)
      else None)
  }

  /** The requests of collective `k` in rank order. */
  function Asked(c: Config, prog: Program, history: History, k: nat): (r: seq<Request>)
    requires |history| == c.world && AllAsk(prog, history)
    ensures |r| == c.world
  {
    RequestsOf(Turns(prog, history), prog.base + k)
  }

  /** Each rank's results of the first `k` collectives, if all of them succeed. */
  function Rounds(c: Config, prog: Program, k: nat): (r: Option<History>)
    requires 0 < c.world
    ensures r.Some? ==> |r.value| == c.world && forall i | 0 <= i < c.world :: |r.value[i]| == k
  {
    RoundsOf(TableOf(c), prog, k)
  }

  ghost predicate Aligned(c: Config, prog: Program)
    requires 0 < c.world
  {
    AlwaysTogether(TableOf(c), prog)
  }

  predicate AlignedAt(c: Config, prog: Program, k: nat)
    requires 0 < c.world
  {
    TogetherAt(TableOf(c), prog, k)
  }

  predicate Asking(c: Config, prog: Program, k: nat)
    requires 0 < c.world
  {
    Rounds(c, prog, k).Some? && AllAsk(prog, Rounds(c, prog, k).value)
  }

  /** What collective `k` tells rank `i`. */
  function Told(c: Config, prog: Program, k: nat, i: nat): Response
    requires 0 < c.world && Asking(c, prog, k) && i < c.world
  {
    var answer := Evaluated(Asked(c, prog, Rounds(c, prog, k).value, k), c.limit, c.arithmetic);
    if answer.Some? then answer.value[i] else Response(prog.base + k, true, [], [])
  }

  lemma AnswerIs(c: Config, prog: Program, history: History, k: nat)
    requires 0 < c.world == |history| && AllAsk(prog, history)
    ensures TableOf(c).answer(prog.base + k, Turns(prog, history)) ==
      if prog.base + k < U64_MAX then Evaluated(Asked(c, prog, history, k), c.limit, c.arithmetic) else None
  {
    var turns := Turns(prog, history);
    assert turns != [] && forall i | 0 <= i < |turns| :: turns[i].Ask?;
  }

  /** The next round in terms of the coordinator's evaluation. */
  lemma RoundIs(c: Config, prog: Program, k: nat)
    requires 0 < c.world && Asking(c, prog, k)
    ensures var answer := Evaluated(Asked(c, prog, Rounds(c, prog, k).value, k), c.limit, c.arithmetic);
      Rounds(c, prog, k + 1) ==
      if answer.None? || prog.base + k >= U64_MAX then None else Some(Extended(Rounds(c, prog, k).value, answer.value))
  {
    AnswerIs(c, prog, Rounds(c, prog, k).value, k);
    NextRoundOf(TableOf(c), prog, k);
  }

  lemma PreviousRound(c: Config, prog: Program, k: nat)
    requires 0 < c.world && 0 < k && Rounds(c, prog, k).Some?
    ensures Asking(c, prog, k - 1) && prog.base + k <= U64_MAX
  {
    PreviousRoundOf(TableOf(c), prog, k);
    AnswerIs(c, prog, Rounds(c, prog, k - 1).value, k - 1);
  }

  lemma EarlierRounds(c: Config, prog: Program, j: nat, k: nat)
    requires 0 < c.world && j < k && Rounds(c, prog, k).Some?
    ensures Asking(c, prog, j) && prog.base + j < U64_MAX
  {
    EarlierRoundsOf(TableOf(c), prog, j, k, 0);
    EarlierRoundsOf(TableOf(c), prog, j + 1, k, 0);
    PreviousRound(c, prog, j + 1);
  }

  lemma EarlierResults(c: Config, prog: Program, j: nat, k: nat, i: nat)
    requires 0 < c.world && i < c.world && j <= k && Rounds(c, prog, k).Some?
    ensures Rounds(c, prog, j).Some? && Rounds(c, prog, j).value[i] == Rounds(c, prog, k).value[i][..j]
  {
    EarlierRoundsOf(TableOf(c), prog, j, k, i);
  }

  lemma NextRound(c: Config, prog: Program, k: nat, i: nat)
    requires 0 < c.world && i < c.world && Asking(c, prog, k)
    ensures Rounds(c, prog, k + 1).Some? <==> !Told(c, prog, k, i).failed && prog.base + k < U64_MAX
    ensures Rounds(c, prog, k + 1).Some? ==>
      Rounds(c, prog, k + 1).value[i] == Rounds(c, prog, k).value[i] + [Told(c, prog, k, i)]
    ensures Told(c, prog, k, i).sequence == prog.base + k
  {
    var requests := Asked(c, prog, Rounds(c, prog, k).value, k);
    var answer := Evaluated(requests, c.limit, c.arithmetic);
    RoundIs(c, prog, k);
    if answer.Some? {
      assert Entry(requests, c.limit, c.arithmetic, i).value == answer.value[i];
    }
  }

  /** Evaluated responses carry valid tensors, so no rank rejects one. */
  lemma ToldValid(c: Config, prog: Program, k: nat, i: nat, t: Payload)
    requires 0 < c.world && i < c.world && Asking(c, prog, k) && t in Told(c, prog, k, i).tensors
    ensures ValidPayload(t, c.limit)
  {
    var requests := Asked(c, prog, Rounds(c, prog, k).value, k);
    EntryValid(requests, c.limit, c.arithmetic, i, t);
  }

  lemma EntryValid(requests: seq<Request>, limit: nat, a: Arithmetic, i: nat, t: Payload)
    requires requests != [] && Evaluated(requests, limit, a).Some? && i < |requests|
    requires t in Evaluated(requests, limit, a).value[i].tensors
    ensures ValidPayload(t, limit)
  {
    forall j, k | 0 <= j < |requests| && 0 <= k < |requests[j].tensors|
      ensures ValidPayload(requests[j].tensors[k], limit)
    {
      assert Matches(requests[0], requests[j], limit);
    }
    var e := Entry(requests, limit, a, i).value;
    var x :| 0 <= x < |e.tensors| && e.tensors[x] == t;
  }

  // ---- driven runs ----

  /** An unused group, but for its sequence number. */
  function StartAt(c: Config, sequence: nat): State
  {
    seq(c.world, _ => Fresh(c, sequence))
  }

  /** The one step the rank's code takes next; a rank that has returned takes none. */
  function Move(prog: Program, r: nat, m: Rank, world: nat): Option<Action>
  {
    if m.failed then None
    else match m.phase
      case Idle =>
        (match prog.turn(r, m.results)
         case Ask(operation, tensors, bytes) => Some(Call(r, operation, tensors, bytes))
         case Quit(ok) => if ok then None else Some(Fail(r)))
      case Gathering(requests) => if |requests| < world then Some(Take(r)) else Some(Compute)
      case Replying(_, _) => Some(Reply)
      case _ => Some(Take(r))
  }

  /** The next step of `r`, which waits if its stream is empty. */
  function Driven(c: Config, prog: Program, s: State, r: nat): (t: State)
    requires Sized(c, s)
    ensures Sized(c, t)
  {
    if r >= c.world then s
    else
      var a := Move(prog, r, s[r], c.world);
      if a.None? then s else Step(c, s, a.value)
  }

  /** Any interleaving: `schedule` names the rank that moves at each moment. */
  function Drive(c: Config, prog: Program, s: State, schedule: seq<nat>): (t: State)
    requires Sized(c, s)
    ensures Sized(c, t)
  {
    if schedule == [] then s
    else Driven(c, prog, Drive(c, prog, s, schedule[..|schedule| - 1]), schedule[|schedule| - 1])
  }

  predicate Returned(prog: Program, r: nat, m: Rank)
  {
    m.failed || (m.phase.Idle? && prog.turn(r, m.results) == Quit(true))
  }

  // ---- what a rank's record holds in any driven run ----

  /** The rank ended because collective number `|results|` did. */
  predicate Refused(m: Rank)
  {
    m.failed && |m.calls| == |m.results| + 1
  }

  predicate OnTrack(c: Config, prog: Program, r: nat, m: Rank)
    requires 0 < c.world && r < c.world
  {
    && m.sequence == prog.base + |m.results| <= U64_MAX
    && Rounds(c, prog, |m.results|).Some? && Rounds(c, prog, |m.results|).value[r] == m.results
    && |m.results| <= |m.calls| <= |m.results| + 1
    && (|m.calls| == |m.results| + 1 ==> Asking(c, prog, |m.results|))
    && (m.failed ==> m.phase.Idle?)
    && (!m.failed ==> (|m.calls| == |m.results| + 1 <==> !m.phase.Idle?))
    && (Refused(m) ==> Rounds(c, prog, |m.results| + 1).None?)
    && (m.failed && !Refused(m) ==> prog.turn(r, m.results) == Quit(false))
  }

  predicate CallsOnTrack(c: Config, prog: Program, r: nat, m: Rank)
    requires 0 < c.world && r < c.world
  {
    forall k | 0 <= k < |m.calls| ::
      Asking(c, prog, k) && m.calls[k] == Asked(c, prog, Rounds(c, prog, k).value, k)[r]
  }

  /** A worker's streams to and from the coordinator. */
  predicate WorkerLinks(c: Config, m: Rank)
    requires Shaped(c, m) && 0 < c.world
  {
    && |m.out[0]| == |m.calls|
    && (forall k | 0 <= k < |m.calls| :: m.out[0][k] == RequestFrame(m.calls[k]))
    && m.taken[0] == |m.results| + (if Refused(m) then 1 else 0)
    && (m.phase.Idle? || m.phase.AwaitingResponse?)
  }

  function ReadFrom(m: Rank, i: nat): nat
  {
    |m.results| + if Refused(m) || m.phase.Replying? || (m.phase.Gathering? && i < |m.phase.requests|) then 1 else 0
  }

  function WrittenTo(m: Rank, i: nat): nat
  {
    |m.results| + if Refused(m) || (m.phase.Replying? && i < m.phase.next) then 1 else 0
  }

  predicate RepliedOnTrack(c: Config, prog: Program, i: nat, replies: seq<Frame>)
    requires 0 < c.world && i < c.world
  {
    forall k | 0 <= k < |replies| :: Asking(c, prog, k) && replies[k] == ResponseFrame(Told(c, prog, k, i))
  }

  /** How far the coordinator has read and answered each worker. */
  predicate StreamsOnTrack(c: Config, prog: Program, m: Rank)
    requires Shaped(c, m) && 0 < c.world
  {
    forall i | 0 < i < c.world ::
      m.taken[i] == ReadFrom(m, i) && |m.out[i]| == WrittenTo(m, i) && RepliedOnTrack(c, prog, i, m.out[i])
  }

  /** The collective the coordinator is serving. */
  predicate ServingOnTrack(c: Config, prog: Program, m: Rank)
    requires 0 < c.world
  {
    && (m.phase.Idle? || m.phase.Gathering? || m.phase.Replying?)
    && (m.phase.Gathering? ==>
          1 <= |m.phase.requests| <= c.world && Asking(c, prog, |m.results|) &&
          m.phase.requests == Asked(c, prog, Rounds(c, prog, |m.results|).value, |m.results|)[..|m.phase.requests|])
    && (m.phase.Replying? ==>
          1 <= m.phase.next <= c.world && |m.phase.responses| == c.world && Asking(c, prog, |m.results|) &&
          forall i | 0 <= i < c.world :: m.phase.responses[i] == Told(c, prog, |m.results|, i))
  }

  predicate CoordinatorLinks(c: Config, prog: Program, m: Rank)
    requires Shaped(c, m) && 0 < c.world
  {
    StreamsOnTrack(c, prog, m) && ServingOnTrack(c, prog, m)
  }

  predicate Tracked(c: Config, prog: Program, r: nat, m: Rank)
    requires 0 < c.world && r < c.world
  {
    && Shaped(c, m) && OnTrack(c, prog, r, m) && CallsOnTrack(c, prog, r, m)
    && (if r == 0 then CoordinatorLinks(c, prog, m) else WorkerLinks(c, m))
  }

  predicate AllTracked(c: Config, prog: Program, s: State)
    requires 0 < c.world
  {
    |s| == c.world && forall r | 0 <= r < c.world :: Tracked(c, prog, r, s[r])
  }

  // ---- every move keeps the record on track ----

  lemma AskersAgree(c: Config, prog: Program, r: nat, k: nat)
    requires 0 < c.world && r < c.world && Aligned(c, prog) && Rounds(c, prog, k).Some?
    ensures prog.turn(r, Rounds(c, prog, k).value[r]).Ask? <==> Asking(c, prog, k)
  {
    assert AlignedAt(c, prog, k);
  }

  lemma CallLinks(c: Config, m: Rank, r: nat, t: Turn)
    requires 0 < r < c.world && t.Ask? && Shaped(c, m) && !m.failed && m.phase.Idle? && WorkerLinks(c, m)
    requires |m.results| == |m.calls|
    ensures WorkerLinks(c, Called(c, m, r, t.operation, t.tensors, t.bytes))
  {
  }

  lemma CallOpens(c: Config, prog: Program, m: Rank)
    requires 0 < c.world && Shaped(c, m) && !m.failed && m.phase.Idle? && CoordinatorLinks(c, prog, m)
    requires m.sequence == prog.base + |m.results| && |m.results| == |m.calls| && Asking(c, prog, |m.results|)
    requires prog.turn(0, m.results).Ask? && Rounds(c, prog, |m.results|).value[0] == m.results
    ensures var t := prog.turn(0, m.results);
      CoordinatorLinks(c, prog, Called(c, m, 0, t.operation, t.tensors, t.bytes))
  {
    var t := prog.turn(0, m.results);
    var b := Called(c, m, 0, t.operation, t.tensors, t.bytes);
    var asked := Asked(c, prog, Rounds(c, prog, |m.results|).value, |m.results|);
    assert b.phase.requests == asked[..1];
    forall i | 0 < i < c.world
      ensures b.taken[i] == ReadFrom(b, i) && |b.out[i]| == WrittenTo(b, i) && RepliedOnTrack(c, prog, i, b.out[i])
    {
      assert m.taken[i] == ReadFrom(m, i);
    }
  }

  lemma CallRecorded(c: Config, prog: Program, r: nat, m: Rank, b: Rank)
    requires 0 < c.world && r < c.world && CallsOnTrack(c, prog, r, m) && |m.calls| == |m.results|
    requires Asking(c, prog, |m.results|) && Rounds(c, prog, |m.results|).value[r] == m.results
    requires m.sequence == prog.base + |m.results| && prog.turn(r, m.results).Ask?
    requires b.calls == m.calls + [RequestOf(prog.turn(r, m.results), m.sequence)]
    ensures CallsOnTrack(c, prog, r, b)
  {
    var k := |m.results|;
    assert Asked(c, prog, Rounds(c, prog, k).value, k)[r] == b.calls[k];
  }

  lemma CallOnTrack(c: Config, prog: Program, r: nat, m: Rank, b: Rank)
    requires 0 < c.world && r < c.world && OnTrack(c, prog, r, m) && CallsOnTrack(c, prog, r, m)
    requires !m.failed && m.phase.Idle? && Asking(c, prog, |m.results|)
    requires b.sequence == m.sequence && b.results == m.results && !b.failed && !b.phase.Idle?
    requires prog.turn(r, m.results).Ask? && b.calls == m.calls + [RequestOf(prog.turn(r, m.results), m.sequence)]
    ensures OnTrack(c, prog, r, b) && CallsOnTrack(c, prog, r, b)
  {
    CallRecorded(c, prog, r, m, b);
  }

  lemma CallTracked(c: Config, prog: Program, r: nat, m: Rank)
    requires 0 < c.world && r < c.world && Aligned(c, prog) && Tracked(c, prog, r, m)
    requires !m.failed && m.phase.Idle? && prog.turn(r, m.results).Ask?
    ensures var t := prog.turn(r, m.results);
      Tracked(c, prog, r, Called(c, m, r, t.operation, t.tensors, t.bytes))
  {
    var t := prog.turn(r, m.results);
    AskersAgree(c, prog, r, |m.results|);
    CallOnTrack(c, prog, r, m, Called(c, m, r, t.operation, t.tensors, t.bytes));
    if r == 0 {
      CallOpens(c, prog, m);
    } else {
      CallLinks(c, m, r, t);
    }
  }

  lemma QuitTracked(c: Config, prog: Program, r: nat, m: Rank)
    requires 0 < c.world && r < c.world && Tracked(c, prog, r, m)
    requires !m.failed && m.phase.Idle? && prog.turn(r, m.results) == Quit(false)
    ensures Tracked(c, prog, r, Aborted(m))
  {
  }

  /** What a rank records when collective `k` reaches it. */
  lemma ConcludeTracked(c: Config, prog: Program, r: nat, m: Rank)
    requires 0 < c.world && r < c.world && Shaped(c, m)
    requires OnTrack(c, prog, r, m) && CallsOnTrack(c, prog, r, m) && !m.failed && !m.phase.Idle?
    ensures var b := Conclude(c, m, Told(c, prog, |m.results|, r));
      OnTrack(c, prog, r, b) && CallsOnTrack(c, prog, r, b) && b.out == m.out && b.taken == m.taken &&
        b.calls == m.calls &&
      b.phase.Idle? && if Refused(b) then b.results == m.results else |b.results| == |m.results| + 1
  {
    var k := |m.results|;
    NextRound(c, prog, k, r);
    var told := Told(c, prog, k, r);
    forall t | t in told.tensors
      ensures ValidPayload(t, c.limit)
    {
      ToldValid(c, prog, k, r, t);
    }
  }

  lemma WorkerLinksAfter(c: Config, m: Rank, b: Rank)
    requires 0 < c.world && Shaped(c, m) && WorkerLinks(c, m) && m.phase.AwaitingResponse? && !m.failed
    requires Shaped(c, b) && b.out == m.out && b.calls == m.calls && b.phase.Idle?
    requires b.taken == m.taken[0 := m.taken[0] + 1]
    requires |b.results| == |m.results| + if Refused(b) then 0 else 1
    ensures WorkerLinks(c, b)
  {
  }

  lemma WorkerTakes(c: Config, prog: Program, m: Rank, r: nat, f: Frame)
    requires 0 < c.world && 0 < r < c.world && Tracked(c, prog, r, m)
    requires !m.failed && m.phase.AwaitingResponse?
    requires f == ResponseFrame(Told(c, prog, |m.results|, r))
    ensures Tracked(c, prog, r, Handled(c, m.(taken := m.taken[0 := m.taken[0] + 1]), f))
  {
    var a := m.(taken := m.taken[0 := m.taken[0] + 1]);
    ConcludeTracked(c, prog, r, a);
    WorkerLinksAfter(c, m, Conclude(c, a, f.response));
  }

  lemma ReplyRead(c: Config, prog: Program, m: Rank, r: nat, k: nat)
    requires 0 < r < c.world && Tracked(c, prog, 0, m) && k < |m.out[r]|
    ensures Asking(c, prog, k) && m.out[r][k] == ResponseFrame(Told(c, prog, k, r))
  {
    assert RepliedOnTrack(c, prog, r, m.out[r]);
  }

  lemma WorkerMoves(c: Config, prog: Program, s: State, r: nat)
    requires 0 < c.world && 0 < r < c.world && AllTracked(c, prog, s) && Sized(c, s)
    requires !s[r].failed && s[r].phase.AwaitingResponse?
    ensures Tracked(c, prog, r, Taken(c, s, r))
  {
    var m := s[r];
    var k := m.taken[0];
    assert Tracked(c, prog, r, m);
    if k < |s[0].out[r]| {
      ReplyRead(c, prog, s[0], r, k);
      WorkerTakes(c, prog, m, r, s[0].out[r][k]);
    }
  }

  /** A rank busy before and after keeps its record. */
  lemma BusyOnTrack(c: Config, prog: Program, r: nat, m: Rank, b: Rank)
    requires 0 < c.world && r < c.world && OnTrack(c, prog, r, m) && CallsOnTrack(c, prog, r, m)
    requires !m.failed && !b.failed && !m.phase.Idle? && !b.phase.Idle?
    requires b.sequence == m.sequence && b.results == m.results && b.calls == m.calls
    ensures OnTrack(c, prog, r, b) && CallsOnTrack(c, prog, r, b)
  {
  }

  lemma GatheredLink(m: Rank, b: Rank, j: nat)
    requires !m.failed && m.phase.Gathering? && j < |m.taken| && j < |m.out| && |m.phase.requests| < |m.taken|
    requires m.taken[j] == ReadFrom(m, j) && |m.out[j]| == WrittenTo(m, j) && b.out == m.out
    requires b.results == m.results && !b.failed && b.phase.Gathering? && |b.phase.requests| == |m.phase.requests| + 1
    requires b.taken == m.taken[|m.phase.requests| := m.taken[|m.phase.requests|] + 1]
    ensures b.taken[j] == ReadFrom(b, j) && |b.out[j]| == WrittenTo(b, j)
  {
  }

  lemma NextPrefix<T>(s: seq<T>, i: nat)
    requires i < |s|
    ensures s[..i] + [s[i]] == s[..i + 1]
  {
  }

  lemma GatheredMore(c: Config, prog: Program, m: Rank, b: Rank, asked: seq<Request>)
    requires 0 < c.world && m.phase.Gathering? && |m.phase.requests| < c.world == |asked| && ServingOnTrack(c, prog, m)
    requires Asking(c, prog, |m.results|) && asked == Asked(c, prog, Rounds(c, prog, |m.results|).value, |m.results|)
    requires b.results == m.results && b.phase == Gathering(m.phase.requests + [asked[|m.phase.requests|]])
    ensures ServingOnTrack(c, prog, b)
  {
    NextPrefix(asked, |m.phase.requests|);
  }

  lemma GatheredLinks(c: Config, prog: Program, m: Rank, b: Rank, asked: seq<Request>)
    requires 0 < c.world && Shaped(c, m) && CoordinatorLinks(c, prog, m)
    requires !m.failed && m.phase.Gathering? && |m.phase.requests| < c.world == |asked|
    requires Asking(c, prog, |m.results|) && asked == Asked(c, prog, Rounds(c, prog, |m.results|).value, |m.results|)
    requires var i := |m.phase.requests|;
      b == m.(taken := m.taken[i := m.taken[i] + 1], phase := Gathering(m.phase.requests + [asked[i]]))
    ensures CoordinatorLinks(c, prog, b)
  {
    GatheredMore(c, prog, m, b, asked);
    forall j | 0 < j < c.world
      ensures b.taken[j] == ReadFrom(b, j) && |b.out[j]| == WrittenTo(b, j) && RepliedOnTrack(c, prog, j, b.out[j])
    {
      GatheredLink(m, b, j);
    }
  }

  lemma CoordinatorTakes(c: Config, prog: Program, m: Rank, f: Frame)
    requires 0 < c.world && Tracked(c, prog, 0, m)
    requires !m.failed && m.phase.Gathering? && |m.phase.requests| < c.world
    requires f == RequestFrame(Asked(c, prog, Rounds(c, prog, |m.results|).value, |m.results|)[|m.phase.requests|])
    ensures var i := |m.phase.requests|; Tracked(c, prog, 0, Handled(c, m.(taken := m.taken[i := m.taken[i] + 1]), f))
  {
    var i := |m.phase.requests|;
    var b := Handled(c, m.(taken := m.taken[i := m.taken[i] + 1]), f);
    BusyOnTrack(c, prog, 0, m, b);
    GatheredLinks(c, prog, m, b, Asked(c, prog, Rounds(c, prog, |m.results|).value, |m.results|));
  }

  lemma CoordinatorMoves(c: Config, prog: Program, s: State)
    requires 0 < c.world && AllTracked(c, prog, s) && Sized(c, s)
    requires !s[0].failed && s[0].phase.Gathering? && |s[0].phase.requests| < c.world
    ensures Tracked(c, prog, 0, Taken(c, s, 0))
  {
    var m := s[0];
    var i, k := |m.phase.requests|, |m.results|;
    assert Tracked(c, prog, 0, m);
    assert m.taken[i] == ReadFrom(m, i) == k;
    if k < |s[i].out[0]| {
      assert Tracked(c, prog, i, s[i]);
      assert s[i].out[0][k] == RequestFrame(s[i].calls[k]);
      CoordinatorTakes(c, prog, m, s[i].out[0][k]);
    }
  }

  lemma ComputeTracked(c: Config, prog: Program, m: Rank)
    requires 0 < c.world && Tracked(c, prog, 0, m)
    requires !m.failed && m.phase.Gathering? && |m.phase.requests| == c.world
    ensures Tracked(c, prog, 0, Computed(c, m))
  {
    var k := |m.results|;
    var asked := Asked(c, prog, Rounds(c, prog, k).value, k);
    assert m.phase.requests == asked;
    var b := Computed(c, m);
    forall i | 0 <= i < c.world
      ensures b.phase.responses[i] == Told(c, prog, k, i)
    {
    }
    forall i | 0 < i < c.world
      ensures b.taken[i] == ReadFrom(b, i) && |b.out[i]| == WrittenTo(b, i) && RepliedOnTrack(c, prog, i, b.out[i])
    {
      assert m.taken[i] == ReadFrom(m, i);
    }
  }

  lemma OneMoreReply(c: Config, prog: Program, i: nat, replies: seq<Frame>)
    requires 0 < c.world && i < c.world && RepliedOnTrack(c, prog, i, replies) && Asking(c, prog, |replies|)
    ensures RepliedOnTrack(c, prog, i, replies + [ResponseFrame(Told(c, prog, |replies|, i))])
  {
  }

  lemma ReplyAppended(c: Config, prog: Program, m: Rank, b: Rank, i: nat)
    requires 0 < i < c.world && Shaped(c, m) && CoordinatorLinks(c, prog, m)
    requires !m.failed && m.phase.Replying? && m.phase.next < c.world
    requires b == Replied(c, m)
    ensures |b.out[i]| == WrittenTo(b, i) && RepliedOnTrack(c, prog, i, b.out[i])
  {
    var k := |m.results|;
    assert |m.out[i]| == WrittenTo(m, i) && RepliedOnTrack(c, prog, i, m.out[i]);
    if i == m.phase.next {
      OneMoreReply(c, prog, i, m.out[i]);
      assert b.out[i] == m.out[i] + [ResponseFrame(Told(c, prog, k, i))];
    } else {
      assert b.out[i] == m.out[i];
    }
  }

  lemma ReplyWrites(c: Config, prog: Program, m: Rank)
    requires 0 < c.world && Shaped(c, m) && CoordinatorLinks(c, prog, m)
    requires !m.failed && m.phase.Replying? && m.phase.next < c.world
    ensures CoordinatorLinks(c, prog, Replied(c, m))
  {
    var b := Replied(c, m);
    forall i | 0 < i < c.world
      ensures b.taken[i] == ReadFrom(b, i) && |b.out[i]| == WrittenTo(b, i) && RepliedOnTrack(c, prog, i, b.out[i])
    {
      assert m.taken[i] == ReadFrom(m, i);
      ReplyAppended(c, prog, m, b, i);
    }
  }

  lemma ReplyEnds(c: Config, prog: Program, m: Rank)
    requires 0 < c.world && Tracked(c, prog, 0, m) && !m.failed && m.phase.Replying? && m.phase.next == c.world
    ensures Tracked(c, prog, 0, Replied(c, m))
  {
    var b := Conclude(c, m, Told(c, prog, |m.results|, 0));
    ConcludeTracked(c, prog, 0, m);
    LinksClose(c, prog, m, b);
  }

  lemma LinksClose(c: Config, prog: Program, m: Rank, b: Rank)
    requires 0 < c.world && Shaped(c, m) && CoordinatorLinks(c, prog, m)
    requires !m.failed && m.phase.Replying? && m.phase.next == c.world
    requires Shaped(c, b) && b.out == m.out && b.taken == m.taken && b.phase.Idle?
    requires |b.results| == |m.results| + if Refused(b) then 0 else 1
    ensures CoordinatorLinks(c, prog, b)
  {
    forall i | 0 < i < c.world
      ensures b.taken[i] == ReadFrom(b, i) && |b.out[i]| == WrittenTo(b, i) && RepliedOnTrack(c, prog, i, b.out[i])
    {
      assert m.taken[i] == ReadFrom(m, i) && |m.out[i]| == WrittenTo(m, i);
    }
  }

  lemma ReplyTracked(c: Config, prog: Program, m: Rank)
    requires 0 < c.world && Tracked(c, prog, 0, m) && !m.failed && m.phase.Replying?
    ensures Tracked(c, prog, 0, Replied(c, m))
  {
    if m.phase.next < c.world {
      ReplyWrites(c, prog, m);
    } else {
      ReplyEnds(c, prog, m);
    }
  }

  lemma UpdateTracked(c: Config, prog: Program, s: State, r: nat, m: Rank)
    requires 0 < c.world && r < c.world && AllTracked(c, prog, s) && Tracked(c, prog, r, m)
    ensures AllTracked(c, prog, s[r := m])
  {
    var t := s[r := m];
    forall i | 0 <= i < c.world
      ensures Tracked(c, prog, i, t[i])
    {
      assert i != r ==> t[i] == s[i];
    }
  }

  lemma IdleMoves(c: Config, prog: Program, s: State, r: nat)
    requires 0 < c.world && r < c.world && Aligned(c, prog) && AllTracked(c, prog, s) && Sized(c, s)
    requires s[r].phase.Idle? && Move(prog, r, s[r], c.world).Some?
    ensures Tracked(c, prog, r, Moved(c, s, r, Move(prog, r, s[r], c.world).value))
  {
    var m := s[r];
    if prog.turn(r, m.results).Ask? {
      CallTracked(c, prog, r, m);
    } else {
      QuitTracked(c, prog, r, m);
    }
  }

  /** The record of a busy rank after its next step. */
  function Continued(c: Config, s: State, r: nat): Rank
    requires Sized(c, s) && r < c.world
  {
    var m := s[r];
    if m.phase.Replying? then Replied(c, m)
    else if m.phase.Gathering? && |m.phase.requests| >= c.world then Computed(c, m)
    else Taken(c, s, r)
  }

  lemma DrivenBusy(c: Config, prog: Program, s: State, r: nat)
    requires Sized(c, s) && r < c.world && !s[r].failed && !s[r].phase.Idle?
    requires r == 0 || s[r].phase.AwaitingResponse?
    ensures Driven(c, prog, s, r) == s[r := Continued(c, s, r)]
  {
  }

  lemma CoordinatorContinues(c: Config, prog: Program, s: State)
    requires 0 < c.world && AllTracked(c, prog, s) && Sized(c, s)
    requires !s[0].failed && !s[0].phase.Idle?
    ensures Tracked(c, prog, 0, Continued(c, s, 0))
  {
    var m := s[0];
    assert Tracked(c, prog, 0, m);
    if m.phase.Replying? {
      ReplyTracked(c, prog, m);
    } else if |m.phase.requests| < c.world {
      CoordinatorMoves(c, prog, s);
    } else {
      ComputeTracked(c, prog, m);
    }
  }

  lemma BusyMoves(c: Config, prog: Program, s: State, r: nat)
    requires 0 < c.world && r < c.world && AllTracked(c, prog, s) && Sized(c, s)
    requires !s[r].failed && !s[r].phase.Idle?
    ensures Tracked(c, prog, r, Continued(c, s, r)) && (r > 0 ==> s[r].phase.AwaitingResponse?)
  {
    assert Tracked(c, prog, r, s[r]);
    if r > 0 {
      assert WorkerLinks(c, s[r]);
      WorkerMoves(c, prog, s, r);
    } else {
      CoordinatorContinues(c, prog, s);
    }
  }

  lemma MoveTracked(c: Config, prog: Program, s: State, r: nat)
    requires 0 < c.world && r < c.world && Aligned(c, prog) && AllTracked(c, prog, s) && Sized(c, s)
    ensures AllTracked(c, prog, Driven(c, prog, s, r))
  {
    if s[r].failed || Move(prog, r, s[r], c.world).None? {
    } else if s[r].phase.Idle? {
      IdleMoves(c, prog, s, r);
      UpdateTracked(c, prog, s, r, Moved(c, s, r, Move(prog, r, s[r], c.world).value));
    } else {
      BusyMoves(c, prog, s, r);
      DrivenBusy(c, prog, s, r);
      UpdateTracked(c, prog, s, r, Continued(c, s, r));
    }
  }

  lemma StartTracked(c: Config, prog: Program)
    requires 0 < c.world && prog.base <= U64_MAX
    ensures Sized(c, StartAt(c, prog.base)) && AllTracked(c, prog, StartAt(c, prog.base))
  {
    forall r | 0 <= r < c.world
      ensures Tracked(c, prog, r, StartAt(c, prog.base)[r])
    {
    }
  }

  lemma {:induction false} DriveTracked(c: Config, prog: Program, s: State, schedule: seq<nat>)
    requires 0 < c.world && Aligned(c, prog) && AllTracked(c, prog, s) && Sized(c, s)
    ensures AllTracked(c, prog, Drive(c, prog, s, schedule))
  {
    if schedule != [] {
      DriveTracked(c, prog, s, schedule[..|schedule| - 1]);
      var before, r := Drive(c, prog, s, schedule[..|schedule| - 1]), schedule[|schedule| - 1];
      if r < c.world {
        MoveTracked(c, prog, before, r);
      }
    }
  }

  // ---- all-or-nothing ----

  /** Before a later round every rank asks, and its collective completes. */
  lemma AskedBefore(c: Config, prog: Program, r: nat, own: nat, k: nat)
    requires 0 < c.world && r < c.world && Rounds(c, prog, k).Some?
    ensures own < k ==>
      Rounds(c, prog, own).Some? && prog.turn(r, Rounds(c, prog, own).value[r]).Ask? && Rounds(c, prog, own + 1).Some?
  {
    if own < k {
      EarlierRounds(c, prog, own, k);
      if own + 1 < k {
        EarlierRounds(c, prog, own + 1, k);
      }
    }
  }

  lemma StoppedHere(c: Config, prog: Program, r: nat, m: Rank, k: nat)
    requires 0 < c.world && r < c.world && Tracked(c, prog, r, m) && Returned(prog, r, m)
    requires Rounds(c, prog, k).Some?
    ensures k <= |m.results|
  {
    AskedBefore(c, prog, r, |m.results|, k);
  }

  /** When every rank has returned, every rank holds its results of the same
      number of collectives, and either all succeeded or all their groups failed. */
  lemma EndTogether(c: Config, prog: Program, s: State, i: nat, j: nat)
    requires 0 < c.world && Aligned(c, prog) && AllTracked(c, prog, s) && i < c.world && j < c.world
    requires Returned(prog, i, s[i]) && Returned(prog, j, s[j])
    ensures |s[i].results| == |s[j].results|
    ensures Rounds(c, prog, |s[i].results|).Some? && Rounds(c, prog, |s[i].results|).value[i] == s[i].results
    ensures s[i].failed <==> s[j].failed
  {
    assert Tracked(c, prog, i, s[i]) && Tracked(c, prog, j, s[j]);
    StoppedHere(c, prog, i, s[i], |s[j].results|);
    StoppedHere(c, prog, j, s[j], |s[i].results|);
    AskersAgree(c, prog, i, |s[i].results|);
    AskersAgree(c, prog, j, |s[i].results|);
    assert AlignedAt(c, prog, |s[i].results|);
  }

  // ---- no deadlock ----

  /** The rank has a step to take and does not wait for a frame. */
  predicate Enabled(c: Config, prog: Program, s: State, r: nat)
    requires Sized(c, s)
  {
    r < c.world && Move(prog, r, s[r], c.world).Some? &&
    (Move(prog, r, s[r], c.world).value.Take? ==>
       var p := Awaited(c, s[r]);
       p.Some? && p.value < c.world && s[r].taken[p.value] < |s[p.value].out[r]|)
  }

  lemma IdleEnabled(c: Config, prog: Program, s: State, r: nat)
    requires Sized(c, s) && r < c.world && s[r].phase.Idle? && !Returned(prog, r, s[r])
    ensures Enabled(c, prog, s, r)
  {
  }

  /** A worker waiting for the response to collective `k` gets it once the coordinator is done with `k`. */
  lemma ReplyArrives(c: Config, prog: Program, s: State, r: nat)
    requires 0 < c.world && 0 < r < c.world && AllTracked(c, prog, s) && Sized(c, s)
    requires !s[r].failed && s[r].phase.AwaitingResponse? && |s[r].results| < |s[0].results|
    ensures Enabled(c, prog, s, r)
  {
    assert Tracked(c, prog, 0, s[0]) && Tracked(c, prog, r, s[r]);
    assert |s[0].out[r]| == WrittenTo(s[0], r);
  }

  lemma WorkerUnblocked(c: Config, prog: Program, s: State, r: nat)
    requires 0 < c.world && 0 < r < c.world && Aligned(c, prog) && AllTracked(c, prog, s) && Sized(c, s)
    requires !Returned(prog, r, s[r]) && Returned(prog, 0, s[0])
    ensures Enabled(c, prog, s, r)
  {
    assert Tracked(c, prog, 0, s[0]) && Tracked(c, prog, r, s[r]);
    if s[r].phase.Idle? {
      IdleEnabled(c, prog, s, r);
    } else {
      var k := |s[r].results|;
      StoppedHere(c, prog, 0, s[0], k);
      if k < |s[0].results| {
        ReplyArrives(c, prog, s, r);
      } else {
        AskersAgree(c, prog, 0, k);
        assert Refused(s[0]);
        assert |s[0].out[r]| == WrittenTo(s[0], r);
      }
    }
  }

  /** A rank that has not entered a collective the others are in cannot have returned. */
  lemma NotReturnedYet(c: Config, prog: Program, r: nat, m: Rank, k: nat)
    requires 0 < c.world && r < c.world && Aligned(c, prog) && Tracked(c, prog, r, m)
    requires Asking(c, prog, k) && |m.calls| <= k
    ensures !Returned(prog, r, m)
  {
    AskersAgree(c, prog, r, k);
    if Returned(prog, r, m) {
      StoppedHere(c, prog, r, m, k);
    }
  }

  /** The rank whose request the coordinator waits for either has sent it or can move. */
  lemma GatherUnblocked(c: Config, prog: Program, s: State, i: nat)
    requires 0 < c.world && Aligned(c, prog) && AllTracked(c, prog, s) && Sized(c, s)
    requires !s[0].failed && s[0].phase.Gathering? && |s[0].phase.requests| == i < c.world
    ensures Enabled(c, prog, s, 0) || Enabled(c, prog, s, i)
  {
    assert Tracked(c, prog, 0, s[0]) && Tracked(c, prog, i, s[i]);
    var k := |s[0].results|;
    assert s[0].taken[i] == ReadFrom(s[0], i) == k;
    if |s[i].calls| > k {
      assert s[0].taken[i] < |s[i].out[0]|;
    } else {
      NotReturnedYet(c, prog, i, s[i], k);
      if s[i].phase.Idle? {
        IdleEnabled(c, prog, s, i);
      } else {
        ReplyArrives(c, prog, s, i);
      }
    }
  }

  /** Fault-free ranks never wait for each other forever. */
  lemma NoDeadlock(c: Config, prog: Program, s: State, r: nat)
    requires 0 < c.world && r < c.world && Aligned(c, prog) && AllTracked(c, prog, s) && Sized(c, s)
    requires !Returned(prog, r, s[r])
    ensures exists i :: Enabled(c, prog, s, i)
  {
    assert Tracked(c, prog, 0, s[0]);
    if Returned(prog, 0, s[0]) {
      WorkerUnblocked(c, prog, s, r);
    } else if s[0].phase.Idle? {
      IdleEnabled(c, prog, s, 0);
    } else if s[0].phase.Gathering? && |s[0].phase.requests| < c.world {
      GatherUnblocked(c, prog, s, |s[0].phase.requests|);
    } else {
      assert Enabled(c, prog, s, 0);
    }
  }

  // ---- every run ends ----

  /** `w` added up `n` times. */
  function Times(n: nat, w: nat): nat
  {
    if n == 0 then 0 else Times(n - 1, w) + w
  }

  lemma {:induction false} TimesGrows(a: nat, b: nat, w: nat)
    requires a <= b
    ensures Times(a, w) <= Times(b, w)
  {
    if a < b {
      TimesGrows(a, b - 1, w);
    }
  }

  /** The weight of one collective: more than the steps any rank spends in it. */
  function Round(c: Config): nat
  {
    c.world + c.world + 3
  }

  function PhaseSteps(c: Config, m: Rank): nat
  {
    if m.failed then Round(c)
    else match m.phase
      case Gathering(requests) => 1 + |requests|
      case Replying(_, next) => c.world + 1 + next
      case AwaitingResponse => 1
      case _ => 0
  }

  function Steps(c: Config, m: Rank): nat
  {
    Times(|m.results|, Round(c)) + PhaseSteps(c, m)
  }

  function MostSteps(c: Config, n: nat): nat
  {
    Times(n + 1, Round(c))
  }

  lemma FewerRounds(c: Config, prog: Program, r: nat, m: Rank, n: nat)
    requires 0 < c.world && r < c.world && Tracked(c, prog, r, m) && EndsBy(TableOf(c), prog, n)
    ensures |m.results| <= n
  {
    NotPast(TableOf(c), prog, n, |m.results|);
  }

  /** The phases each role goes through. */
  predicate PhaseFits(c: Config, r: nat, m: Rank)
  {
    && Shaped(c, m) && 0 < c.world
    && match m.phase
       case Idle => true
       case Gathering(requests) => r == 0 && 1 <= |requests| <= c.world
       case Replying(responses, next) => r == 0 && 1 <= next <= c.world && |responses| == c.world
       case AwaitingResponse => r > 0
       case _ => false
  }

  lemma TrackedFits(c: Config, prog: Program, r: nat, m: Rank)
    requires 0 < c.world && r < c.world && Tracked(c, prog, r, m)
    ensures PhaseFits(c, r, m)
  {
  }

  lemma StepsBounded(c: Config, prog: Program, r: nat, m: Rank, n: nat)
    requires 0 < c.world && r < c.world && Tracked(c, prog, r, m) && EndsBy(TableOf(c), prog, n)
    ensures Steps(c, m) <= MostSteps(c, n)
  {
    FewerRounds(c, prog, r, m, n);
    TrackedFits(c, prog, r, m);
    TimesGrows(|m.results|, n, Round(c));
  }

  /** A step a rank does take brings it closer to its bound. */
  lemma ConcludeAdvances(c: Config, m: Rank, response: Response)
    requires Shaped(c, m) && !m.failed && PhaseSteps(c, m) < Round(c)
    ensures Steps(c, m) < Steps(c, Conclude(c, m, response))
  {
  }

  lemma HandledAdvances(c: Config, m: Rank, r: nat, f: Frame)
    requires PhaseFits(c, r, m) && !m.failed
    requires m.phase.AwaitingResponse? || (m.phase.Gathering? && |m.phase.requests| < c.world)
    ensures var p := Awaited(c, m).value;
      Steps(c, m) < Steps(c, Handled(c, m.(taken := m.taken[p := m.taken[p] + 1]), f))
  {
    var p := Awaited(c, m).value;
    var a := m.(taken := m.taken[p := m.taken[p] + 1]);
    if m.phase.AwaitingResponse? && f.ResponseFrame? {
      ConcludeAdvances(c, a, f.response);
    }
  }

  lemma TakenAdvances(c: Config, prog: Program, s: State, r: nat)
    requires Sized(c, s) && Enabled(c, prog, s, r) && PhaseFits(c, r, s[r])
    requires Move(prog, r, s[r], c.world) == Some(Take(r))
    ensures Steps(c, s[r]) < Steps(c, Taken(c, s, r))
  {
    var m := s[r];
    var p := Awaited(c, m).value;
    HandledAdvances(c, m, r, s[p].out[r][m.taken[p]]);
  }

  lemma OwnStepAdvances(c: Config, s: State, r: nat, a: Action)
    requires Sized(c, s) && r < c.world && PhaseFits(c, r, s[r]) && !s[r].failed
    requires (s[r].phase.Idle? && (a.Call? || a.Fail?)) || (a.Reply? && s[r].phase.Replying?) ||
             (a.Compute? && s[r].phase.Gathering? && |s[r].phase.requests| == c.world)
    ensures Steps(c, s[r]) < Steps(c, Moved(c, s, r, a))
  {
    var m := s[r];
    if a.Reply? && m.phase.next == c.world {
      ConcludeAdvances(c, m, m.phase.responses[0]);
    }
  }

  lemma MovedAdvances(c: Config, prog: Program, s: State, r: nat)
    requires Sized(c, s) && Enabled(c, prog, s, r) && PhaseFits(c, r, s[r])
    ensures Steps(c, s[r]) < Steps(c, Moved(c, s, r, Move(prog, r, s[r], c.world).value))
  {
    var a := Move(prog, r, s[r], c.world).value;
    if a.Take? {
      TakenAdvances(c, prog, s, r);
    } else {
      OwnStepAdvances(c, s, r, a);
    }
  }

  function TotalSteps(c: Config, s: State, n: nat): nat
    requires n <= |s|
  {
    if n == 0 then 0 else TotalSteps(c, s, n - 1) + Steps(c, s[n - 1])
  }

  lemma {:induction false} TotalAdvances(c: Config, s: State, r: nat, m: Rank, n: nat)
    requires n <= |s| && r < |s| && Steps(c, s[r]) < Steps(c, m)
    ensures TotalSteps(c, s, n) + (if r < n then 1 else 0) <= TotalSteps(c, s[r := m], n)
  {
    if n > 0 {
      TotalAdvances(c, s, r, m, n - 1);
    }
  }

  lemma {:induction false} TotalBounded(c: Config, s: State, n: nat, i: nat)
    requires forall r | 0 <= r < |s| :: Steps(c, s[r]) <= MostSteps(c, n)
    requires i <= |s|
    ensures TotalSteps(c, s, i) <= Times(i, MostSteps(c, n))
  {
    if i > 0 {
      TotalBounded(c, s, n, i - 1);
    }
  }

  /** Every scheduled rank can move when its turn comes. */
  ghost predicate Productive(c: Config, prog: Program, s: State, schedule: seq<nat>)
    requires Sized(c, s)
  {
    schedule == [] ||
    (Productive(c, prog, s, schedule[..|schedule| - 1]) &&
     Enabled(c, prog, Drive(c, prog, s, schedule[..|schedule| - 1]), schedule[|schedule| - 1]))
  }

  lemma DrivenIsMoved(c: Config, prog: Program, s: State, r: nat)
    requires Sized(c, s) && Enabled(c, prog, s, r) && PhaseFits(c, r, s[r])
    ensures Driven(c, prog, s, r) == s[r := Moved(c, s, r, Move(prog, r, s[r], c.world).value)]
  {
  }

  lemma DrivenAdvances(c: Config, prog: Program, s: State, r: nat)
    requires 0 < c.world && AllTracked(c, prog, s) && Sized(c, s) && Enabled(c, prog, s, r)
    ensures TotalSteps(c, s, c.world) + 1 <= TotalSteps(c, Driven(c, prog, s, r), c.world)
  {
    TrackedFits(c, prog, r, s[r]);
    MovedAdvances(c, prog, s, r);
    DrivenIsMoved(c, prog, s, r);
    TotalAdvances(c, s, r, Moved(c, s, r, Move(prog, r, s[r], c.world).value), c.world);
  }

  lemma {:induction false} ScheduleAdvances(c: Config, prog: Program, s: State, schedule: seq<nat>)
    requires 0 < c.world && Aligned(c, prog) && AllTracked(c, prog, s) && Sized(c, s)
    requires Productive(c, prog, s, schedule)
    ensures |schedule| <= TotalSteps(c, Drive(c, prog, s, schedule), c.world)
  {
    if schedule != [] {
      ScheduleAdvances(c, prog, s, schedule[..|schedule| - 1]);
      DriveTracked(c, prog, s, schedule[..|schedule| - 1]);
      DrivenAdvances(c, prog, Drive(c, prog, s, schedule[..|schedule| - 1]), schedule[|schedule| - 1]);
    }
  }

  /** When the programs cannot complete collective `n`, no schedule keeps the ranks busy forever. */
  lemma EveryRunEnds(c: Config, prog: Program, schedule: seq<nat>, n: nat)
    requires 0 < c.world && prog.base <= U64_MAX && Aligned(c, prog) && EndsBy(TableOf(c), prog, n)
    requires Sized(c, StartAt(c, prog.base)) && Productive(c, prog, StartAt(c, prog.base), schedule)
    ensures |schedule| <= Times(c.world, MostSteps(c, n))
  {
    StartTracked(c, prog);
    DriveTracked(c, prog, StartAt(c, prog.base), schedule);
    ScheduleAdvances(c, prog, StartAt(c, prog.base), schedule);
    var s := Drive(c, prog, StartAt(c, prog.base), schedule);
    forall r | 0 <= r < |s|
      ensures Steps(c, s[r]) <= MostSteps(c, n)
    {
      StepsBounded(c, prog, r, s[r], n);
    }
    TotalBounded(c, s, n, c.world);
  }

  /** A driven run is a run of the protocol, so everything proved of those holds here. */
  lemma {:induction false} DriveIsRun(c: Config, prog: Program, s: State,
                                      schedule: seq<nat>)
    returns (actions: seq<Action>)
    requires Sized(c, s)
    ensures Drive(c, prog, s, schedule) == Run(c, s, actions)
  {
    actions := [];
    if schedule != [] {
      actions := DriveIsRun(c, prog, s, schedule[..|schedule| - 1]);
      var before, r := Drive(c, prog, s, schedule[..|schedule| - 1]), schedule[|schedule| - 1];
      if r < c.world && Move(prog, r, before[r], c.world).Some? {
        var a := Move(prog, r, before[r], c.world).value;
        assert (actions + [a])[..|actions|] == actions;
        actions := actions + [a];
      }
    }
  }
}
