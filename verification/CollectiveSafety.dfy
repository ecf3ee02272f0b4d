/** What every run of the process-group protocol keeps. */
module CollectiveSafety {
  import opened Wrappers
  import opened Collectives
  import opened ProcessGroup

  // ---- facts about one rank ----

  predicate InCall(phase: Phase)
  {
    phase.Gathering? || phase.Replying? || phase.AwaitingResponse?
  }

  /** One collective at most is open, and its number is `sequence`. */
  predicate CallCounters(m: Rank)
  {
    && m.sequence == |m.results| <= |m.calls| <= |m.results| + 1 && m.sequence <= U64_MAX
    && (m.failed ==> m.phase.Idle?)
    && (!m.failed ==> (|m.calls| == |m.results| + 1 <==> InCall(m.phase)))
  }

  predicate Numbered(m: Rank)
  {
    && (forall k | 0 <= k < |m.calls| :: m.calls[k].sequence == k)
    && (forall k | 0 <= k < |m.results| :: m.results[k].sequence == k && !m.results[k].failed)
  }

  predicate PairCounters(m: Rank, d: nat)
    requires d < |m.sends| == |m.receives| == |m.points| == |m.got|
  {
    && m.receives[d] == |m.got[d]| <= U64_MAX
    && m.sends[d] <= |m.points[d]| <= m.sends[d] + 1 && m.sends[d] <= U64_MAX
    && (!m.failed ==> (|m.points[d]| == m.sends[d] + 1 <==> m.phase.AwaitingAck? && m.phase.peer == d))
  }

  predicate PointCounters(c: Config, m: Rank)
    requires Shaped(c, m)
  {
    && (forall d | 0 <= d < c.world :: PairCounters(m, d))
    && (m.phase.AwaitingAck? ==>
          m.phase.peer < c.world && m.sends[m.phase.peer] < |m.points[m.phase.peer]| &&
          m.points[m.phase.peer][m.sends[m.phase.peer]] == m.phase.message)
    && (m.phase.Receiving? ==> m.phase.peer < c.world)
  }

  /** A frame written to `d` records something the rank did. */
  predicate Recorded(m: Rank, d: nat, f: Frame)
    requires d < |m.points| == |m.got|
  {
    match f
    case RequestFrame(q) => q.sequence < |m.calls| && m.calls[q.sequence] == q
    case PointFrame(k, message) => k < |m.points[d]| && m.points[d][k] == message
    case AckFrame(k, tag) => k < U64_MAX ==> k < |m.got[d]| && m.got[d][k].tag == tag
    case ResponseFrame(_) => true
  }

  predicate RecordedTo(m: Rank, d: nat)
    requires d < |m.points| == |m.got| == |m.out|
  {
    forall k | 0 <= k < |m.out[d]| :: Recorded(m, d, m.out[d][k])
  }

  predicate Local(c: Config, m: Rank)
  {
    && Shaped(c, m) && CallCounters(m) && Numbered(m) && PointCounters(c, m)
    && forall d | 0 <= d < c.world :: RecordedTo(m, d)
  }

  // ---- facts that relate ranks ----

  predicate Submitted(s: State, i: nat, q: Request)
    requires i < |s|
  {
    q.sequence < |s[i].calls| && s[i].calls[q.sequence] == q
  }

  /** Every rank has entered collective number `k`. */
  predicate Entered(s: State, k: nat)
  {
    forall i | 0 <= i < |s| :: k < |s[i].calls|
  }

  /** The requests of collective number `k`, in rank order. */
  function Requests(s: State, k: nat): seq<Request>
    requires Entered(s, k)
  {
    seq(|s|, i requires 0 <= i < |s| => s[i].calls[k])
  }

  /** An error-free response to `r` is its entry of the evaluated collective. */
  predicate Justified(c: Config, s: State, r: nat, response: Response)
  {
    response.failed ||
    (s != [] && Entered(s, response.sequence) &&
     var answer := Evaluated(Requests(s, response.sequence), c.limit, c.arithmetic);
     answer.Some? && r < |answer.value| && answer.value[r] == response)
  }

  predicate PhaseJustified(c: Config, s: State, r: nat, m: Rank)
    requires |s| == c.world
  {
    && (m.phase.Gathering? ==>
          r == 0 && 1 <= |m.phase.requests| <= c.world && m.phase.requests[0].sequence == m.sequence &&
          forall i | 0 <= i < |m.phase.requests| :: Submitted(s, i, m.phase.requests[i]))
    && (m.phase.Replying? ==>
          r == 0 && |m.phase.responses| == c.world && 1 <= m.phase.next <= c.world &&
          forall i | 0 <= i < c.world :: Justified(c, s, i, m.phase.responses[i]))
  }

  predicate RepliesJustified(c: Config, s: State, m: Rank)
    requires Shaped(c, m)
  {
    forall d, k | 0 <= d < c.world && 0 <= k < |m.out[d]| ::
      m.out[d][k].ResponseFrame? ==> Justified(c, s, d, m.out[d][k].response)
  }

  predicate ResultsJustified(c: Config, s: State, r: nat, m: Rank)
  {
    forall k | 0 <= k < |m.results| :: Justified(c, s, r, m.results[k])
  }

  predicate PairMatched(s: State, r: nat, m: Rank, p: nat)
    requires p < |s| && p < |m.got| == |m.sends|
    requires r < |s[p].points| == |s[p].got|
  {
    m.got[p] <= s[p].points[r] && m.sends[p] <= |s[p].got[r]|
  }

  predicate Cross(c: Config, s: State, r: nat, m: Rank)
    requires |s| == c.world && r < c.world && Shaped(c, m)
  {
    && PhaseJustified(c, s, r, m) && RepliesJustified(c, s, m) && ResultsJustified(c, s, r, m)
    && forall p | 0 <= p < c.world :: Shaped(c, s[p]) && PairMatched(s, r, m, p)
  }

  predicate Consistent(c: Config, s: State)
  {
    && |s| == c.world
    && (forall r | 0 <= r < c.world :: Local(c, s[r]))
    && (forall r | 0 <= r < c.world :: Cross(c, s, r, s[r]))
  }

  // ---- histories only grow ----

  predicate Extends(c: Config, a: Rank, b: Rank)
  {
    && Shaped(c, a) && Shaped(c, b) && a.calls <= b.calls
    && forall d | 0 <= d < c.world :: a.points[d] <= b.points[d] && a.got[d] <= b.got[d]
  }

  predicate Grows(c: Config, s: State, t: State)
  {
    |s| == |t| == c.world && forall i | 0 <= i < c.world :: Extends(c, s[i], t[i])
  }

  lemma JustifiedStays(c: Config, s: State, t: State, r: nat, response: Response)
    requires Grows(c, s, t) && Justified(c, s, r, response)
    ensures Justified(c, t, r, response)
  {
    if !response.failed {
      forall i | 0 <= i < |t|
        ensures response.sequence < |t[i].calls| && t[i].calls[response.sequence] == s[i].calls[response.sequence]
      {
        assert Extends(c, s[i], t[i]);
      }
      assert Requests(t, response.sequence) == Requests(s, response.sequence);
    }
  }

  lemma PhaseStays(c: Config, s: State, t: State, r: nat, m: Rank)
    requires Grows(c, s, t) && PhaseJustified(c, s, r, m)
    ensures PhaseJustified(c, t, r, m)
  {
    if m.phase.Replying? {
      forall i | 0 <= i < c.world
        ensures Justified(c, t, i, m.phase.responses[i])
      {
        JustifiedStays(c, s, t, i, m.phase.responses[i]);
      }
    }
    if m.phase.Gathering? {
      forall i | 0 <= i < |m.phase.requests|
        ensures Submitted(t, i, m.phase.requests[i])
      {
        assert Submitted(s, i, m.phase.requests[i]) && Extends(c, s[i], t[i]);
      }
    }
  }

  lemma CrossStays(c: Config, s: State, t: State, r: nat, m: Rank)
    requires Grows(c, s, t) && r < c.world && Shaped(c, m) && Cross(c, s, r, m)
    ensures Cross(c, t, r, m)
  {
    PhaseStays(c, s, t, r, m);
    forall d, k | 0 <= d < c.world && 0 <= k < |m.out[d]| && m.out[d][k].ResponseFrame?
      ensures Justified(c, t, d, m.out[d][k].response)
    {
      JustifiedStays(c, s, t, d, m.out[d][k].response);
    }
    forall k | 0 <= k < |m.results|
      ensures Justified(c, t, r, m.results[k])
    {
      JustifiedStays(c, s, t, r, m.results[k]);
    }
    forall p | 0 <= p < c.world
      ensures Shaped(c, t[p]) && PairMatched(t, r, m, p)
    {
      assert Extends(c, s[p], t[p]) && PairMatched(s, r, m, p);
    }
  }

  // ---- each kind of step ----

  lemma RecordStays(c: Config, a: Rank, b: Rank, d: nat, f: Frame)
    requires Extends(c, a, b) && d < c.world && Recorded(a, d, f)
    ensures Recorded(b, d, f)
  {
    assert a.points[d] <= b.points[d] && a.got[d] <= b.got[d];
  }

  /** Writing one recorded frame keeps every written frame recorded. */
  lemma WrittenStays(c: Config, a: Rank, b: Rank, peer: nat, f: Frame)
    requires Extends(c, a, b) && peer < c.world && forall d | 0 <= d < c.world :: RecordedTo(a, d)
    requires b.out == a.out[peer := a.out[peer] + [f]] && Recorded(b, peer, f)
    ensures forall d | 0 <= d < c.world :: RecordedTo(b, d)
  {
    forall d | 0 <= d < c.world
      ensures RecordedTo(b, d)
    {
      assert RecordedTo(a, d);
      forall k | 0 <= k < |b.out[d]|
        ensures Recorded(b, d, b.out[d][k])
      {
        if k < |a.out[d]| {
          RecordStays(c, a, b, d, a.out[d][k]);
        }
      }
    }
  }

  lemma UnwrittenStays(c: Config, a: Rank, b: Rank)
    requires Extends(c, a, b) && forall d | 0 <= d < c.world :: RecordedTo(a, d)
    requires b.out == a.out
    ensures forall d | 0 <= d < c.world :: RecordedTo(b, d)
  {
    forall d | 0 <= d < c.world
      ensures RecordedTo(b, d)
    {
      assert RecordedTo(a, d);
      forall k | 0 <= k < |b.out[d]|
        ensures Recorded(b, d, b.out[d][k])
      {
        RecordStays(c, a, b, d, a.out[d][k]);
      }
    }
  }

  /** The state after rank `r` moves to `m`, seen as growth of the histories. */
  lemma MoveGrows(c: Config, s: State, r: nat, m: Rank)
    requires |s| == c.world && (forall i | 0 <= i < c.world :: Shaped(c, s[i]))
    requires r < c.world && Extends(c, s[r], m)
    ensures Grows(c, s, s[r := m])
  {
  }

  /** What one step must establish for the rank that moves. */
  predicate Good(c: Config, s: State, r: nat, m: Rank)
  {
    |s| == c.world && r < c.world && Extends(c, s[r], m) && Local(c, m) && Cross(c, s[r := m], r, m)
  }

  lemma GoodMove(c: Config, s: State, r: nat, m: Rank)
    requires Consistent(c, s) && Good(c, s, r, m)
    ensures Consistent(c, s[r := m]) && Grows(c, s, s[r := m])
  {
    MoveGrows(c, s, r, m);
    var t := s[r := m];
    forall q | 0 <= q < c.world
      ensures Local(c, t[q]) && Cross(c, t, q, t[q])
    {
      if q != r {
        CrossStays(c, s, t, q, s[q]);
      }
    }
  }

  /** Steps outside point-to-point transfers keep their counters. */
  lemma SamePoints(c: Config, a: Rank, b: Rank)
    requires Shaped(c, a) && Shaped(c, b) && PointCounters(c, a)
    requires b.sends == a.sends && b.receives == a.receives && b.points == a.points && b.got == a.got
    requires (b.failed == a.failed && b.phase == a.phase) || (b.failed && b.phase.Idle?) ||
             (!a.failed && !a.phase.AwaitingAck? && !b.phase.AwaitingAck? &&
              (b.phase.Receiving? ==> b.phase.peer < c.world))
    ensures PointCounters(c, b)
  {
    forall d | 0 <= d < c.world
      ensures PairCounters(b, d)
    {
      assert PairCounters(a, d);
    }
  }

  lemma AbortGood(c: Config, s: State, r: nat)
    requires Consistent(c, s) && r < c.world
    ensures Good(c, s, r, Aborted(s[r]))
  {
    var m := Aborted(s[r]);
    UnwrittenStays(c, s[r], m);
    SamePoints(c, s[r], m);
    MoveGrows(c, s, r, m);
    CrossStays(c, s, s[r := m], r, s[r]);
    SameLinks(c, s[r := m], r, s[r], m);
  }

  /** Cross-rank facts about replies, results and received messages depend only on these fields. */
  lemma SameLinks(c: Config, t: State, r: nat, a: Rank, b: Rank)
    requires |t| == c.world && r < c.world && Shaped(c, a) && Shaped(c, b) && Cross(c, t, r, a)
    requires b.out == a.out && b.results == a.results && b.got == a.got && b.sends == a.sends
    requires PhaseJustified(c, t, r, b)
    ensures Cross(c, t, r, b)
  {
    forall p | 0 <= p < c.world
      ensures Shaped(c, t[p]) && PairMatched(t, r, b, p)
    {
      assert PairMatched(t, r, a, p);
    }
  }

  lemma CallGood(c: Config, s: State, r: nat, operation: Operation, tensors: Option<seq<Payload>>, bytes: seq<Byte>)
    requires Consistent(c, s) && r < c.world && !s[r].failed && s[r].phase.Idle?
    ensures Good(c, s, r, Called(c, s[r], r, operation, tensors, bytes))
  {
    var a, b := s[r], Called(c, s[r], r, operation, tensors, bytes);
    assert Extends(c, a, b);
    var request := b.calls[|a.calls|];
    assert Numbered(b) && CallCounters(b);
    SamePoints(c, a, b);
    MoveGrows(c, s, r, b);
    var t := s[r := b];
    CrossStays(c, s, t, r, a);
    if r == 0 {
      UnwrittenStays(c, a, b);
      assert Submitted(t, 0, request);
      SameLinks(c, t, r, a, b);
    } else {
      WrittenStays(c, a, b, 0, RequestFrame(request));
      WroteOther(c, t, r, a, b, 0, RequestFrame(request));
    }
  }

  /** Writing a frame that is not a response needs no justification. */
  lemma WroteOther(c: Config, t: State, r: nat, a: Rank, b: Rank, peer: nat, f: Frame)
    requires |t| == c.world && r < c.world && Shaped(c, a) && Shaped(c, b) && Cross(c, t, r, a)
    requires peer < c.world && b.out == a.out[peer := a.out[peer] + [f]]
    requires f.ResponseFrame? ==> Justified(c, t, peer, f.response)
    requires b.results == a.results && b.got == a.got && b.sends == a.sends
    requires PhaseJustified(c, t, r, b)
    ensures Cross(c, t, r, b)
  {
    forall d, k | 0 <= d < c.world && 0 <= k < |b.out[d]| && b.out[d][k].ResponseFrame?
      ensures Justified(c, t, d, b.out[d][k].response)
    {
      if k < |a.out[d]| {
        assert a.out[d][k].ResponseFrame?;
      }
    }
    SameLinks(c, t, r, a.(out := b.out), b);
  }

  lemma SendGood(c: Config, s: State, r: nat, peer: nat, tag: nat, tensor: Option<Payload>)
    requires Consistent(c, s) && r < c.world && !s[r].failed && s[r].phase.Idle?
    ensures Good(c, s, r, Sent(c, s[r], r, peer, tag, tensor))
  {
    var a, b := s[r], Sent(c, s[r], r, peer, tag, tensor);
    if peer >= c.world || peer == r || tensor.None? {
      AbortGood(c, s, r);
    } else {
      var message := Message(tag, tensor.value);
      assert Extends(c, a, b);
      assert PairCounters(a, peer);
      assert PointCounters(c, b) by {
        forall d | 0 <= d < c.world
          ensures PairCounters(b, d)
        {
          assert PairCounters(a, d);
        }
      }
      MoveGrows(c, s, r, b);
      CrossStays(c, s, s[r := b], r, a);
      WrittenStays(c, a, b, peer, PointFrame(a.sends[peer], message));
      WroteOther(c, s[r := b], r, a, b, peer, PointFrame(a.sends[peer], message));
    }
  }

  lemma RecvGood(c: Config, s: State, r: nat, peer: nat, tag: nat)
    requires Consistent(c, s) && r < c.world && !s[r].failed && s[r].phase.Idle?
    ensures Good(c, s, r, Received(c, s[r], r, peer, tag))
  {
    var a, b := s[r], Received(c, s[r], r, peer, tag);
    if peer >= c.world || peer == r {
      AbortGood(c, s, r);
    } else {
      SamePoints(c, a, b);
      UnwrittenStays(c, a, b);
      MoveGrows(c, s, r, b);
      CrossStays(c, s, s[r := b], r, a);
      SameLinks(c, s[r := b], r, a, b);
    }
  }

  /** Failing after a frame was read. */
  lemma ReadThenAbortGood(c: Config, s: State, r: nat, a: Rank)
    requires Consistent(c, s) && r < c.world && Shaped(c, a) && a == s[r].(taken := a.taken)
    ensures Good(c, s, r, Aborted(a))
  {
    AbortGood(c, s, r);
    assert Good(c, s, r, Aborted(s[r]));
    TakenIrrelevant(c, s, r, Aborted(s[r]), Aborted(a));
  }

  lemma AcceptLocal(c: Config, s: State, r: nat, a: Rank, response: Response)
    requires Consistent(c, s) && r < c.world && !s[r].failed && InCall(s[r].phase)
    requires Shaped(c, a) && a == s[r].(taken := a.taken)
    requires Justified(c, s, r, response) && Conclude(c, a, response) != Aborted(a)
    ensures Extends(c, s[r], Conclude(c, a, response)) && Local(c, Conclude(c, a, response))
  {
    var b := Conclude(c, a, response);
    SamePoints(c, s[r], b);
    assert Numbered(b) && CallCounters(b);
    UnwrittenStays(c, s[r], b);
  }

  lemma AcceptCross(c: Config, s: State, r: nat, a: Rank, response: Response)
    requires Consistent(c, s) && r < c.world && !s[r].failed && InCall(s[r].phase)
    requires Shaped(c, a) && a == s[r].(taken := a.taken)
    requires Justified(c, s, r, response) && Conclude(c, a, response) != Aborted(a)
    requires Extends(c, s[r], Conclude(c, a, response))
    ensures Cross(c, s[r := Conclude(c, a, response)], r, Conclude(c, a, response))
  {
    var b := Conclude(c, a, response);
    MoveGrows(c, s, r, b);
    CrossStays(c, s, s[r := b], r, s[r]);
    JustifiedStays(c, s, s[r := b], r, response);
    SameLinks(c, s[r := b], r, s[r], b.(results := s[r].results));
  }

  lemma AcceptGood(c: Config, s: State, r: nat, a: Rank, response: Response)
    requires Consistent(c, s) && r < c.world && !s[r].failed && InCall(s[r].phase)
    requires Shaped(c, a) && a == s[r].(taken := a.taken)
    requires Justified(c, s, r, response) && Conclude(c, a, response) != Aborted(a)
    ensures Good(c, s, r, Conclude(c, a, response))
  {
    AcceptLocal(c, s, r, a, response);
    AcceptCross(c, s, r, a, response);
  }

  /** The open collective ends, with a justified result or with failure. */
  lemma ConcludeGood(c: Config, s: State, r: nat, a: Rank, response: Response)
    requires Consistent(c, s) && r < c.world && !s[r].failed && InCall(s[r].phase)
    requires Shaped(c, a) && a == s[r].(taken := a.taken)
    requires Justified(c, s, r, response)
    ensures Good(c, s, r, Conclude(c, a, response))
  {
    if Conclude(c, a, response) == Aborted(a) {
      ReadThenAbortGood(c, s, r, a);
    } else {
      AcceptGood(c, s, r, a, response);
    }
  }

  /** How much has been read of each stream does not enter the invariant. */
  lemma TakenIrrelevant(c: Config, s: State, r: nat, a: Rank, b: Rank)
    requires Good(c, s, r, a) && |b.taken| == c.world && b == a.(taken := b.taken)
    ensures Good(c, s, r, b)
  {
    UnwrittenStays(c, a, b);
    SamePoints(c, a, b);
    assert Grows(c, s[r := a], s[r := b]);
    CrossStays(c, s[r := a], s[r := b], r, a);
    SameLinks(c, s[r := b], r, a, b);
  }

  lemma ComputeGood(c: Config, s: State)
    requires Consistent(c, s) && 0 < c.world && !s[0].failed
    ensures Good(c, s, 0, Computed(c, s[0]))
  {
    var a, b := s[0], Computed(c, s[0]);
    SamePoints(c, a, b);
    UnwrittenStays(c, a, b);
    MoveGrows(c, s, 0, b);
    CrossStays(c, s, s[0 := b], 0, a);
    if a.phase.Gathering? && |a.phase.requests| == c.world && a.phase.requests != [] {
      ResponsesJustified(c, s[0 := b], a);
    }
    SameLinks(c, s[0 := b], 0, a, b);
  }

  lemma ResponsesJustified(c: Config, t: State, a: Rank)
    requires |t| == c.world && PhaseJustified(c, t, 0, a)
    requires a.phase.Gathering? && |a.phase.requests| == c.world
    requires Shaped(c, a)
    ensures PhaseJustified(c, t, 0, Computed(c, a))
  {
    var requests := a.phase.requests;
    var answer := Evaluated(requests, c.limit, c.arithmetic);
    if answer.Some? {
      forall i | 0 <= i < c.world
        ensures a.sequence < |t[i].calls| && t[i].calls[a.sequence] == requests[i]
      {
        assert Matches(requests[0], requests[i], c.limit) && Submitted(t, i, requests[i]);
      }
      assert Requests(t, a.sequence) == requests;
      forall i | 0 <= i < c.world
        ensures Justified(c, t, i, answer.value[i])
      {
        assert Entry(requests, c.limit, c.arithmetic, i).value.sequence == a.sequence;
      }
    }
  }

  lemma ReplyGood(c: Config, s: State)
    requires Consistent(c, s) && 0 < c.world && !s[0].failed
    ensures Good(c, s, 0, Replied(c, s[0]))
  {
    var a, b := s[0], Replied(c, s[0]);
    if !a.phase.Replying? || |a.phase.responses| != c.world {
      StillGood(c, s, 0);
    } else if a.phase.next < c.world {
      SamePoints(c, a, b);
      var k := a.phase.next;
      WrittenStays(c, a, b, k, ResponseFrame(a.phase.responses[k]));
      MoveGrows(c, s, 0, b);
      CrossStays(c, s, s[0 := b], 0, a);
      WroteOther(c, s[0 := b], 0, a, b, k, ResponseFrame(a.phase.responses[k]));
    } else {
      ConcludeGood(c, s, 0, a, a.phase.responses[0]);
    }
  }

  lemma StillGood(c: Config, s: State, r: nat)
    requires Consistent(c, s) && r < c.world
    ensures Good(c, s, r, s[r])
  {
    assert s[r := s[r]] == s;
  }

  // ---- reading a frame ----

  lemma GatherGood(c: Config, s: State, r: nat, a: Rank, f: Frame)
    requires Consistent(c, s) && r < c.world && !s[r].failed
    requires Shaped(c, a) && a == s[r].(taken := a.taken)
    requires a.phase.Gathering? && |a.phase.requests| < c.world
    requires Recorded(s[|a.phase.requests|], r, f)
    ensures Good(c, s, r, Handled(c, a, f))
  {
    var b := Handled(c, a, f);
    if !f.RequestFrame? {
      ReadThenAbortGood(c, s, r, a);
    } else {
      SamePoints(c, s[r], b);
      UnwrittenStays(c, s[r], b);
      MoveGrows(c, s, r, b);
      var t := s[r := b];
      CrossStays(c, s, t, r, s[r]);
      assert Submitted(t, |a.phase.requests|, f.request);
      SameLinks(c, t, r, s[r], b);
    }
  }

  lemma AckCounters(c: Config, m: Rank, a: Rank, peer: nat)
    requires Shaped(c, m) && Shaped(c, a) && PointCounters(c, m) && a == m.(taken := a.taken)
    requires a.phase.AwaitingAck? && a.phase.peer == peer < c.world && a.sends[peer] < U64_MAX
    ensures PointCounters(c, a.(phase := Idle, sends := a.sends[peer := a.sends[peer] + 1]))
  {
    var b := a.(phase := Idle, sends := a.sends[peer := a.sends[peer] + 1]);
    assert PairCounters(m, peer);
    forall d | 0 <= d < c.world
      ensures PairCounters(b, d)
    {
      assert PairCounters(m, d);
    }
  }

  lemma AckGood(c: Config, s: State, r: nat, a: Rank, f: Frame)
    requires Consistent(c, s) && r < c.world && !s[r].failed
    requires Shaped(c, a) && a == s[r].(taken := a.taken)
    requires a.phase.AwaitingAck? && a.phase.peer < c.world
    requires Recorded(s[a.phase.peer], r, f)
    ensures Good(c, s, r, Handled(c, a, f))
  {
    var b := Handled(c, a, f);
    var peer := a.phase.peer;
    if b == Aborted(a) {
      ReadThenAbortGood(c, s, r, a);
    } else {
      AckCounters(c, s[r], a, peer);
      UnwrittenStays(c, s[r], b);
      MoveGrows(c, s, r, b);
      var t := s[r := b];
      CrossStays(c, s, t, r, s[r]);
      assert PairMatched(s, r, s[r], peer);
      forall p | 0 <= p < c.world
        ensures Shaped(c, t[p]) && PairMatched(t, r, b, p)
      {
        assert PairMatched(t, r, s[r], p);
      }
    }
  }

  lemma PointGood(c: Config, s: State, r: nat, a: Rank, f: Frame)
    requires Consistent(c, s) && r < c.world && !s[r].failed
    requires Shaped(c, a) && a == s[r].(taken := a.taken)
    requires a.phase.Receiving? && a.phase.peer < c.world
    requires Recorded(s[a.phase.peer], r, f)
    ensures Good(c, s, r, Handled(c, a, f))
  {
    var b := Handled(c, a, f);
    var peer := a.phase.peer;
    if b == Aborted(a) {
      AbortGood(c, s, r);
      TakenIrrelevant(c, s, r, Aborted(s[r]), b);
    } else {
      assert PairCounters(s[r], peer);
      AnswerGood(c, s, r, a, f.message);
    }
  }

  lemma AnswerCounters(c: Config, m: Rank, a: Rank, peer: nat, message: Message)
    requires Shaped(c, m) && Shaped(c, a) && PointCounters(c, m) && a == m.(taken := a.taken)
    requires a.phase.Receiving? && a.phase.peer == peer < c.world && PairCounters(a, peer)
    ensures PointCounters(c, Acknowledged(c, a, peer, message))
  {
    var b := Acknowledged(c, a, peer, message);
    forall d | 0 <= d < c.world
      ensures PairCounters(b, d)
    {
      assert PairCounters(m, d);
    }
  }

  lemma AnswerGood(c: Config, s: State, r: nat, a: Rank, message: Message)
    requires Consistent(c, s) && r < c.world && !s[r].failed
    requires Shaped(c, a) && a == s[r].(taken := a.taken)
    requires a.phase.Receiving? && a.phase.peer < c.world
    requires PairCounters(a, a.phase.peer)
    requires Recorded(s[a.phase.peer], r, PointFrame(a.receives[a.phase.peer], message))
    ensures Good(c, s, r, Acknowledged(c, a, a.phase.peer, message))
  {
    var peer := a.phase.peer;
    var b := Acknowledged(c, a, peer, message);
    var ack := AckFrame(a.receives[peer], message.tag);
    AnswerCounters(c, s[r], a, peer, message);
    assert Extends(c, s[r], b);
    assert Recorded(b, peer, ack);
    WrittenStays(c, s[r], b, peer, ack);
    MoveGrows(c, s, r, b);
    var t := s[r := b];
    CrossStays(c, s, t, r, s[r]);
    WroteOther(c, t, r, s[r], b.(got := s[r].got), peer, ack);
    assert PairMatched(s, r, s[r], peer);
    forall p | 0 <= p < c.world
      ensures Shaped(c, t[p]) && PairMatched(t, r, b, p)
    {
      assert PairMatched(t, r, s[r], p) && Extends(c, s[p], t[p]);
    }
  }

  lemma ResponseGood(c: Config, s: State, r: nat, a: Rank, f: Frame)
    requires Consistent(c, s) && r < c.world && !s[r].failed
    requires Shaped(c, a) && a == s[r].(taken := a.taken) && a.phase.AwaitingResponse?
    requires f.ResponseFrame? ==> Justified(c, s, r, f.response)
    ensures Good(c, s, r, Handled(c, a, f))
  {
    if f.ResponseFrame? {
      ConcludeGood(c, s, r, a, f.response);
    } else {
      ReadThenAbortGood(c, s, r, a);
    }
  }

  lemma FrameGood(c: Config, s: State, r: nat, p: nat, a: Rank, f: Frame)
    requires Consistent(c, s) && r < c.world && !s[r].failed && p < c.world && Awaited(c, s[r]) == Some(p)
    requires Shaped(c, a) && a == s[r].(taken := a.taken)
    requires Recorded(s[p], r, f) && (f.ResponseFrame? ==> Justified(c, s, r, f.response))
    ensures Good(c, s, r, Handled(c, a, f))
  {
    match s[r].phase
    case Gathering(_) => GatherGood(c, s, r, a, f);
    case AwaitingAck(_, _) => AckGood(c, s, r, a, f);
    case Receiving(_, _) => PointGood(c, s, r, a, f);
    case AwaitingResponse => ResponseGood(c, s, r, a, f);
    case _ =>
  }

  /** What a frame waiting in a stream says is recorded and justified. */
  lemma FrameTrusted(c: Config, s: State, r: nat, p: nat, k: nat)
    requires Consistent(c, s) && r < c.world && p < c.world && k < |s[p].out[r]|
    ensures Recorded(s[p], r, s[p].out[r][k])
    ensures s[p].out[r][k].ResponseFrame? ==> Justified(c, s, r, s[p].out[r][k].response)
  {
    assert RecordedTo(s[p], r);
    assert RepliesJustified(c, s, s[p]);
  }

  lemma TakeGood(c: Config, s: State, r: nat)
    requires Consistent(c, s) && r < c.world && !s[r].failed
    ensures Good(c, s, r, Taken(c, s, r))
  {
    var m, peer := s[r], Awaited(c, s[r]);
    if peer.None? || peer.value >= c.world || m.taken[peer.value] >= |s[peer.value].out[r]| {
      StillGood(c, s, r);
    } else {
      var p := peer.value;
      FrameTrusted(c, s, r, p, m.taken[p]);
      FrameGood(c, s, r, p, m.(taken := m.taken[p := m.taken[p] + 1]), s[p].out[r][m.taken[p]]);
    }
  }

  lemma StepGood(c: Config, s: State, a: Action)
    requires Consistent(c, s) && Sized(c, s) && 0 < c.world && Actor(a) < c.world
    ensures Good(c, s, Actor(a), Moved(c, s, Actor(a), a))
  {
    var r := Actor(a);
    if s[r].failed {
      StillGood(c, s, r);
    } else {
      match a
      case Fail(_) => AbortGood(c, s, r);
      case Take(_) => TakeGood(c, s, r);
      case Compute => ComputeGood(c, s);
      case Reply => ReplyGood(c, s);
      case Call(_, operation, tensors, bytes) =>
        if s[r].phase.Idle? { CallGood(c, s, r, operation, tensors, bytes); } else { StillGood(c, s, r); }
      case Send(_, peer, tag, tensor) =>
        if s[r].phase.Idle? { SendGood(c, s, r, peer, tag, tensor); } else { StillGood(c, s, r); }
      case Recv(_, peer, tag) =>
        if s[r].phase.Idle? { RecvGood(c, s, r, peer, tag); } else { StillGood(c, s, r); }
    }
  }

  // ---- every run ----

  lemma StartConsistent(c: Config)
    ensures Sized(c, Start(c)) && Consistent(c, Start(c))
  {
    var s, m := Start(c), Fresh(c, 0);
    assert Local(c, m) by {
      forall d | 0 <= d < c.world
        ensures PairCounters(m, d) && RecordedTo(m, d)
      {
      }
    }
    forall r | 0 <= r < c.world
      ensures Cross(c, s, r, s[r])
    {
      forall p | 0 <= p < c.world
        ensures Shaped(c, s[p]) && PairMatched(s, r, m, p)
      {
      }
    }
  }

  lemma {:induction false} RunConsistent(c: Config, s: State, actions: seq<Action>)
    requires 0 < c.world && Sized(c, s) && Consistent(c, s)
    ensures Consistent(c, Run(c, s, actions))
  {
    if actions != [] {
      var before, a := Run(c, s, actions[..|actions| - 1]), actions[|actions| - 1];
      RunConsistent(c, s, actions[..|actions| - 1]);
      if Actor(a) < c.world {
        StepGood(c, before, a);
        GoodMove(c, before, Actor(a), Moved(c, before, Actor(a), a));
      }
    }
  }

  ghost predicate Reachable(c: Config, s: State)
  {
    ValidConfig(c) && exists actions :: StartSized(c, actions) && s == Run(c, Start(c), actions)
  }

  ghost predicate StartSized(c: Config, actions: seq<Action>)
  {
    Sized(c, Start(c))
  }

  lemma ReachableConsistent(c: Config, s: State)
    requires Reachable(c, s)
    ensures Consistent(c, s)
  {
    var actions :| StartSized(c, actions) && s == Run(c, Start(c), actions);
    StartConsistent(c);
    RunConsistent(c, Start(c), actions);
  }

  /** Whatever the interleaving, crashes and timeouts: when collective `k` has
      returned at some rank, every rank has entered it without an error and with
      the same operation, and the rank got its own entry of the evaluation of
      all the requests in rank order. No rank leaves a barrier early. */
  lemma CollectiveResult(c: Config, s: State, r: nat, k: nat)
    requires Reachable(c, s) && r < c.world && k < |s[r].results|
    ensures Entered(s, k)
    ensures forall i | 0 <= i < c.world ::
      !s[i].calls[k].failed && s[i].calls[k].sequence == k && s[i].calls[k].operation == s[r].calls[k].operation
    ensures Evaluated(Requests(s, k), c.limit, c.arithmetic).Some?
    ensures Evaluated(Requests(s, k), c.limit, c.arithmetic).value[r] == s[r].results[k]
  {
    ReachableConsistent(c, s);
    assert Numbered(s[r]) && Justified(c, s, r, s[r].results[k]);
    var requests := Requests(s, k);
    forall i | 0 <= i < c.world
      ensures !s[i].calls[k].failed && s[i].calls[k].sequence == k && s[i].calls[k].operation == requests[0].operation
    {
      assert Matches(requests[0], requests[i], c.limit);
      assert Numbered(s[i]);
    }
  }

  /** A failed group stays as it is: no later operation returns Ok. */
  lemma {:induction false} FailedForever(c: Config, s: State, actions: seq<Action>, r: nat)
    requires Sized(c, s) && r < c.world && s[r].failed
    ensures Run(c, s, actions)[r] == s[r]
  {
    if actions != [] {
      FailedForever(c, s, actions[..|actions| - 1], r);
    }
  }

  /** Point-to-point transfers between two ranks, whatever else crosses their
      stream: each receive returned the send of the same number, tag included;
      a send that returned was received; and the counters differ by at most one. */
  lemma ExactlyOnceInOrder(c: Config, s: State, source: nat, destination: nat)
    requires Reachable(c, s) && source < c.world && destination < c.world
    ensures Sized(c, s)
    ensures s[destination].receives[source] == |s[destination].got[source]|
    ensures s[destination].got[source] <= s[source].points[destination]
    ensures s[source].sends[destination] <= s[destination].receives[source] <= s[source].sends[destination] + 1
  {
    ReachableConsistent(c, s);
    assert Local(c, s[source]) && Local(c, s[destination]);
    assert PairCounters(s[source], destination) && PairCounters(s[destination], source);
    assert Cross(c, s, source, s[source]) && Cross(c, s, destination, s[destination]);
    assert PairMatched(s, source, s[source], destination) && PairMatched(s, destination, s[destination], source);
  }
}
