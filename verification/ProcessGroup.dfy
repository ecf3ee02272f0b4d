/** The process-group protocol (src/distributed/process.rs) as a state machine.

    Every rank is one record that only its own steps change. A stream from rank
    `p` to rank `q` is the frames `p` wrote, `s[p].out[q]`, and how many of them
    `q` has read, `s[q].taken[p]`. A step reads or writes one frame. Timeouts,
    disconnections and crashes are the `Fail` step, possible at any moment. */
module ProcessGroup {
  import opened Wrappers
  import opened Collectives

  const U64_MAX: nat := 0xffff_ffff_ffff_ffff
  const MAX_TENSOR_BYTES: nat := 1024 * 1024 * 1024

  datatype Message = Message(tag: nat, tensor: Payload)

  datatype Frame =
    | RequestFrame(request: Request)
    | ResponseFrame(response: Response)
    | PointFrame(sequence: nat, message: Message)
    | AckFrame(sequence: nat, tag: nat)

  datatype Phase =
    | Idle
    | Gathering(requests: seq<Request>)
    | Replying(responses: seq<Response>, next: nat)
    | AwaitingResponse
    | AwaitingAck(peer: nat, message: Message)
    | Receiving(peer: nat, tag: nat)

  /** `sequence`, `sends`, `receives` and `failed` are the group's fields. The
      histories record what the rank submitted and was given: `calls` and
      `results` of collectives, `points` sent to and `got` from each peer. */
  datatype Rank = Rank(
    phase: Phase, failed: bool,
    sequence: nat, sends: seq<nat>, receives: seq<nat>,
    calls: seq<Request>, results: seq<Response>,
    points: seq<seq<Message>>, got: seq<seq<Message>>,
    out: seq<seq<Frame>>, taken: seq<nat>)

  type State = seq<Rank>

  datatype Config = Config(world: nat, limit: nat, arithmetic: Arithmetic)

  predicate ValidConfig(c: Config)
  {
    1 <= c.world <= MAX_RANKS && 1024 <= c.limit <= MAX_TENSOR_BYTES
  }

  /** `tensors` is `None` when the caller reports a local error. */
  datatype Action =
    | Call(rank: nat, operation: Operation, tensors: Option<seq<Payload>>, bytes: seq<Byte>)
    | Send(rank: nat, peer: nat, tag: nat, tensor: Option<Payload>)
    | Recv(rank: nat, peer: nat, tag: nat)
    | Take(rank: nat)
    | Compute
    | Reply
    | Fail(rank: nat)

  // ---- steps ----

  predicate Shaped(c: Config, m: Rank)
  {
    |m.sends| == |m.receives| == |m.points| == |m.got| == |m.out| == |m.taken| == c.world
  }

  ghost predicate Sized(c: Config, s: State)
  {
    |s| == c.world && forall i | 0 <= i < c.world :: Shaped(c, s[i])
  }

  function Fresh(c: Config, sequence: nat): Rank
  {
    var zeros := seq(c.world, _ => 0);
    Rank(Idle, false, sequence, zeros, zeros, [], [], seq(c.world, _ => []), seq(c.world, _ => []),
         seq(c.world, _ => []), zeros)
  }

  function Start(c: Config): State
  {
    seq(c.world, _ => Fresh(c, 0))
  }

  function Aborted(m: Rank): Rank
  {
    m.(phase := Idle, failed := true)
  }

  function Write(m: Rank, peer: nat, frame: Frame): Rank
    requires peer < |m.out|
  {
    m.(out := m.out[peer := m.out[peer] + [frame]])
  }

  /** Accepts or rejects the response to the collective in progress. */
  function Conclude(c: Config, m: Rank, response: Response): (t: Rank)
    requires Shaped(c, m)
    ensures Shaped(c, t)
  {
    if response.sequence != m.sequence || response.failed || m.sequence == U64_MAX ||
       (exists t | t in response.tensors :: !ValidPayload(t, c.limit))
    then Aborted(m)
    else m.(phase := Idle, sequence := m.sequence + 1, results := m.results + [response])
  }

  function Called(c: Config, m: Rank, rank: nat, operation: Operation, tensors: Option<seq<Payload>>,
                  bytes: seq<Byte>): (t: Rank)
    requires Shaped(c, m) && 0 < c.world
    ensures Shaped(c, t)
  {
    var request := Request(m.sequence, operation, tensors.None?, if tensors.Some? then tensors.value else [], bytes);
    var entered := m.(calls := m.calls + [request]);
    if rank == 0 then entered.(phase := Gathering([request]))
    else Write(entered.(phase := AwaitingResponse), 0, RequestFrame(request))
  }

  function Sent(c: Config, m: Rank, rank: nat, peer: nat, tag: nat, tensor: Option<Payload>): (t: Rank)
    requires Shaped(c, m)
    ensures Shaped(c, t)
  {
    if peer >= c.world || peer == rank || tensor.None? then Aborted(m)
    else
      var message := Message(tag, tensor.value);
      Write(m.(phase := AwaitingAck(peer, message), points := m.points[peer := m.points[peer] + [message]]),
            peer, PointFrame(m.sends[peer], message))
  }

  function Received(c: Config, m: Rank, rank: nat, peer: nat, tag: nat): (t: Rank)
    requires Shaped(c, m)
    ensures Shaped(c, t)
  {
    if peer >= c.world || peer == rank then Aborted(m) else m.(phase := Receiving(peer, tag))
  }

  /** The peer whose stream the rank is blocked on. */
  function Awaited(c: Config, m: Rank): Option<nat>
  {
    match m.phase
    case Gathering(requests) => if |requests| < c.world then Some(|requests|) else None
    case AwaitingResponse => Some(0)
    case AwaitingAck(peer, _) => Some(peer)
    case Receiving(peer, _) => Some(peer)
    case _ => None
  }

  /** What a blocked rank does with the frame it reads. */
  function Handled(c: Config, m: Rank, frame: Frame): (t: Rank)
    requires Shaped(c, m) && Awaited(c, m).Some? && Awaited(c, m).value < c.world
    ensures Shaped(c, t)
  {
    match m.phase
    case Gathering(requests) =>
      if frame.RequestFrame? then m.(phase := Gathering(requests + [frame.request])) else Aborted(m)
    case AwaitingResponse =>
      if frame.ResponseFrame? then Conclude(c, m, frame.response) else Aborted(m)
    case AwaitingAck(peer, message) =>
      if frame == AckFrame(m.sends[peer], message.tag) && m.sends[peer] < U64_MAX
      then m.(phase := Idle, sends := m.sends[peer := m.sends[peer] + 1])
      else Aborted(m)
    case Receiving(peer, tag) =>
      if frame.PointFrame? && frame.sequence == m.receives[peer] && frame.message.tag == tag &&
         ValidPayload(frame.message.tensor, MAX_TENSOR_BYTES)
      then Acknowledged(c, m, peer, frame.message)
      else Aborted(m)
    case _ => m
  }

  /** Answers a point frame. The acknowledgement leaves before the counter is checked. */
  function Acknowledged(c: Config, m: Rank, peer: nat, message: Message): (t: Rank)
    requires Shaped(c, m) && peer < c.world
    ensures Shaped(c, t)
  {
    var answered := Write(m, peer, AckFrame(m.receives[peer], message.tag));
    if m.receives[peer] == U64_MAX then Aborted(answered)
    else
      answered.(phase := Idle, receives := m.receives[peer := m.receives[peer] + 1],
                got := m.got[peer := m.got[peer] + [message]])
  }

  function Taken(c: Config, s: State, r: nat): (t: Rank)
    requires Sized(c, s) && r < c.world
    ensures Shaped(c, t)
  {
    var m := s[r];
    var peer := Awaited(c, m);
    if peer.None? || peer.value >= c.world || m.taken[peer.value] >= |s[peer.value].out[r]| then m
    else
      var p := peer.value;
      Handled(c, m.(taken := m.taken[p := m.taken[p] + 1]), s[p].out[r][m.taken[p]])
  }

  function Computed(c: Config, m: Rank): (t: Rank)
    requires Shaped(c, m)
    ensures Shaped(c, t)
  {
    if !m.phase.Gathering? || |m.phase.requests| != c.world || m.phase.requests == [] then m
    else
      var answer := Evaluated(m.phase.requests, c.limit, c.arithmetic);
      var responses :=
        if answer.Some? then answer.value else seq(c.world, _ => Response(m.sequence, true, [], []));
      m.(phase := Replying(responses, 1))
  }

  function Replied(c: Config, m: Rank): (t: Rank)
    requires Shaped(c, m)
    ensures Shaped(c, t)
  {
    if !m.phase.Replying? || |m.phase.responses| != c.world || c.world == 0 then m
    else if m.phase.next < c.world then
      var k := m.phase.next;
      Write(m.(phase := Replying(m.phase.responses, k + 1)), k, ResponseFrame(m.phase.responses[k]))
    else Conclude(c, m, m.phase.responses[0])
  }

  /** The record of `r` after the action; a step that is not enabled changes nothing. */
  function Moved(c: Config, s: State, r: nat, a: Action): (t: Rank)
    requires Sized(c, s) && r < c.world
    ensures Shaped(c, t)
  {
    var m := s[r];
    if m.failed then m
    else match a
      case Fail(_) => Aborted(m)
      case Take(_) => Taken(c, s, r)
      case Compute => Computed(c, m)
      case Reply => Replied(c, m)
      case Call(_, operation, tensors, bytes) => if m.phase.Idle? then Called(c, m, r, operation, tensors, bytes) else m
      case Send(_, peer, tag, tensor) => if m.phase.Idle? then Sent(c, m, r, peer, tag, tensor) else m
      case Recv(_, peer, tag) => if m.phase.Idle? then Received(c, m, r, peer, tag) else m
  }

  function Actor(a: Action): nat
  {
    if a.Compute? || a.Reply? then 0 else a.rank
  }

  function Step(c: Config, s: State, a: Action): (t: State)
    requires Sized(c, s)
    ensures Sized(c, t)
  {
    if Actor(a) >= c.world then s else s[Actor(a) := Moved(c, s, Actor(a), a)]
  }

  function Run(c: Config, s: State, actions: seq<Action>): (t: State)
    requires Sized(c, s)
    ensures Sized(c, t)
  {
    if actions == [] then s else Step(c, Run(c, s, actions[..|actions| - 1]), actions[|actions| - 1])
  }
}
