/** What a rank was given in an earlier round, from what the ranks asked for in it. */
module RoundResults {
  import opened Wrappers
  import opened Collectives
  import opened ProcessGroup
  import opened CollectivePrograms
  import opened Lockstep

  predicate AllAsking(turns: seq<Turn>)
  {
    forall i | 0 <= i < |turns| :: turns[i].Ask?
  }

  /** Round `k` is reached, and `turns` are the turns the ranks then take. */
  predicate TurnsAre(c: Config, prog: Program, k: nat, turns: seq<Turn>)
    requires 0 < c.world
  {
    Rounds(c, prog, k).Some? && Turns(prog, Rounds(c, prog, k).value) == turns
  }

  lemma Reached(c: Config, prog: Program, j: nat, k: nat)
    requires 0 < c.world && j <= k && Rounds(c, prog, k).Some?
    ensures Rounds(c, prog, j).Some?
  {
    EarlierResults(c, prog, j, k, 0);
  }

  lemma AskersAll(prog: Program, history: History)
    requires AllAsk(prog, history)
    ensures AllAsking(Turns(prog, history))
  {
  }

  lemma AskedTurns(c: Config, prog: Program, k: nat, history: History, turns: seq<Turn>)
    requires 0 < c.world == |history| && AllAsk(prog, history) && Turns(prog, history) == turns && AllAsking(turns)
    ensures Asked(c, prog, history, k) == RequestsOf(turns, prog.base + k)
  {
  }

  lemma ExtendedAt(history: History, results: seq<Response>, i: nat)
    requires i < |history| == |results|
    ensures Extended(history, results)[i] == history[i] + [results[i]]
  {
  }

  lemma ResultNext(c: Config, prog: Program, k: nat, i: nat, turns: seq<Turn>)
    requires 0 < c.world && i < c.world && TurnsAre(c, prog, k, turns) && Rounds(c, prog, k + 1).Some?
    ensures |turns| == c.world && AllAsking(turns)
    ensures var answer := Evaluated(RequestsOf(turns, prog.base + k), c.limit, c.arithmetic);
      answer.Some? && Rounds(c, prog, k + 1).value[i] == Rounds(c, prog, k).value[i] + [answer.value[i]]
  {
    PreviousRound(c, prog, k + 1);
    var history := Rounds(c, prog, k).value;
    AskersAll(prog, history);
    AskedTurns(c, prog, k, history, turns);
    RoundIs(c, prog, k);
    ExtendedAt(history, Evaluated(RequestsOf(turns, prog.base + k), c.limit, c.arithmetic).value, i);
  }

  /** Once a later round is reached, every rank holds its entry of this one. */
  lemma ResultAt(c: Config, prog: Program, at: nat, k: nat, i: nat, turns: seq<Turn>)
    requires 0 < c.world && i < c.world && at < k && TurnsAre(c, prog, at, turns) && Rounds(c, prog, k).Some?
    ensures |turns| == c.world && AllAsking(turns) && |Rounds(c, prog, k).value[i]| == k
    ensures var answer := Evaluated(RequestsOf(turns, prog.base + at), c.limit, c.arithmetic);
      answer.Some? && Rounds(c, prog, k).value[i][at] == answer.value[i]
  {
    EarlierResults(c, prog, at + 1, k, i);
    ResultNext(c, prog, at, i, turns);
    var results := Rounds(c, prog, k).value[i];
    assert results[..at + 1][at] == results[at];
  }

  /** Every rank's request carried its tensors, not an error. */
  lemma NoneFailed(c: Config, prog: Program, at: nat, k: nat, turns: seq<Turn>)
    requires 0 < c.world && at < k && TurnsAre(c, prog, at, turns) && Rounds(c, prog, k).Some?
    ensures |turns| == c.world && AllAsking(turns) && forall q | 0 <= q < c.world :: turns[q].tensors.Some?
  {
    ResultAt(c, prog, at, k, 0, turns);
    var requests := RequestsOf(turns, prog.base + at);
    forall q | 0 <= q < c.world
      ensures turns[q].tensors.Some?
    {
      assert Matches(requests[0], requests[q], c.limit);
    }
  }

  // ---- what each collective gives ----

  predicate ExchangesBytes(turns: seq<Turn>, bytes: seq<seq<Byte>>)
  {
    |bytes| == |turns| && forall q | 0 <= q < |turns| ::
      turns[q].Ask? && turns[q].operation == Bytes && (turns[q].tensors.Some? ==> turns[q].bytes == bytes[q])
  }

  lemma BytesHeld(c: Config, prog: Program, at: nat, k: nat, i: nat, turns: seq<Turn>, bytes: seq<seq<Byte>>)
    requires 0 < c.world && i < c.world && at < k && TurnsAre(c, prog, at, turns) && Rounds(c, prog, k).Some?
    requires ExchangesBytes(turns, bytes)
    ensures |Rounds(c, prog, k).value[i]| == k && Rounds(c, prog, k).value[i][at].bytes == bytes
  {
    ResultAt(c, prog, at, k, i, turns);
    NoneFailed(c, prog, at, k, turns);
    BytesGiven(RequestsOf(turns, prog.base + at), c.limit, c.arithmetic, i, bytes);
  }

  lemma BytesGiven(requests: seq<Request>, limit: nat, a: Arithmetic, i: nat, bytes: seq<seq<Byte>>)
    requires requests != [] && i < |requests| == |bytes| && Evaluated(requests, limit, a).Some?
    requires requests[0].operation == Bytes && forall q | 0 <= q < |requests| :: requests[q].bytes == bytes[q]
    ensures Evaluated(requests, limit, a).value[i].bytes == bytes
  {
    assert Evaluated(requests, limit, a).value[i] == Entry(requests, limit, a, i).value;
  }

  /** Each rank brings one tensor to this operation. */
  predicate Brings(turns: seq<Turn>, operation: Operation, column: seq<Payload>)
  {
    |column| == |turns| && forall q | 0 <= q < |turns| :: turns[q] == Ask(operation, Some([column[q]]), [])
  }

  lemma GatherHeld(c: Config, prog: Program, at: nat, k: nat, i: nat, turns: seq<Turn>, column: seq<Payload>)
    requires 0 < c.world && i < c.world && at < k && TurnsAre(c, prog, at, turns) && Rounds(c, prog, k).Some?
    requires Brings(turns, AllGather, column)
    ensures |Rounds(c, prog, k).value[i]| == k && Rounds(c, prog, k).value[i][at].tensors == column
  {
    ResultAt(c, prog, at, k, i, turns);
    GatherGiven(RequestsOf(turns, prog.base + at), c.limit, c.arithmetic, i, column);
  }

  lemma GatherGiven(requests: seq<Request>, limit: nat, a: Arithmetic, i: nat, column: seq<Payload>)
    requires requests != [] && i < |requests| == |column| && Evaluated(requests, limit, a).Some?
    requires requests[0].operation == AllGather && forall q | 0 <= q < |requests| :: requests[q].tensors == [column[q]]
    ensures Evaluated(requests, limit, a).value[i].tensors == column
  {
    assert Column(requests, 0) == column;
    assert Evaluated(requests, limit, a).value[i] == Entry(requests, limit, a, i).value;
  }

  lemma ReduceHeld(c: Config, prog: Program, at: nat, k: nat, i: nat, turns: seq<Turn>, op: ReduceOp,
                   column: seq<Payload>)
    requires 0 < c.world && i < c.world && at < k && TurnsAre(c, prog, at, turns) && Rounds(c, prog, k).Some?
    requires Brings(turns, AllReduce(op), column)
    ensures |Rounds(c, prog, k).value[i]| == k && column != [] && Reduced(c.arithmetic, op, column, c.limit).Some?
    ensures Rounds(c, prog, k).value[i][at].tensors == [Reduced(c.arithmetic, op, column, c.limit).value]
  {
    ResultAt(c, prog, at, k, i, turns);
    ReduceGiven(RequestsOf(turns, prog.base + at), c.limit, c.arithmetic, i, op, column);
  }

  lemma ReduceGiven(requests: seq<Request>, limit: nat, a: Arithmetic, i: nat, op: ReduceOp, column: seq<Payload>)
    requires requests != [] && i < |requests| == |column| && Evaluated(requests, limit, a).Some?
    requires requests[0].operation == AllReduce(op)
    requires forall q | 0 <= q < |requests| :: requests[q].tensors == [column[q]]
    ensures Reduced(a, op, column, limit).Some?
    ensures Evaluated(requests, limit, a).value[i].tensors == [Reduced(a, op, column, limit).value]
  {
    assert Column(requests, 0) == column;
    assert Evaluated(requests, limit, a).value[i] == Entry(requests, limit, a, i).value;
  }

  /** Each rank brings one tensor for every rank to this reduction. */
  predicate Deals(turns: seq<Turn>, op: ReduceOp, hands: seq<seq<Payload>>)
  {
    |hands| == |turns| && forall q | 0 <= q < |turns| :: turns[q] == Ask(ReduceScatter(op), Some(hands[q]), [])
  }

  /** What each rank brought for rank `i`. */
  function Dealt(hands: seq<seq<Payload>>, i: nat): (column: seq<Payload>)
    requires forall q | 0 <= q < |hands| :: i < |hands[q]|
    ensures |column| == |hands|
  {
    seq(|hands|, q requires 0 <= q < |hands| => hands[q][i])
  }

  lemma ScatterHeld(c: Config, prog: Program, at: nat, k: nat, i: nat, turns: seq<Turn>, op: ReduceOp,
                    hands: seq<seq<Payload>>)
    requires 0 < c.world && i < c.world && at < k && TurnsAre(c, prog, at, turns) && Rounds(c, prog, k).Some?
    requires Deals(turns, op, hands)
    ensures |Rounds(c, prog, k).value[i]| == k && |hands| == c.world
    ensures forall q | 0 <= q < |hands| :: |hands[q]| == c.world
    ensures Reduced(c.arithmetic, op, Dealt(hands, i), c.limit).Some?
    ensures Rounds(c, prog, k).value[i][at].tensors == [Reduced(c.arithmetic, op, Dealt(hands, i), c.limit).value]
  {
    ResultAt(c, prog, at, k, i, turns);
    ScatterGiven(RequestsOf(turns, prog.base + at), c.limit, c.arithmetic, i, op, hands);
  }

  lemma ScatterGiven(requests: seq<Request>, limit: nat, a: Arithmetic, i: nat, op: ReduceOp,
                     hands: seq<seq<Payload>>)
    requires requests != [] && i < |requests| == |hands| && Evaluated(requests, limit, a).Some?
    requires requests[0].operation == ReduceScatter(op)
    requires forall q | 0 <= q < |requests| :: requests[q].tensors == hands[q]
    ensures forall q | 0 <= q < |hands| :: |hands[q]| == |requests|
    ensures Reduced(a, op, Dealt(hands, i), limit).Some?
    ensures Evaluated(requests, limit, a).value[i].tensors == [Reduced(a, op, Dealt(hands, i), limit).value]
  {
    assert Counted(requests);
    forall q | 0 <= q < |hands|
      ensures |hands[q]| == |requests|
    {
      assert requests[q].tensors == hands[q];
    }
    assert Column(requests, i) == Dealt(hands, i);
    assert Evaluated(requests, limit, a).value[i] == Entry(requests, limit, a, i).value;
  }
}
