/** Collective programs in lockstep: all ranks ask, one answer comes back, and every
    rank goes on with its share of it. How a round is answered is a parameter. */
module CollectivePrograms {
  import opened Wrappers
  import opened Collectives

  /** What a rank does next, given the results of its collectives so far. */
  datatype Turn = Ask(operation: Operation, tensors: Option<seq<Payload>>, bytes: seq<Byte>) | Quit(ok: bool)

  /** What each rank does next. */
  type Turning = (nat, seq<Response>) -> Turn

  /** `base` is the group's sequence number when the program begins; `turn` gives a
      rank's next step from the results of its collectives since then. */
  datatype Program = Program(base: nat, turn: Turning)

  type Positive = n: nat | 0 < n witness 1

  /** `answer` gives each of `world` ranks its result of the collective with this
      sequence number, or `None` when the collective fails. */
  datatype Table = Table(world: Positive, answer: (nat, seq<Turn>) -> Option<seq<Response>>)

  /** The results of every rank so far. */
  type History = seq<seq<Response>>

  function Turns(prog: Program, history: History): (r: seq<Turn>)
    ensures |r| == |history|
  {
    seq(|history|, i requires 0 <= i < |history| => prog.turn(i, history[i]))
  }

  predicate AllAsk(prog: Program, history: History)
  {
    forall i | 0 <= i < |history| :: prog.turn(i, history[i]).Ask?
  }

  function Extended(history: History, results: seq<Response>): (r: History)
    requires |history| == |results|
    ensures |r| == |history|
  {
    seq(|history|, i requires 0 <= i < |history| => history[i] + [results[i]])
  }

  /** One more collective on top of `k`, or `None` when it fails or is not asked for. */
  function RoundAfter(t: Table, prog: Program, history: History, k: nat): (r: Option<History>)
    requires |history| == t.world
    ensures r.Some? ==> |r.value| == t.world && forall i | 0 <= i < t.world :: |r.value[i]| == |history[i]| + 1
  {
    if !AllAsk(prog, history) then None
    else
      var answer := t.answer(prog.base + k, Turns(prog, history));
      if answer.None? || |answer.value| != t.world then None else Some(Extended(history, answer.value))
  }

  /** Each rank's results of the first `k` collectives, if all of them succeed. */
  function RoundsOf(t: Table, prog: Program, k: nat): (r: Option<History>)
    ensures r.Some? ==> |r.value| == t.world && forall i | 0 <= i < t.world :: |r.value[i]| == k
  {
    if k == 0 then Some(seq(t.world, _ => []))
    else
      var before := RoundsOf(t, prog, k - 1);
      if before.None? then None else RoundAfter(t, prog, before.value, k - 1)
  }

  /** All ranks ask together, or all stop together with the same verdict. */
  predicate Together(prog: Program, history: History)
  {
    AllAsk(prog, history) || exists ok :: forall i | 0 <= i < |history| :: prog.turn(i, history[i]) == Quit(ok)
  }

  predicate TogetherAt(t: Table, prog: Program, k: nat)
  {
    RoundsOf(t, prog, k).Some? ==> Together(prog, RoundsOf(t, prog, k).value)
  }

  ghost predicate AlwaysTogether(t: Table, prog: Program)
  {
    forall k: nat :: TogetherAt(t, prog, k)
  }

  /** The program runs at most `n` collectives. */
  ghost predicate EndsBy(t: Table, prog: Program, n: nat)
  {
    forall k: nat | n < k :: NoRound(t, prog, k)
  }

  predicate NoRound(t: Table, prog: Program, k: nat)
  {
    RoundsOf(t, prog, k).None?
  }

  // ---- earlier rounds ----

  lemma PreviousRoundOf(t: Table, prog: Program, k: nat)
    requires 0 < k && RoundsOf(t, prog, k).Some?
    ensures RoundsOf(t, prog, k - 1).Some? && AllAsk(prog, RoundsOf(t, prog, k - 1).value)
    ensures forall i | 0 <= i < t.world :: RoundsOf(t, prog, k).value[i][..k - 1] == RoundsOf(t, prog, k - 1).value[i]
  {
  }

  /** The next round in terms of its answer. */
  lemma NextRoundOf(t: Table, prog: Program, k: nat)
    requires RoundsOf(t, prog, k).Some? && AllAsk(prog, RoundsOf(t, prog, k).value)
    ensures var history := RoundsOf(t, prog, k).value;
      var answer := t.answer(prog.base + k, Turns(prog, history));
      RoundsOf(t, prog, k + 1) ==
      if answer.None? || |answer.value| != t.world then None else Some(Extended(history, answer.value))
  {
  }

  lemma PrefixOfPrefix<T>(s: seq<T>, j: nat, k: nat)
    requires j <= k <= |s|
    ensures s[..k][..j] == s[..j]
  {
  }

  /** Rounds only add results, and every rank asked in the earlier ones. */
  lemma {:induction false} EarlierRoundsOf(t: Table, prog: Program, j: nat, k: nat, i: nat)
    requires i < t.world && j <= k && RoundsOf(t, prog, k).Some?
    ensures RoundsOf(t, prog, j).Some? && RoundsOf(t, prog, j).value[i] == RoundsOf(t, prog, k).value[i][..j]
    ensures j < k ==> AllAsk(prog, RoundsOf(t, prog, j).value)
    decreases k
  {
    if j < k {
      PreviousRoundOf(t, prog, k);
      EarlierRoundsOf(t, prog, j, k - 1, i);
      PrefixOfPrefix(RoundsOf(t, prog, k).value[i], j, k - 1);
    } else {
      assert |RoundsOf(t, prog, k).value[i]| == k;
    }
  }

  lemma {:induction false} RoundsOfStop(t: Table, prog: Program, j: nat, k: nat)
    requires RoundsOf(t, prog, j).None?
    ensures j <= k ==> RoundsOf(t, prog, k).None?
    decreases k
  {
    if j < k {
      RoundsOfStop(t, prog, j, k - 1);
    }
  }

  lemma EndsWithoutNext(t: Table, prog: Program, n: nat)
    requires RoundsOf(t, prog, n + 1).None?
    ensures EndsBy(t, prog, n)
  {
    forall k: nat | n < k
      ensures NoRound(t, prog, k)
    {
      RoundsOfStop(t, prog, n + 1, k);
    }
  }

  lemma NotPast(t: Table, prog: Program, n: nat, k: nat)
    requires EndsBy(t, prog, n) && RoundsOf(t, prog, k).Some?
    ensures k <= n
  {
    assert n < k ==> NoRound(t, prog, k);
  }
}
