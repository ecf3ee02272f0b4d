/** The two ONNX results: exactly which exports can be imported again, and that
    every one that can computes what the original computes. */
module OnnxTheorems {
  import opened Wrappers
  import opened Tensors
  import opened Programs
  import opened Validation
  import opened InferSpecs
  import opened KernelLaws
  import opened FreshNames
  import opened Onnx
  import opened OnnxRoundTrip
  import opened OnnxMeaning

  // ---- importing everything that was exported ----

  /** The import state once the names `originals` of the program and the invented
      names `invented` are known. */
  predicate Imported(st: Importer, constants: Env, originals: set<string>, invented: set<string>, ops: seq<Operation>,
                     recorded: Ranks)
  {
    st.constants == constants &&
    st.reserved == originals + constants.Keys + invented &&
    st.operations == ops &&
    recorded.Keys == originals &&
    RanksAgree(recorded, st.ranks)
  }

  /** The program's names after `n` operations. */
  function Originals(p: Program, state: Env, n: nat): set<string>
    requires n <= |p.operations|
  {
    state.Keys + NameSet(p.inputs) + OperationNames(p, n)
  }

  lemma {:induction false} InputRanksKeys(inputs: seq<ValueSpec>)
    ensures InputRanks(inputs).Keys == NameSet(inputs)
  {
    if inputs != [] {
      InputRanksKeys(Front(inputs));
    }
  }

  function Erased(inputs: seq<ValueSpec>): (r: seq<ValueSpec>)
    ensures |r| == |inputs|
  {
    seq(|inputs|, i requires 0 <= i < |inputs| => Erase(inputs[i]))
  }

  lemma {:induction false} ErasedNames(inputs: seq<ValueSpec>)
    ensures NameSet(Erased(inputs)) == NameSet(inputs) && InputRanks(Erased(inputs)) == InputRanks(inputs)
  {
    if inputs != [] {
      ErasedNames(Front(inputs));
      assert Front(Erased(inputs)) == Erased(Front(inputs));
    }
  }

  lemma ErasedTypes(inputs: seq<ValueSpec>)
    ensures forall i | 0 <= i < |inputs| :: SameType(inputs[i], Erased(inputs)[i])
  {
  }

  lemma InitialRanks(p: Program, state: Env, proto: Proto)
    requires proto.inputs == Erased(p.inputs) && Sub(state, proto.initializers)
    requires forall x | x in NameSet(p.inputs) :: x !in proto.initializers
    ensures RanksAgree(InputRanks(p.inputs) + map x | x in state :: |state[x].shape|, InitialImporter(proto).ranks)
  {
    ErasedNames(p.inputs);
    InputRanksKeys(p.inputs);
    var recorded := InputRanks(p.inputs) + map x | x in state :: |state[x].shape|;
    forall x | x in recorded
      ensures x in InitialImporter(proto).ranks && InitialImporter(proto).ranks[x] == recorded[x]
    {
      if x in state {
        assert x in proto.initializers && proto.initializers[x] == state[x];
      }
    }
  }

  lemma InitiallyImported(p: Program, state: Env, proto: Proto)
    requires proto.inputs == Erased(p.inputs) && Sub(state, proto.initializers)
    requires forall x | x in NameSet(p.inputs) :: x !in proto.initializers
    ensures Imported(InitialImporter(proto), proto.initializers, state.Keys + NameSet(p.inputs), {}, [],
                     InputRanks(p.inputs) + map x | x in state :: |state[x].shape|)
  {
    ErasedNames(p.inputs);
    InputRanksKeys(p.inputs);
    InitialRanks(p, state, proto);
  }

  /** One more operation imported: its nodes are accepted exactly when its
      recorded rank exists. */
  lemma ImportMore(node: Operation, rank: nat, e: Exporter, constants: Env, originals: set<string>,
                   invented: set<string>,
                   ops: seq<Operation>, recorded: Ranks, st: Importer)
    requires WellFormed(node.operator, |node.inputs|) && LowerNode(node, rank, e).Some?
    requires Imported(st, constants, originals, invented, ops, recorded)
    requires Sub(LowerNode(node, rank, e).value.initializers, constants)
    requires forall x | x in node.inputs :: x in originals
    requires node.name !in originals + constants.Keys + invented + FreshOf(node, e)
    requires FreshOf(node, e) !! originals + constants.Keys + invented
    ensures |LowerNode(node, rank, e).value.nodes| >= |e.nodes|
    ensures var r := RecordedRank(node.operator, node.inputs, rank, recorded);
      var next := ImportNodes(Appended(node, rank, e), st);
      next.Some? == r.Some? &&
      (next.Some? ==> Imported(next.value, constants, originals + {node.name}, invented + FreshOf(node, e),
                               ops + OpsOf(node, rank, e), recorded[node.name := r.value]))
  {
    LowerAppends(node, rank, e);
    assert NewNames(node, e, st);
    assert Knows(st, node.inputs);
    if node.operator.Linear? {
      ImportLinear(node, rank, e, st);
      RecordLinear(node, rank, e, st, recorded);
    } else {
      ImportPlain(node, rank, e, st);
      RecordPlain(node, rank, e, st, recorded);
    }
  }

  lemma {:induction false} NamesGrow(p: Program, n: nat, m: nat)
    requires n <= m <= |p.operations|
    ensures OperationNames(p, n) <= OperationNames(p, m)
    decreases m - n
  {
    if n < m {
      NamesGrow(p, n, m - 1);
    }
  }

  lemma LowerKeepsConstants(node: Operation, rank: nat, e: Exporter)
    requires WellFormed(node.operator, |node.inputs|) && LowerNode(node, rank, e).Some?
    requires e.initializers.Keys <= e.reserved
    ensures Sub(e.initializers, LowerNode(node, rank, e).value.initializers)
  {
    LowerEffect(node, rank, e);
  }

  lemma InitializersReserved(p: Program, state: Env, values: Env, n: nat)
    requires AllWellFormed(p) && n <= |p.operations| && state.Keys <= values.Keys && LowerTo(p, state, values, n).Some?
    ensures LowerTo(p, state, values, n).value.initializers.Keys <= LowerTo(p, state, values, n).value.reserved
  {
    FreshNamesAreNew(p, state, values, n);
  }

  lemma {:induction false} InitializersGrow(p: Program, state: Env, values: Env, m: nat, n: nat)
    requires AllWellFormed(p) && m <= n <= |p.operations| && LowerTo(p, state, values, n).Some?
    requires state.Keys <= values.Keys
    ensures LowerTo(p, state, values, m).Some?
    ensures Sub(LowerTo(p, state, values, m).value.initializers, LowerTo(p, state, values, n).value.initializers)
    decreases n - m
  {
    if m < n {
      InitializersGrow(p, state, values, m, n - 1);
      InitializersReserved(p, state, values, n - 1);
      LowerKeepsConstants(p.operations[n - 1], RankIn(values, p.operations[n - 1]),
                          LowerTo(p, state, values, n - 1).value);
    }
  }

  /** Each operation of a validated program uses earlier names and defines a new one. */
  predicate InScope(p: Program, state: Env, i: nat)
    requires i < |p.operations|
  {
    p.operations[i].name !in Originals(p, state, i) &&
    forall x | x in p.operations[i].inputs :: x in Originals(p, state, i)
  }

  predicate Scoped(p: Program, state: Env, i: int)
  {
    0 <= i < |p.operations| ==> InScope(p, state, i) && ValidName(p.operations[i].name)
  }

  lemma ScopeAt(p: Program, state: Env, i: nat)
    requires Valid(p, state.Keys) && i < |p.operations|
    ensures InScope(p, state, i) && ValidName(p.operations[i].name)
    ensures NameSet(p.inputs) !! state.Keys
  {
    ScopeOf(p, state.Keys, 0, 0, |p.operations|);
    DeclareNames(p.inputs, state.Keys);
  }

  /** Nothing an operation brings in meets a name that is already in use. */
  lemma NamesApart(p: Program, state: Env, values: Env, n: nat)
    requires AllWellFormed(p) && n < |p.operations| && LowerTo(p, state, values, |p.operations|).Some?
    requires BindsAll(p, state, values) && NameSet(p.inputs) !! state.Keys && InScope(p, state, n)
    ensures LowerTo(p, state, values, n).Some? && LowerTo(p, state, values, n + 1).Some?
    ensures var node := p.operations[n];
      var e := LowerTo(p, state, values, n).value;
      var constants := LowerTo(p, state, values, |p.operations|).value.initializers;
      var invented := FreshTo(p, state, values, n);
      node.name !in Originals(p, state, n) + constants.Keys + invented + FreshOf(node, e) &&
      FreshOf(node, e) !! Originals(p, state, n) + constants.Keys + invented
  {
    var node := p.operations[n];
    InitializersGrow(p, state, values, n + 1, |p.operations|);
    var e := LowerTo(p, state, values, n).value;
    LowerEffect(node, RankIn(values, node), e);
    FreshNamesAreNew(p, state, values, n);
    FreshNamesAreNew(p, state, values, |p.operations|);
    FreshToGrows(p, state, values, n + 1, |p.operations|);
    NamesGrow(p, n, |p.operations|);
    NamesGrow(p, n + 1, |p.operations|);
    assert node.name in values && node.name !in state;
    assert Originals(p, state, n) <= values.Keys;
  }

  /** Importing the nodes of the first `n` operations succeeds exactly when every
      recorded rank exists, and then yields the lowered operations. */
  predicate PrefixImported(p: Program, state: Env, values: Env, n: nat, st: Importer, constants: Env)
    requires AllWellFormed(p) && n <= |p.operations|
  {
    var e := LowerTo(p, state, values, n);
    var recorded := RecordedTo(p, state, values, n);
    e.Some? &&
    var r := ImportNodes(e.value.nodes, st);
    r.Some? == recorded.Some? &&
    (r.Some? ==> Imported(r.value, constants, Originals(p, state, n), FreshTo(p, state, values, n),
                          LoweredOps(p, state, values, n), recorded.value))
  }

  /** The prefix of `n + 1` operations from that of `n` and the import of one more. */
  lemma PrefixNext(p: Program, state: Env, values: Env, n: nat, st: Importer, constants: Env,
                   e: Exporter, before: Importer, recorded: Ranks)
    requires AllWellFormed(p) && n < |p.operations| && LowerTo(p, state, values, n) == Some(e)
    requires LowerNode(p.operations[n], RankIn(values, p.operations[n]), e).Some?
    requires RecordedTo(p, state, values, n) == Some(recorded)
    requires forall x | x in p.operations[n].inputs :: x in recorded
    requires var node, rank := p.operations[n], RankIn(values, p.operations[n]);
      var r := RecordedRank(node.operator, node.inputs, rank, recorded);
      var next := ImportNodes(LowerNode(node, rank, e).value.nodes, st);
      next.Some? == r.Some? &&
      (next.Some? ==> Imported(next.value, constants, Originals(p, state, n + 1),
                               FreshTo(p, state, values, n) + FreshOf(node, e),
                               LoweredOps(p, state, values, n) + OpsOf(node, rank, e), recorded[node.name := r.value]))
    ensures PrefixImported(p, state, values, n + 1, st, constants)
  {
  }

  lemma PrefixMore(p: Program, state: Env, values: Env, n: nat, st: Importer, constants: Env,
                   e: Exporter, before: Importer, recorded: Ranks)
    requires AllWellFormed(p) && n < |p.operations| && LowerTo(p, state, values, n) == Some(e)
    requires LowerTo(p, state, values, n + 1).Some?
    requires Sub(LowerTo(p, state, values, n + 1).value.initializers, constants)
    requires LowerTo(p, state, values, |p.operations|).Some?
    requires LowerTo(p, state, values, |p.operations|).value.initializers == constants
    requires BindsAll(p, state, values) && NameSet(p.inputs) !! state.Keys && Scoped(p, state, n)
    requires RecordedTo(p, state, values, n) == Some(recorded) && ImportNodes(e.nodes, st) == Some(before)
    requires Imported(before, constants, Originals(p, state, n), FreshTo(p, state, values, n),
                      LoweredOps(p, state, values, n), recorded)
    ensures PrefixImported(p, state, values, n + 1, st, constants)
  {
    var node := p.operations[n];
    var rank := RankIn(values, node);
    LowerAppends(node, rank, e);
    ImportNodesSplit(e.nodes, Appended(node, rank, e), st);
    NamesApart(p, state, values, n);
    ImportMore(node, rank, e, constants, Originals(p, state, n), FreshTo(p, state, values, n),
               LoweredOps(p, state, values, n), recorded, before);
    assert Originals(p, state, n + 1) == Originals(p, state, n) + {node.name};
    PrefixNext(p, state, values, n, st, constants, e, before, recorded);
  }

  lemma PrefixStep(p: Program, state: Env, values: Env, n: nat, st: Importer, constants: Env)
    requires AllWellFormed(p) && n < |p.operations| && LowerTo(p, state, values, |p.operations|).Some?
    requires LowerTo(p, state, values, |p.operations|).value.initializers == constants
    requires BindsAll(p, state, values) && NameSet(p.inputs) !! state.Keys && Scoped(p, state, n)
    requires PrefixImported(p, state, values, n, st, constants)
    ensures PrefixImported(p, state, values, n + 1, st, constants)
  {
    var node := p.operations[n];
    var e := LowerTo(p, state, values, n).value;
    var rank := RankIn(values, node);
    InitializersGrow(p, state, values, n + 1, |p.operations|);
    LowerAppends(node, rank, e);
    ImportNodesSplit(e.nodes, Appended(node, rank, e), st);
    if RecordedTo(p, state, values, n).Some? {
      PrefixMore(p, state, values, n, st, constants, e, ImportNodes(e.nodes, st).value,
                 RecordedTo(p, state, values, n).value);
    }
  }

  lemma {:induction false} ImportPrefix(p: Program, state: Env, values: Env, n: nat, st: Importer, constants: Env)
    requires AllWellFormed(p) && n <= |p.operations| && LowerTo(p, state, values, |p.operations|).Some?
    requires LowerTo(p, state, values, |p.operations|).value.initializers == constants
    requires BindsAll(p, state, values) && NameSet(p.inputs) !! state.Keys
    requires forall i :: Scoped(p, state, i)
    requires Imported(st, constants, Originals(p, state, 0), {}, [], RecordedTo(p, state, values, 0).value)
    ensures PrefixImported(p, state, values, n, st, constants)
  {
    if n == 0 {
      InitializersGrow(p, state, values, 0, |p.operations|);
    } else {
      ImportPrefix(p, state, values, n - 1, st, constants);
      assert Scoped(p, state, n - 1);
      PrefixStep(p, state, values, n - 1, st, constants);
    }
  }

  // ---- validity of the lowered program ----

  lemma SmallDecimal(n: nat)
    requires n < 1_000_000
    ensures |Decimal(n)| <= 6
  {
    assert Ten(1) == 10 && Ten(2) == 100 && Ten(3) == 1_000 && Ten(4) == 10_000;
    assert Ten(5) == 100_000 && Ten(6) == 1_000_000;
    DecimalLength(n, 1_000_000, 6);
  }

  lemma FreshNameIsValid(reserved: set<string>, serial: nat)
    requires Taken(LOWERED, serial) <= reserved && |reserved| < 1_000_000
    ensures ValidName(Fresh(reserved, serial).0)
  {
    var (name, next) := Fresh(reserved, serial);
    FreshKeepsTaken(reserved, serial);
    TakenSize(LOWERED, next);
    Subset(Taken(LOWERED, next), reserved + {name});
    SmallDecimal(next - 1);
    LoweredNameIsValid(next - 1);
  }

  lemma LoweredNameIsValid(n: nat)
    requires |Decimal(n)| <= 6
    ensures ValidName(Numbered(LOWERED, n))
  {
    var name := Numbered(LOWERED, n);
    assert |LOWERED| == 18;
    forall i | 0 <= i < |name|
      ensures ' ' <= name[i] <= '~'
    {
      if i < 18 {
        assert name[i] == LOWERED[i];
      } else {
        assert name[i] == Decimal(n)[i - 18];
        assert name[i] in Decimal(n);
      }
    }
  }

  /** Reserved names stay few, so invented names stay short. */
  lemma {:induction false} SerialsStayBelow(p: Program, state: Env, values: Env, n: nat)
    requires AllWellFormed(p) && n <= |p.operations| && LowerTo(p, state, values, n).Some?
    ensures var e := LowerTo(p, state, values, n).value;
      Taken(LOWERED, e.serial) <= e.reserved && |e.reserved| <= |values.Keys| + 2 * n
  {
    if n > 0 {
      SerialsStayBelow(p, state, values, n - 1);
      LowerSerial(p.operations[n - 1], RankIn(values, p.operations[n - 1]), LowerTo(p, state, values, n - 1).value);
    }
  }

  lemma LowerSerial(node: Operation, rank: nat, e: Exporter)
    requires WellFormed(node.operator, |node.inputs|) && LowerNode(node, rank, e).Some?
    requires Taken(LOWERED, e.serial) <= e.reserved
    ensures var e' := LowerNode(node, rank, e).value;
      Taken(LOWERED, e'.serial) <= e'.reserved && |e'.reserved| <= |e.reserved| + 2
  {
    var (t, s1) := Fresh(e.reserved, e.serial);
    FreshKeepsTaken(e.reserved, e.serial);
    FreshKeepsTaken(e.reserved + {t}, s1);
  }

  lemma SecondFreshIsValid(reserved: set<string>, serial: nat)
    requires Taken(LOWERED, serial) <= reserved && |reserved| < 999_999
    ensures var (t, next) := Fresh(reserved, serial); ValidName(Fresh(reserved + {t}, next).0)
  {
    var (t, next) := Fresh(reserved, serial);
    FreshKeepsTaken(reserved, serial);
    assert |reserved + {t}| == |reserved| + 1;
    FreshNameIsValid(reserved + {t}, next);
  }

  /** Every invented value name is a valid name. */
  lemma InventedNamesAreValid(node: Operation, e: Exporter)
    requires WellFormed(node.operator, |node.inputs|) && Taken(LOWERED, e.serial) <= e.reserved
    requires |e.reserved| < 999_999
    ensures forall x | x in FreshOf(node, e) :: ValidName(x)
    ensures ValidName(Fresh(e.reserved, e.serial).0)
  {
    FreshNameIsValid(e.reserved, e.serial);
    SecondFreshIsValid(e.reserved, e.serial);
    forall x | x in FreshOf(node, e)
      ensures ValidName(x)
    {
      var (t, next) := Fresh(e.reserved, e.serial);
      assert x == t || x == Fresh(e.reserved + {t}, next).0;
    }
  }

  // ---- operation lists that validate ----

  predicate ValidOps(ops: seq<Operation>, names: set<string>)
  {
    ops != [] ==>
      ValidName(ops[0].name) && ops[0].name !in names && (forall x | x in ops[0].inputs :: x in names) &&
      !ops[0].operator.If? && WellFormed(ops[0].operator, |ops[0].inputs|) &&
      ValidOps(ops[1..], names + {ops[0].name})
  }

  function NamesOf(ops: seq<Operation>): set<string>
  {
    if ops == [] then {} else {ops[0].name} + NamesOf(ops[1..])
  }

  lemma {:induction false} ValidateChunk(p: Program, state: set<string>, j: nat, ops: seq<Operation>,
                                         names: set<string>, spent: nat)
    requires j + |ops| <= |p.operations| && p.operations[j..j + |ops|] == ops
    requires ValidateTo(p, state, 0, 0, j) == Some((names, spent)) && ValidOps(ops, names)
    ensures ValidateTo(p, state, 0, 0, j + |ops|) == Some((names + NamesOf(ops), spent))
    decreases |ops|
  {
    if ops != [] {
      assert p.operations[j] == ops[0];
      assert ValidateTo(p, state, 0, 0, j + 1) == Some((names + {ops[0].name}, spent));
      assert p.operations[j + 1..j + |ops|] == ops[1..];
      ValidateChunk(p, state, j + 1, ops[1..], names + {ops[0].name}, spent);
      assert names + {ops[0].name} + NamesOf(ops[1..]) == names + NamesOf(ops);
    } else {
      assert names + NamesOf(ops) == names;
    }
  }

  predicate ValidOp(o: Operation, names: set<string>)
  {
    ValidName(o.name) && o.name !in names && (forall x | x in o.inputs :: x in names) &&
    !o.operator.If? && WellFormed(o.operator, |o.inputs|)
  }

  lemma ValidCons(o: Operation, os: seq<Operation>, names: set<string>)
    requires ValidOp(o, names) && ValidOps(os, names + {o.name})
    ensures ValidOps([o] + os, names) && NamesOf([o] + os) == {o.name} + NamesOf(os)
  {
    assert ([o] + os)[1..] == os;
  }

  lemma FlipIsValid(t: string, w: string, names: set<string>)
    requires ValidName(t) && t !in names && w in names
    ensures ValidOp(Operation(t, Permute([1, 0]), [w]), names)
  {
    assert [1, 0][1] == 0 && [1, 0][0] == 1;
    assert SameAxes([1, 0]);
  }

  lemma PairIsValid(t: string, name: string, x: string, w: string, names: set<string>)
    requires ValidName(t) && ValidName(name) && t !in names && name !in names && t != name && x in names && w in names
    ensures var ops := [Operation(t, Permute([1, 0]), [w])] + [Operation(name, Matmul, [x, t])];
      ValidOps(ops, names) && NamesOf(ops) == {t, name}
  {
    var o := Operation(name, Matmul, [x, t]);
    FlipIsValid(t, w, names);
    ValidCons(o, [], names + {t});
    assert [o] + [] == [o];
    ValidCons(Operation(t, Permute([1, 0]), [w]), [o], names);
  }

  lemma TripleIsValid(t: string, m: string, name: string, x: string, w: string, b: string, names: set<string>)
    requires ValidName(t) && ValidName(m) && ValidName(name) && t !in names && m !in names && name !in names
    requires t != m && t != name && m != name && x in names && w in names && b in names
    ensures var ops := [Operation(t, Permute([1, 0]), [w])] + [Operation(m, Matmul, [x, t])] +
      [Operation(name, Add, [m, b])];
      ValidOps(ops, names) && NamesOf(ops) == {t, m, name}
  {
    var flip := Operation(t, Permute([1, 0]), [w]);
    var o := Operation(m, Matmul, [x, t]);
    var o' := Operation(name, Add, [m, b]);
    FlipIsValid(t, w, names);
    ValidCons(o', [], names + {t} + {m});
    assert [o'] + [] == [o'];
    ValidCons(o, [o'], names + {t});
    ValidCons(flip, [o] + [o'], names);
    assert [flip] + [o] + [o'] == [flip] + ([o] + [o']);
  }

  lemma LinearOpsAreValid(node: Operation, rank: nat, e: Exporter, names: set<string>)
    requires WellFormed(node.operator, |node.inputs|) && node.operator.Linear? && ValidName(node.name)
    requires forall x | x in FreshOf(node, e) :: ValidName(x)
    requires forall x | x in node.inputs :: x in names
    requires node.name !in names + FreshOf(node, e) && FreshOf(node, e) !! names
    ensures ValidOps(OpsOf(node, rank, e), names)
    ensures NamesOf(OpsOf(node, rank, e)) == {node.name} + FreshOf(node, e)
  {
    var (t, s1) := Fresh(e.reserved, e.serial);
    assert t in FreshOf(node, e);
    if |node.inputs| == 2 {
      PairIsValid(t, node.name, node.inputs[0], node.inputs[1], names);
      assert OpsOf(node, rank, e) ==
        [Operation(t, Permute([1, 0]), [node.inputs[1]])] + [Operation(node.name, Matmul, [node.inputs[0], t])];
    } else {
      var m := Fresh(e.reserved + {t}, s1).0;
      assert m in FreshOf(node, e) && m != t;
      TripleIsValid(t, m, node.name, node.inputs[0], node.inputs[1], node.inputs[2], names);
      assert OpsOf(node, rank, e) ==
        [Operation(t, Permute([1, 0]), [node.inputs[1]])] + [Operation(m, Matmul, [node.inputs[0], t])]
        + [Operation(node.name, Add, [m, node.inputs[2]])];
    }
  }

  lemma OpsOfAreValid(node: Operation, rank: nat, e: Exporter, names: set<string>)
    requires WellFormed(node.operator, |node.inputs|) && LowerNode(node, rank, e).Some? && rank <= 64
    requires ValidName(node.name)
    requires forall x | x in FreshOf(node, e) :: ValidName(x)
    requires forall x | x in node.inputs :: x in names
    requires node.name !in names + FreshOf(node, e) && FreshOf(node, e) !! names
    ensures ValidOps(OpsOf(node, rank, e), names)
    ensures NamesOf(OpsOf(node, rank, e)) == {node.name} + FreshOf(node, e)
  {
    if node.operator.Linear? {
      LinearOpsAreValid(node, rank, e, names);
    } else {
      var o := OpsOf(node, rank, e)[0];
      if node.operator.Transpose? {
        var a := Axis(node.operator.dim0, rank).value;
        var b := Axis(node.operator.dim1, rank).value;
        SwappedIotaIsPermutation(rank, a, b);
      }
      ValidCons(o, [], names);
      assert OpsOf(node, rank, e) == [o] + [];
    }
  }

  // ---- ranks stay small ----

  lemma {:induction false} BroadcastRank(a: seq<nat>, b: seq<nat>)
    requires BroadcastShape(a, b).Some?
    ensures |BroadcastShape(a, b).value| == if |a| >= |b| then |a| else |b|
  {
    if a != [] && b != [] {
      BroadcastRank(Front(a), Front(b));
    }
  }

  lemma ShapeRank(op: Operator, shapes: seq<seq<nat>>)
    requires ArityOk(op, |shapes|) && WellFormed(op, |shapes|) && ShapeOf(op, shapes).Some?
    requires forall i | 0 <= i < |shapes| :: |shapes[i]| <= 64
    ensures |ShapeOf(op, shapes).value| <= 64
  {
    if op.Add? || op.Subtract? || op.Multiply? {
      BroadcastRank(shapes[0], shapes[1]);
    } else if op.Matmul? {
      BroadcastRank(Batch(shapes[0]), Batch(shapes[1]));
    } else if op.Cat? {
      var kept := Kept(shapes);
      assert kept != [] ==> kept[0] in shapes;
    }
  }

  predicate RanksBounded(env: Env)
  {
    forall n | n in env :: |env[n].shape| <= 64
  }

  lemma {:induction false} RunRanksBounded(k: Kernels, p: Program, inputs: seq<Tensor>, state: Env, n: nat)
    requires Valid(p, state.Keys) && RanksBounded(state) && n <= |p.operations| && RunTo(k, p, inputs, state, n).Ok?
    requires forall i | 0 <= i < |p.operations| :: !p.operations[i].operator.If?
    ensures RanksBounded(RunTo(k, p, inputs, state, n).value)
  {
    if n == 0 {
      PrefixValid(p, state.Keys, 0, 0, 0);
      DeclareNames(p.inputs, state.Keys);
      BindKeys(state, p.inputs, inputs);
      GuardsAreExact(p.inputs, inputs);
      var env := RunTo(k, p, inputs, state, 0).value;
      forall x | x in env
        ensures |env[x].shape| <= 64
      {
        if x !in state {
          var i := NameSetMembers(p.inputs, x);
          assert MeetsAll(inputs[i].shape, p.inputs[i].dimensions, CheckInputs(p.inputs, inputs).value);
          assert ValidSpec(p.inputs[i]);
        }
      }
    } else {
      RunRanksBounded(k, p, inputs, state, n - 1);
      OperandsBound(k, p, inputs, state, 0, 0, n);
      AdvanceRank(k, p.operations[n - 1], RunTo(k, p, inputs, state, n - 1).value, state);
    }
  }

  lemma AdvanceRank(k: Kernels, node: Operation, env: Env, state: Env)
    requires RanksBounded(env) && WellFormed(node.operator, |node.inputs|) && !node.operator.If?
    requires Advance(k, node, env, state).Ok?
    ensures RanksBounded(Advance(k, node, env, state).value)
  {
    AdvanceInverse(k, node, env, state);
    var xs := Lookup(env, node.inputs);
    forall i | 0 <= i < |xs|
      ensures |Shapes(xs)[i]| <= 64
    {
      assert node.inputs[i] in env;
    }
    if node.operator.Identity? {
      assert Shapes(xs)[0] == xs[0].shape;
    } else {
      ShapeRank(node.operator, Shapes(xs));
    }
  }

  // ---- the lowered program validates ----

  /** Operations an export writes for the first `n` operations. */
  function LoweredCount(p: Program, n: nat): nat
    requires n <= |p.operations|
  {
    if n == 0 then 0
    else LoweredCount(p, n - 1) + if p.operations[n - 1].operator.Linear? then |p.operations[n - 1].inputs| else 1
  }

  function ReshapeCount(p: Program, n: nat): nat
    requires n <= |p.operations|
  {
    if n == 0 then 0 else ReshapeCount(p, n - 1) + if p.operations[n - 1].operator.Reshape? then 1 else 0
  }

  lemma {:induction false} NodeCount(p: Program, state: Env, values: Env, n: nat)
    requires AllWellFormed(p) && n <= |p.operations| && LowerTo(p, state, values, n).Some?
    ensures |LoweredOps(p, state, values, n)| == LoweredCount(p, n) == |LowerTo(p, state, values, n).value.nodes|
  {
    if n > 0 {
      NodeCount(p, state, values, n - 1);
      var node := p.operations[n - 1];
      var e := LowerTo(p, state, values, n - 1).value;
      LowerAppends(node, RankIn(values, node), e);
      OpsCount(node, RankIn(values, node), e);
    }
  }

  lemma OpsCount(node: Operation, rank: nat, e: Exporter)
    requires WellFormed(node.operator, |node.inputs|) && LowerNode(node, rank, e).Some?
    ensures |OpsOf(node, rank, e)| == if node.operator.Linear? then |node.inputs| else 1
  {
  }

  lemma {:induction false} ConstantCount(p: Program, state: Env, values: Env, n: nat)
    requires AllWellFormed(p) && n <= |p.operations| && state.Keys <= values.Keys && LowerTo(p, state, values, n).Some?
    ensures |LowerTo(p, state, values, n).value.initializers| == |state| + ReshapeCount(p, n)
  {
    if n > 0 {
      ConstantCount(p, state, values, n - 1);
      ConstantStep(p, state, values, n - 1);
    }
  }

  lemma ConstantStep(p: Program, state: Env, values: Env, n: nat)
    requires AllWellFormed(p) && n < |p.operations| && state.Keys <= values.Keys
    requires LowerTo(p, state, values, n + 1).Some?
    ensures LowerTo(p, state, values, n).Some?
    ensures |LowerTo(p, state, values, n + 1).value.initializers|
         == |LowerTo(p, state, values, n).value.initializers| + if p.operations[n].operator.Reshape? then 1 else 0
  {
    InitializersReserved(p, state, values, n);
    LoweredConstants(p.operations[n], RankIn(values, p.operations[n]), LowerTo(p, state, values, n).value);
  }

  lemma LoweredConstants(node: Operation, rank: nat, e: Exporter)
    requires WellFormed(node.operator, |node.inputs|) && LowerNode(node, rank, e).Some?
    requires e.initializers.Keys <= e.reserved
    ensures |LowerNode(node, rank, e).value.initializers| == |e.initializers| + if node.operator.Reshape? then 1 else 0
  {
    if node.operator.Reshape? {
      var name := Fresh(e.reserved, e.serial).0;
      var grown := e.initializers[name := IntVector(node.operator.shape)];
      assert grown.Keys == e.initializers.Keys + {name};
      assert |grown| == |grown.Keys| && |e.initializers| == |e.initializers.Keys|;
    }
  }

  /** What the lowered program may assume about the model it came from. */
  predicate Exported(p: Program, state: Env, values: Env)
  {
    AllWellFormed(p) && LowerTo(p, state, values, |p.operations|).Some? && BindsAll(p, state, values) &&
    NameSet(p.inputs) !! state.Keys && RanksBounded(values) && |values.Keys| + 2 * |p.operations| < 999_999
  }

  /** The names in scope after the first `n` operations are imported. */
  function ImportedNames(p: Program, state: Env, values: Env, n: nat): set<string>
    requires AllWellFormed(p) && n <= |p.operations|
    requires LowerTo(p, state, values, n).Some? && LowerTo(p, state, values, |p.operations|).Some?
  {
    LowerTo(p, state, values, |p.operations|).value.initializers.Keys + Originals(p, state, n) +
      FreshTo(p, state, values, n)
  }

  lemma ChunkValidates(p: Program, state: Env, values: Env, n: nat)
    requires Exported(p, state, values) && Scoped(p, state, n) && n < |p.operations|
    requires LowerTo(p, state, values, n).Some?
    ensures LowerTo(p, state, values, n + 1).Some?
    ensures var node := p.operations[n];
      var e := LowerTo(p, state, values, n).value;
      ValidOps(OpsOf(node, RankIn(values, node), e), ImportedNames(p, state, values, n)) &&
      NamesOf(OpsOf(node, RankIn(values, node), e)) == {node.name} + FreshOf(node, e)
  {
    var node := p.operations[n];
    var e := LowerTo(p, state, values, n).value;
    NamesApart(p, state, values, n);
    SerialsStayBelow(p, state, values, n);
    InventedNamesAreValid(node, e);
    RankIsSmall(node, values);
    OpsOfAreValid(node, RankIn(values, node), e, ImportedNames(p, state, values, n));
  }

  lemma RankIsSmall(node: Operation, values: Env)
    requires RanksBounded(values)
    ensures RankIn(values, node) <= 64
  {
  }

  lemma {:induction false} ValidOpsAppend(a: seq<Operation>, b: seq<Operation>, names: set<string>)
    requires ValidOps(a, names) && ValidOps(b, names + NamesOf(a))
    ensures ValidOps(a + b, names) && NamesOf(a + b) == NamesOf(a) + NamesOf(b)
  {
    if a == [] {
      assert a + b == b;
      assert names + NamesOf(a) == names;
    } else {
      assert (a + b)[1..] == a[1..] + b;
      assert names + {a[0].name} + NamesOf(a[1..]) == names + NamesOf(a);
      ValidOpsAppend(a[1..], b, names + {a[0].name});
    }
  }

  /** The lowered operations of every prefix are valid after the constants and inputs. */
  predicate PrefixValidates(p: Program, state: Env, values: Env, n: nat, start: set<string>)
    requires AllWellFormed(p)
  {
    n <= |p.operations| && LowerTo(p, state, values, n).Some? &&
    ValidOps(LoweredOps(p, state, values, n), start) &&
    NamesOf(LoweredOps(p, state, values, n)) == OperationNames(p, n) + FreshTo(p, state, values, n)
  }

  lemma AppendValidates(a: seq<Operation>, b: seq<Operation>, start: set<string>, names: set<string>,
                        invented: set<string>,
                        name: string, more: set<string>)
    requires ValidOps(a, start) && NamesOf(a) == names + invented
    requires ValidOps(b, start + names + invented) && NamesOf(b) == {name} + more
    ensures ValidOps(a + b, start) && NamesOf(a + b) == names + {name} + (invented + more)
  {
    assert start + NamesOf(a) == start + names + invented;
    ValidOpsAppend(a, b, start);
  }

  function OpsAt(p: Program, state: Env, values: Env, n: nat): seq<Operation>
    requires AllWellFormed(p) && n < |p.operations| && LowerTo(p, state, values, n).Some?
  {
    OpsOf(p.operations[n], RankIn(values, p.operations[n]), LowerTo(p, state, values, n).value)
  }

  /** The operations of node `n` are valid after those of the nodes before it. */
  predicate ChunkOk(p: Program, state: Env, values: Env, n: int, start: set<string>)
    requires AllWellFormed(p)
  {
    0 <= n < |p.operations| ==>
      LowerTo(p, state, values, n).Some? &&
      ValidOps(OpsAt(p, state, values, n), start + OperationNames(p, n) + FreshTo(p, state, values, n)) &&
      NamesOf(OpsAt(p, state, values, n)) == {p.operations[n].name} +
        FreshOf(p.operations[n], LowerTo(p, state, values, n).value)
  }

  lemma NextChunk(p: Program, state: Env, values: Env, n: nat, start: set<string>)
    requires Exported(p, state, values) && Scoped(p, state, n) && n < |p.operations|
    requires LowerTo(p, state, values, n).Some?
    requires start == LowerTo(p, state, values, |p.operations|).value.initializers.Keys + NameSet(p.inputs)
    requires state.Keys <= start
    ensures ChunkOk(p, state, values, n, start)
  {
    ChunkValidates(p, state, values, n);
    assert start + OperationNames(p, n) + FreshTo(p, state, values, n) == ImportedNames(p, state, values, n);
  }

  lemma ValidatesMore(p: Program, state: Env, values: Env, n: nat, start: set<string>, ops: seq<Operation>,
                      more: set<string>)
    requires AllWellFormed(p) && n < |p.operations| && LowerTo(p, state, values, n + 1).Some?
    requires PrefixValidates(p, state, values, n, start)
    requires ops == OpsAt(p, state, values, n) && more == FreshOf(p.operations[n], LowerTo(p, state, values, n).value)
    requires ValidOps(ops, start + OperationNames(p, n) + FreshTo(p, state, values, n))
    requires NamesOf(ops) == {p.operations[n].name} + more
    ensures PrefixValidates(p, state, values, n + 1, start)
  {
    AppendValidates(LoweredOps(p, state, values, n), ops, start, OperationNames(p, n), FreshTo(p, state, values, n),
                    p.operations[n].name, more);
  }

  /** If the prefix of `n` operations validates, so does the next. */
  predicate StaysValid(p: Program, state: Env, values: Env, n: nat, start: set<string>)
    requires AllWellFormed(p)
  {
    n < |p.operations| && LowerTo(p, state, values, n + 1).Some? && PrefixValidates(p, state, values, n, start) ==>
      PrefixValidates(p, state, values, n + 1, start)
  }

  lemma NextValidates(p: Program, state: Env, values: Env, n: nat, start: set<string>)
    requires AllWellFormed(p) && ChunkOk(p, state, values, n, start)
    ensures StaysValid(p, state, values, n, start)
  {
    if n < |p.operations| && LowerTo(p, state, values, n + 1).Some? && PrefixValidates(p, state, values, n, start) {
      ValidatesMore(p, state, values, n, start, OpsAt(p, state, values, n),
                    FreshOf(p.operations[n], LowerTo(p, state, values, n).value));
    }
  }

  predicate NextValid(p: Program, state: Env, values: Env, n: nat, start: set<string>)
    requires AllWellFormed(p)
  {
    PrefixValidates(p, state, values, n, start) ==> PrefixValidates(p, state, values, n + 1, start)
  }

  lemma {:induction false} LoweredValidates(p: Program, state: Env, values: Env, n: nat, start: set<string>)
    requires AllWellFormed(p) && PrefixValidates(p, state, values, 0, start)
    requires forall i: nat | i < n :: NextValid(p, state, values, i, start)
    ensures PrefixValidates(p, state, values, n, start)
    decreases n
  {
    if n > 0 {
      LoweredValidates(p, state, values, n - 1, start);
      assert NextValid(p, state, values, n - 1, start);
    }
  }

  lemma LoweredSome(p: Program, state: Env, values: Env, n: nat)
    requires AllWellFormed(p) && n <= |p.operations| && LowerTo(p, state, values, |p.operations|).Some?
    ensures LowerTo(p, state, values, n).Some?
  {
    if LowerTo(p, state, values, n).None? {
      LowerFailsForGood(p, state, values, n);
    }
  }

  // ---- the results ----

  /** The size limits of import, on the original model. */
  predicate FitsLimits(p: Program, state: Env)
  {
    |p.inputs| + LoweredCount(p, |p.operations|) <= MAX_NODES && |state| + ReshapeCount(p, |p.operations|) <= MAX_NODES
  }

  /** The program and constants an export stands for. */
  function Lowered(p: Program, state: Env, values: Env): (Program, Env)
    requires AllWellFormed(p) && LowerTo(p, state, values, |p.operations|).Some?
  {
    (Program(1, 1, p.inputs, p.inputTree, LoweredOps(p, state, values, |p.operations|), p.outputTree),
     LowerTo(p, state, values, |p.operations|).value.initializers)
  }

  /** The run `save` observes. */
  function ExampleRun(k: Kernels, p: Program, state: Env): Outcome<Env>
  {
    var examples := Examples(p.inputs);
    if examples.None? then Failed else RunTo(k, p, examples.value, state, |p.operations|)
  }

  lemma SaveParts(k: Kernels, p: Program, state: Env)
    requires Valid(p, state.Keys) && Save(k, p, state).Some?
    ensures AllWellFormed(p) && Examples(p.inputs).Some? && ExampleRun(k, p, state).Ok? && Infer(p, state).Some?
    ensures LowerTo(p, state, ExampleRun(k, p, state).value, |p.operations|).Some?
    ensures var e := LowerTo(p, state, ExampleRun(k, p, state).value, |p.operations|).value;
      Save(k, p, state).value == Proto(e.nodes, e.initializers, Erased(p.inputs), Leaves(p.outputTree).value,
                                       Some(p.inputs), Some(p.inputTree), Some(p.outputTree))
    ensures Leaves(p.outputTree).Some?
  {
    ValidIsWellFormed(p, state.Keys);
  }

  /** Declaring distinct valid inputs succeeds whenever their names are new. */
  lemma {:induction false} DeclareNew(inputs: seq<ValueSpec>, names: set<string>)
    requires DistinctNames(inputs) && (forall s | s in inputs :: ValidSpec(s)) && NameSet(inputs) !! names
    ensures Declare(inputs, names) == Some(names + NameSet(inputs))
  {
    if inputs == [] {
      assert names + NameSet(inputs) == names;
    } else {
      assert forall s | s in Front(inputs) :: s in inputs;
      DeclareNew(Front(inputs), names);
      assert Last(inputs).name !in NameSet(Front(inputs)) by {
        if Last(inputs).name in NameSet(Front(inputs)) {
          var i := NameSetMembers(Front(inputs), Last(inputs).name);
        }
      }
      assert Last(inputs) in inputs;
      assert names + NameSet(Front(inputs)) + {Last(inputs).name} == names + NameSet(inputs);
    }
  }

  predicate HeaderGood(q: Program, names: set<string>)
  {
    q.version == 1 && q.operatorVersion == 1 && Leaves(q.inputTree) == Some(SpecNames(q.inputs)) &&
    Declare(q.inputs, names) == Some(names + NameSet(q.inputs))
  }

  predicate BodyGood(q: Program, names: set<string>)
  {
    ValidOps(q.operations, names + NameSet(q.inputs))
  }

  predicate OutputsGood(q: Program, names: set<string>)
  {
    var outputs := Leaves(q.outputTree);
    outputs.Some? && outputs.value != [] && forall o | o in outputs.value ::
      o in names + NameSet(q.inputs) + NamesOf(q.operations)
  }

  /** A program with sound parts validates exactly when it is small enough. */
  lemma GoodPartsValidate(q: Program, names: set<string>)
    requires HeaderGood(q, names) && BodyGood(q, names) && OutputsGood(q, names)
    ensures Valid(q, names) <==> |q.inputs| + |q.operations| <= MAX_NODES
  {
    var spent := |q.operations| + |q.inputs|;
    var start := names + NameSet(q.inputs);
    if spent <= MAX_NODES {
      assert ValidateTo(q, names, 0, 0, 0) == Some((start, spent));
      assert q.operations[0..|q.operations|] == q.operations;
      ValidateChunk(q, names, 0, q.operations, start, spent);
    } else {
      RejectsForGood(q, names, 0, 0, 0);
    }
  }

  lemma StartNames(p: Program, state: Env, values: Env)
    requires AllWellFormed(p) && LowerTo(p, state, values, |p.operations|).Some? && BindsAll(p, state, values)
    ensures NameSet(p.inputs) !! state.Keys ==> NameSet(p.inputs) !! Lowered(p, state, values).1.Keys
    ensures state.Keys <= Lowered(p, state, values).1.Keys
  {
    FreshNamesAreNew(p, state, values, |p.operations|);
  }

  lemma LoweredHeader(p: Program, state: Env, q: Program, names: set<string>)
    requires Valid(p, state.Keys) && NameSet(p.inputs) !! names
    requires q.version == 1 && q.operatorVersion == 1 && q.inputs == p.inputs && q.inputTree == p.inputTree
    ensures HeaderGood(q, names)
  {
    PrefixValid(p, state.Keys, 0, 0, 0);
    DeclareNames(p.inputs, state.Keys);
    DeclareNew(p.inputs, names);
  }

  lemma LoweredBody(p: Program, state: Env, values: Env)
    requires Exported(p, state, values) && Valid(p, state.Keys)
    ensures BodyGood(Lowered(p, state, values).0, Lowered(p, state, values).1.Keys)
    ensures PrefixValidates(p, state, values, |p.operations|, Lowered(p, state, values).1.Keys + NameSet(p.inputs))
  {
    var start := LowerTo(p, state, values, |p.operations|).value.initializers.Keys + NameSet(p.inputs);
    assert state.Keys <= start by {
      StartNames(p, state, values);
    }
    AllChunksOk(p, state, values, start);
    LoweredUpTo(p, state, values, |p.operations|);
    forall i: nat | i < |p.operations|
      ensures NextValid(p, state, values, i, start)
    {
      assert LowerTo(p, state, values, i + 1).Some?;
      NextValidates(p, state, values, i, start);
    }
    LoweredValidates(p, state, values, |p.operations|, start);
  }

  lemma LoweredOutputs(p: Program, state: Env, values: Env)
    requires AllWellFormed(p) && LowerTo(p, state, values, |p.operations|).Some? && BindsAll(p, state, values)
    requires state.Keys <= Lowered(p, state, values).1.Keys
    requires PrefixValidates(p, state, values, |p.operations|, Lowered(p, state, values).1.Keys + NameSet(p.inputs))
    requires Leaves(p.outputTree).Some? && Leaves(p.outputTree).value != []
    requires forall o | o in Leaves(p.outputTree).value :: o in values
    ensures OutputsGood(Lowered(p, state, values).0, Lowered(p, state, values).1.Keys)
  {
  }

  /** The lowered program validates exactly when it is small enough. */
  lemma LoweredIsValid(p: Program, state: Env, values: Env)
    requires Exported(p, state, values) && Valid(p, state.Keys)
    ensures Valid(Lowered(p, state, values).0, Lowered(p, state, values).1.Keys)
      <==> |p.inputs| + LoweredCount(p, |p.operations|) <= MAX_NODES
  {
    var (q, constants) := Lowered(p, state, values);
    NodeCount(p, state, values, |p.operations|);
    LoweredBody(p, state, values);
    LoweredEnds(p, state, values);
    GoodPartsValidate(q, constants.Keys);
  }

  lemma LoweredEnds(p: Program, state: Env, values: Env)
    requires Exported(p, state, values) && Valid(p, state.Keys)
    requires PrefixValidates(p, state, values, |p.operations|, Lowered(p, state, values).1.Keys + NameSet(p.inputs))
    ensures HeaderGood(Lowered(p, state, values).0, Lowered(p, state, values).1.Keys)
    ensures OutputsGood(Lowered(p, state, values).0, Lowered(p, state, values).1.Keys)
  {
    var (q, constants) := Lowered(p, state, values);
    StartNames(p, state, values);
    LoweredHeader(p, state, q, constants.Keys);
    OutputsKnown(p, state, values);
    LoweredOutputs(p, state, values);
  }

  lemma AllScoped(p: Program, state: Env)
    requires Valid(p, state.Keys)
    ensures forall i :: Scoped(p, state, i)
  {
    forall i
      ensures Scoped(p, state, i)
    {
      if 0 <= i < |p.operations| {
        ScopeAt(p, state, i);
      }
    }
  }

  lemma AllChunksOk(p: Program, state: Env, values: Env, start: set<string>)
    requires Exported(p, state, values) && Valid(p, state.Keys)
    requires start == LowerTo(p, state, values, |p.operations|).value.initializers.Keys + NameSet(p.inputs)
    requires state.Keys <= start
    ensures forall i :: ChunkOk(p, state, values, i, start)
  {
    AllScoped(p, state);
    forall i
      ensures ChunkOk(p, state, values, i, start)
    {
      if 0 <= i < |p.operations| {
        assert Scoped(p, state, i);
        LoweredSome(p, state, values, i);
        NextChunk(p, state, values, i, start);
      }
    }
  }

  /** The outputs of a validated program are among its names. */
  lemma OutputsKnown(p: Program, state: Env, values: Env)
    requires Valid(p, state.Keys) && BindsAll(p, state, values)
    ensures Leaves(p.outputTree).Some? && Leaves(p.outputTree).value != []
    ensures forall o | o in Leaves(p.outputTree).value :: o in values
  {
    ScopeOf(p, state.Keys, 0, 0, |p.operations|);
  }

  // ---- discharging the side conditions ----

  lemma {:induction false} NoBranches(p: Program, state: Env, values: Env, n: nat)
    requires AllWellFormed(p) && n <= |p.operations| && LowerTo(p, state, values, n).Some?
    ensures forall i | 0 <= i < n :: !p.operations[i].operator.If?
  {
    if n > 0 {
      NoBranches(p, state, values, n - 1);
    }
  }

  lemma {:induction false} NameSetSize(specs: seq<ValueSpec>)
    ensures |NameSet(specs)| <= |specs|
  {
    if specs != [] {
      NameSetSize(Front(specs));
    }
  }

  lemma {:induction false} OperationNamesSize(p: Program, n: nat)
    requires n <= |p.operations|
    ensures |OperationNames(p, n)| <= n
  {
    if n > 0 {
      OperationNamesSize(p, n - 1);
    }
  }

  /** Names are few: the node limit bounds inputs and operations. */
  lemma FewNames(p: Program, state: Env, values: Env)
    requires ArtifactOk(p, state.Keys) && BindsAll(p, state, values)
    ensures |values.Keys| + 2 * |p.operations| <= 40_000
  {
    PrefixValid(p, state.Keys, 0, 0, 0);
    NameSetSize(p.inputs);
    OperationNamesSize(p, |p.operations|);
    UnionSize(state.Keys, NameSet(p.inputs), OperationNames(p, |p.operations|));
  }

  lemma UnionSize<T>(a: set<T>, b: set<T>, c: set<T>)
    ensures |a + b + c| <= |a| + |b| + |c|
  {
  }

  lemma {:induction false} ConstantNamesValid(p: Program, state: Env, values: Env, n: nat)
    requires AllWellFormed(p) && n <= |p.operations| && LowerTo(p, state, values, n).Some?
    requires (forall x | x in state :: ValidName(x)) && |values.Keys| + 2 * |p.operations| < 999_999
    ensures forall x | x in LowerTo(p, state, values, n).value.initializers :: ValidName(x)
  {
    if n > 0 {
      ConstantNamesValid(p, state, values, n - 1);
      SerialsStayBelow(p, state, values, n - 1);
      ConstantNameStep(p.operations[n - 1], RankIn(values, p.operations[n - 1]),
                       LowerTo(p, state, values, n - 1).value);
    }
  }

  lemma ConstantNameStep(node: Operation, rank: nat, e: Exporter)
    requires WellFormed(node.operator, |node.inputs|) && LowerNode(node, rank, e).Some?
    requires Taken(LOWERED, e.serial) <= e.reserved && |e.reserved| < 999_999
    requires forall x | x in e.initializers :: ValidName(x)
    ensures forall x | x in LowerNode(node, rank, e).value.initializers :: ValidName(x)
  {
    FreshNameIsValid(e.reserved, e.serial);
  }

  /** Everything the exporter observed about a model it accepted. */
  lemma SavedFacts(k: Kernels, p: Program, state: Env)
    requires ArtifactOk(p, state.Keys) && RanksBounded(state) && Save(k, p, state).Some?
    ensures ExampleRun(k, p, state).Ok? && Exported(p, state, ExampleRun(k, p, state).value)
  {
    SaveParts(k, p, state);
    var values := ExampleRun(k, p, state).value;
    StateBound(k, p, Examples(p.inputs).value, state, values);
    FewNames(p, state, values);
    NoBranches(p, state, values, |p.operations|);
    RunRanksBounded(k, p, Examples(p.inputs).value, state, |p.operations|);
    PrefixValid(p, state.Keys, 0, 0, 0);
    DeclareNames(p.inputs, state.Keys);
  }

  lemma SavedConstants(p: Program, state: Env, values: Env)
    requires Exported(p, state, values)
    ensures Sub(state, Lowered(p, state, values).1) && NameSet(p.inputs) !! Lowered(p, state, values).1.Keys
  {
    StartNames(p, state, values);
    FreshNamesAreNew(p, state, values, |p.operations|);
  }

  /** The importer of a saved graph before its first node. */
  lemma SavedStart(p: Program, state: Env, values: Env, proto: Proto)
    requires AllWellFormed(p) && Sub(state, proto.initializers) && NameSet(p.inputs) !! proto.initializers.Keys
    requires proto.inputs == Erased(p.inputs)
    ensures NameSet(proto.inputs) == NameSet(p.inputs)
    ensures Imported(InitialImporter(proto), proto.initializers, Originals(p, state, 0), {}, [],
                     RecordedTo(p, state, values, 0).value)
  {
    ErasedNames(p.inputs);
    InitiallyImported(p, state, proto);
    assert Originals(p, state, 0) == state.Keys + NameSet(p.inputs);
  }

  /** The import loop over a saved graph. */
  lemma SavedNodesImport(p: Program, state: Env, values: Env, proto: Proto)
    requires Exported(p, state, values) && Valid(p, state.Keys)
    requires proto.inputs == Erased(p.inputs)
    requires proto.nodes == LowerTo(p, state, values, |p.operations|).value.nodes
    requires proto.initializers == Lowered(p, state, values).1
    ensures NameSet(proto.inputs) !! proto.initializers.Keys
    ensures ImportNodes(proto.nodes, InitialImporter(proto)).Some? == RecordedRanksOk(p, state, values)
    ensures RecordedRanksOk(p, state, values) ==>
      var st := ImportNodes(proto.nodes, InitialImporter(proto)).value;
      st.operations == Lowered(p, state, values).0.operations && st.constants == Lowered(p, state, values).1
  {
    SavedConstants(p, state, values);
    SavedStart(p, state, values, proto);
    AllScoped(p, state);
    ImportPrefix(p, state, values, |p.operations|, InitialImporter(proto), proto.initializers);
  }

  // ---- main results ----

  /** Exactly which exports can be imported again: those in which no matrix
      product has an operand whose recorded rank is zero, within the size limits. */
  lemma ReimportExactly(k: Kernels, p: Program, state: Env)
    requires ArtifactOk(p, state.Keys) && RanksBounded(state) && Save(k, p, state).Some?
    ensures AllWellFormed(p) && ExampleRun(k, p, state).Ok?
    ensures LowerTo(p, state, ExampleRun(k, p, state).value, |p.operations|).Some?
    ensures Load(Save(k, p, state).value).Some? <==>
      RecordedRanksOk(p, state, ExampleRun(k, p, state).value) && FitsLimits(p, state)
    ensures Load(Save(k, p, state).value).Some? ==>
      Load(Save(k, p, state).value).value == Lowered(p, state, ExampleRun(k, p, state).value)
  {
    SavedFacts(k, p, state);
    SaveParts(k, p, state);
    LoadOfSaved(p, state, ExampleRun(k, p, state).value, Save(k, p, state).value);
  }

  /** What loading decides once the imported nodes are known. */
  lemma LoadDecides(proto: Proto, q: Program, constants: Env)
    requires NameSet(proto.inputs) !! proto.initializers.Keys && GuardMetadataOk(proto)
    requires proto.outputTree.Some? && Leaves(proto.outputTree.value) == Some(proto.outputs)
    requires ImportNodes(proto.nodes, InitialImporter(proto)).Some? ==>
      var st := ImportNodes(proto.nodes, InitialImporter(proto)).value;
      Assemble(proto, st.operations) == q && st.constants == constants
    ensures Load(proto) ==
      if |proto.nodes| > MAX_NODES || |proto.initializers| > MAX_NODES ||
         ImportNodes(proto.nodes, InitialImporter(proto)).None? || !ArtifactOk(q, constants.Keys)
      then None else Some((q, constants))
  {
  }

  lemma LoadOfSaved(p: Program, state: Env, values: Env, proto: Proto)
    requires Exported(p, state, values) && ArtifactOk(p, state.Keys) && Leaves(p.outputTree).Some?
    requires proto == Proto(LowerTo(p, state, values, |p.operations|).value.nodes, Lowered(p, state, values).1,
                            Erased(p.inputs),
                            Leaves(p.outputTree).value, Some(p.inputs), Some(p.inputTree), Some(p.outputTree))
    ensures Load(proto).Some? <==> RecordedRanksOk(p, state, values) && FitsLimits(p, state)
    ensures Load(proto).Some? ==> Load(proto).value == Lowered(p, state, values)
  {
    SavedNodesImport(p, state, values, proto);
    ErasedTypes(p.inputs);
    LoadDecides(proto, Lowered(p, state, values).0, Lowered(p, state, values).1);
    LoweredCounts(p, state, values);
    LoweredArtifact(p, state, values);
  }

  lemma LoweredCounts(p: Program, state: Env, values: Env)
    requires Exported(p, state, values)
    ensures |LowerTo(p, state, values, |p.operations|).value.nodes| == LoweredCount(p, |p.operations|)
    ensures |Lowered(p, state, values).1| == |state| + ReshapeCount(p, |p.operations|)
  {
    NodeCount(p, state, values, |p.operations|);
    ConstantCount(p, state, values, |p.operations|);
  }

  lemma LoweredArtifact(p: Program, state: Env, values: Env)
    requires Exported(p, state, values) && ArtifactOk(p, state.Keys)
    ensures ArtifactOk(Lowered(p, state, values).0, Lowered(p, state, values).1.Keys) <==> FitsLimits(p, state)
  {
    LoweredCounts(p, state, values);
    LoweredIsValid(p, state, values);
    ConstantNamesValid(p, state, values, |p.operations|);
    assert |Lowered(p, state, values).1.Keys| == |Lowered(p, state, values).1|;
  }

  /** A re-imported export computes exactly what the original computes: on every
      input the same outputs, or the same error. */
  lemma ReimportedMeansTheSame(k: Kernels, p: Program, state: Env, inputs: seq<Tensor>)
    requires ArtifactOk(p, state.Keys) && RanksBounded(state) && Save(k, p, state).Some?
    requires Load(Save(k, p, state).value).Some?
    ensures var (q, constants) := Load(Save(k, p, state).value).value;
      Execute(k, q, inputs, constants) == Execute(k, p, inputs, state)
  {
    ReimportExactly(k, p, state);
    SaveParts(k, p, state);
    var values := ExampleRun(k, p, state).value;
    var (q, constants) := Lowered(p, state, values);
    if CheckInputs(p.inputs, inputs).None? {
      AbortsForGood(k, p, inputs, state, 0);
      AbortsForGood(k, q, inputs, constants, 0);
    } else {
      SameRun(k, p, state, inputs, values, q, constants);
    }
  }

  lemma {:induction false} BindSub(state: Env, constants: Env, specs: seq<ValueSpec>, inputs: seq<Tensor>)
    requires |specs| == |inputs| && Sub(state, constants)
    ensures Sub(Bind(state, specs, inputs), Bind(constants, specs, inputs))
  {
    if specs != [] {
      BindSub(state, constants, Front(specs), Front(inputs));
    }
  }

  lemma SameRun(k: Kernels, p: Program, state: Env, inputs: seq<Tensor>, values: Env, q: Program, constants: Env)
    requires Valid(p, state.Keys) && AllWellFormed(p) && Infer(p, state).Some? && CheckInputs(p.inputs, inputs).Some?
    requires Examples(p.inputs).Some? && RunTo(k, p, Examples(p.inputs).value, state, |p.operations|) == Ok(values)
    requires LowerTo(p, state, values, |p.operations|).Some? && (q, constants) == Lowered(p, state, values)
    ensures Execute(k, q, inputs, constants) == Execute(k, p, inputs, state)
  {
    var n := |p.operations|;
    StateBound(k, p, Examples(p.inputs).value, state, values);
    FreshNamesAreNew(p, state, values, n);
    BindSub(state, constants, p.inputs, inputs);
    LoweredRun(k, p, state, Examples(p.inputs).value, inputs, values, Bind(constants, p.inputs, inputs), constants, n);
    RunToIsRunSeq(k, q, inputs, constants, |q.operations|);
    assert q.operations[..|q.operations|] == q.operations;
    NeverStuck(k, p, inputs, state, 0, 0);
    LookupSub(RunTo(k, p, inputs, state, n).value, RunTo(k, q, inputs, constants, |q.operations|).value,
              Leaves(p.outputTree).value);
  }
}
