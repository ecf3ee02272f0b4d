/** Importing a PT2 export: exactly when it succeeds, what it gives back, and that
    it computes the same (src/deployment/pt2.rs). */
module Pt2RoundTrip {
  import opened Wrappers
  import opened Tensors
  import opened Programs
  import opened Validation
  import opened FreshNames
  import opened Pt2Trees
  import opened Pt2Operators
  import opened Pt2

  // ---- names ----

  lemma {:induction false} InwardAt(ps: seq<(string, string)>, i: nat)
    requires DistinctPlaceholders(ps) && i < |ps|
    ensures Inward(ps, ps[i].0) == ps[i].1
  {
    if i > 0 {
      assert ps[0].0 != ps[i].0;
      InwardAt(ps[1..], i - 1);
    }
  }

  lemma {:induction false} InwardOther(ps: seq<(string, string)>, n: string)
    requires forall i | 0 <= i < |ps| :: ps[i].0 != n
    ensures Inward(ps, n) == n
  {
    if ps != [] {
      InwardOther(ps[1..], n);
    }
  }

  lemma PlaceholdersDistinct(states: seq<string>)
    ensures DistinctPlaceholders(PlaceholdersOf(states))
  {
    var ps := PlaceholdersOf(states);
    forall i, j | 0 <= i < j < |ps|
      ensures ps[i].0 != ps[j].0
    {
      if ps[i].0 == ps[j].0 {
        NumberedInjective("state_", i, j);
      }
    }
  }

  /** The name is one of the exported state placeholders. */
  predicate IsPlaceholder(states: seq<string>, n: string)
  {
    exists i | 0 <= i < |states| :: n == Placeholder(i)
  }

  /** Mapping out and back is the identity on state names and on names that are not placeholders. */
  lemma NameRoundTrip(states: seq<string>, n: string)
    requires n in states || !IsPlaceholder(states, n)
    ensures Inward(PlaceholdersOf(states), Outward(states, n)) == n
  {
    PlaceholdersDistinct(states);
    var i := Position(states, n);
    if i < |states| {
      InwardAt(PlaceholdersOf(states), i);
    } else {
      InwardOther(PlaceholdersOf(states), n);
    }
  }

  lemma NamesRoundTrip(states: seq<string>, names: seq<string>)
    requires forall i | 0 <= i < |names| :: names[i] in states || !IsPlaceholder(states, names[i])
    ensures InwardAll(PlaceholdersOf(states), OutwardAll(states, names)) == names
  {
    var back := InwardAll(PlaceholdersOf(states), OutwardAll(states, names));
    forall i | 0 <= i < |names|
      ensures back[i] == names[i]
    {
      NameRoundTrip(states, names[i]);
    }
  }

  // ---- operations ----

  /** What an exported operation is read back as. */
  function ReadBack(states: seq<string>, node: Operation): Operation
  {
    Operation(Inward(PlaceholdersOf(states), node.name), node.operator,
              InwardAll(PlaceholdersOf(states), OutwardAll(states, node.inputs)))
  }

  lemma NodeRead(states: seq<string>, node: Operation)
    requires !node.operator.If? && WellFormed(node.operator, |node.inputs|)
    ensures ReadNode(NodeOf(states, node), PlaceholdersOf(states)) == Some(ReadBack(states, node))
  {
    OperatorRoundTrip(node.operator, OutwardAll(states, node.inputs));
  }

  function ReadBackAll(states: seq<string>, operations: seq<Operation>): (r: seq<Operation>)
    ensures |r| == |operations|
  {
    seq(|operations|, i requires 0 <= i < |operations| => ReadBack(states, operations[i]))
  }

  predicate Printable(operations: seq<Operation>)
  {
    forall i | 0 <= i < |operations| :: !operations[i].operator.If? &&
      WellFormed(operations[i].operator, |operations[i].inputs|)
  }

  lemma NodesSplit(states: seq<string>, operations: seq<Operation>)
    requires Printable(operations) && operations != [] && Printable(Front(operations)) && Printable([Last(operations)])
    ensures NodesOf(states, operations) == NodesOf(states, Front(operations)) + [NodesOf(states, [Last(operations)])[0]]
    ensures ReadBackAll(states, operations) == ReadBackAll(states, Front(operations)) +
      [ReadBack(states, Last(operations))]
  {
  }

  lemma ReadNodesNext(nodes: seq<ArchiveNode>, last: ArchiveNode, ps: seq<(string, string)>, ops: seq<Operation>,
                      op: Operation)
    requires ReadNodes(nodes, ps) == Some(ops) && ReadNode(last, ps) == Some(op)
    ensures ReadNodes(nodes + [last], ps) == Some(ops + [op])
  {
    assert Front(nodes + [last]) == nodes && Last(nodes + [last]) == last;
  }

  lemma {:induction false} NodesRead(states: seq<string>, operations: seq<Operation>)
    requires Printable(operations)
    ensures ReadNodes(NodesOf(states, operations), PlaceholdersOf(states)) == Some(ReadBackAll(states, operations))
  {
    if operations != [] {
      var front, last := Front(operations), Last(operations);
      assert last == operations[|operations| - 1];
      NodesRead(states, front);
      NodesSplit(states, operations);
      NodeRead(states, last);
      ReadNodesNext(NodesOf(states, front), NodeOf(states, last), PlaceholdersOf(states),
                    ReadBackAll(states, front), ReadBack(states, last));
    }
  }

  // ---- symbols ----

  lemma {:induction false} AddSymbolsHas(found: seq<string>, dimensions: seq<Dimension>)
    ensures forall s | s in found :: s in AddSymbols(found, dimensions)
    ensures forall i | 0 <= i < |dimensions| :: dimensions[i].Symbol? ==>
      dimensions[i].name in AddSymbols(found, dimensions)
  {
    if dimensions != [] {
      AddSymbolsHas(found, Front(dimensions));
    }
  }

  lemma {:induction false} SymbolsHave(inputs: seq<ValueSpec>, k: nat, i: nat)
    requires k < |inputs| && i < |inputs[k].dimensions| && inputs[k].dimensions[i].Symbol?
    ensures inputs[k].dimensions[i].name in SymbolsOf(inputs)
  {
    AddSymbolsHas(SymbolsOf(Front(inputs)), Last(inputs).dimensions);
    if k < |inputs| - 1 {
      SymbolsHave(Front(inputs), k, i);
    }
  }

  /** Distinct symbols get distinct exported names. */
  lemma NewSymbolInjective(symbols: seq<string>, a: string, b: string)
    requires a in symbols && NewSymbol(symbols, a) == NewSymbol(symbols, b)
    ensures a == b
  {
    NumberedInjective("s", Position(symbols, a), Position(symbols, b));
  }

  lemma NewSymbolPlain(symbols: seq<string>, s: string)
    ensures NewSymbol(symbols, s) != "" && forall c | c in NewSymbol(symbols, s) :: Plain(c)
  {
    var n := NewSymbol(symbols, s);
    assert n == "s" + Decimal(Position(symbols, s));
  }

  function RenamedDim(symbols: seq<string>, d: Dimension): Dimension
  {
    match d
    case Known(_) => d
    case Symbol(s, min, max) => Symbol(NewSymbol(symbols, s), min, max)
  }

  function RenamedDims(symbols: seq<string>, dimensions: seq<Dimension>): (r: seq<Dimension>)
    ensures |r| == |dimensions|
  {
    seq(|dimensions|, i requires 0 <= i < |dimensions| => RenamedDim(symbols, dimensions[i]))
  }

  function RenamedSpec(symbols: seq<string>, s: ValueSpec): ValueSpec
  {
    ValueSpec(s.name, s.dtype, RenamedDims(symbols, s.dimensions))
  }

  function RenamedInputs(symbols: seq<string>, inputs: seq<ValueSpec>): (r: seq<ValueSpec>)
    ensures |r| == |inputs|
  {
    seq(|inputs|, i requires 0 <= i < |inputs| => RenamedSpec(symbols, inputs[i]))
  }

  predicate Recorded(symbols: seq<string>, ranges: map<string, Bounds>, d: Dimension)
  {
    d.Symbol? ==> NewSymbol(symbols, d.name) in ranges && ranges[NewSymbol(symbols, d.name)] == Bounds(d.min, d.max)
  }

  predicate Includes(a: map<string, Bounds>, b: map<string, Bounds>)
  {
    forall s | s in a :: s in b && b[s] == a[s]
  }

  lemma {:induction false} AddRangesRecords(symbols: seq<string>, ranges: map<string, Bounds>,
                                            dimensions: seq<Dimension>)
    requires AddRanges(symbols, ranges, dimensions).Some?
    ensures Includes(ranges, AddRanges(symbols, ranges, dimensions).value)
    ensures forall i | 0 <= i < |dimensions| :: Recorded(symbols, AddRanges(symbols, ranges, dimensions).value,
                                                         dimensions[i])
  {
    if dimensions != [] {
      AddRangesRecords(symbols, ranges, Front(dimensions));
    }
  }

  lemma {:induction false} RangesRecord(symbols: seq<string>, inputs: seq<ValueSpec>, k: nat, i: nat)
    requires RangesOf(symbols, inputs).Some? && k < |inputs| && i < |inputs[k].dimensions|
    ensures Recorded(symbols, RangesOf(symbols, inputs).value, inputs[k].dimensions[i])
  {
    var before := RangesOf(symbols, Front(inputs)).value;
    AddRangesRecords(symbols, before, Last(inputs).dimensions);
    if k < |inputs| - 1 {
      RangesRecord(symbols, Front(inputs), k, i);
    }
  }

  lemma SizeRead(symbols: seq<string>, ranges: map<string, Bounds>, d: Dimension)
    requires Recorded(symbols, ranges, d)
    ensures ReadSize(SizeJson(symbols, d), ranges) == Some(RenamedDim(symbols, d))
  {
    match d
    case Known(n) =>
      var j := IntArg(n);
      assert j.members[0].key == "as_int" && j.members[0] in j.members;
    case Symbol(s, min, max) =>
      NewSymbolPlain(symbols, s);
      SymbolRead(NewSymbol(symbols, s));
      var inner := [Member("expr_str", Text(SymbolText(NewSymbol(symbols, s)))),
                    Member("hint", IntArg(if min > 2 then min else 2))];
      var j := SizeJson(symbols, d);
      assert j == Object([Member("as_expr", Object(inner))]);
      assert forall m | m in j.members :: m.key == "as_expr";
      assert Find(inner, "expr_str") == Text(SymbolText(NewSymbol(symbols, s)));
  }

  predicate AllRecorded(symbols: seq<string>, ranges: map<string, Bounds>, dimensions: seq<Dimension>)
  {
    forall i | 0 <= i < |dimensions| :: Recorded(symbols, ranges, dimensions[i])
  }

  lemma SizesSplit(symbols: seq<string>, dimensions: seq<Dimension>)
    requires dimensions != []
    ensures SizesJson(symbols, dimensions) == SizesJson(symbols, Front(dimensions)) +
      [SizeJson(symbols, Last(dimensions))]
    ensures RenamedDims(symbols, dimensions) == RenamedDims(symbols, Front(dimensions)) +
      [RenamedDim(symbols, Last(dimensions))]
  {
  }

  lemma ReadSizesNext(sizes: seq<Json>, last: Json, ranges: map<string, Bounds>, dims: seq<Dimension>, d: Dimension)
    requires ReadSizes(sizes, ranges) == Some(dims) && ReadSize(last, ranges) == Some(d)
    ensures ReadSizes(sizes + [last], ranges) == Some(dims + [d])
  {
    assert Front(sizes + [last]) == sizes && Last(sizes + [last]) == last;
  }

  lemma {:induction false} SizesRead(symbols: seq<string>, ranges: map<string, Bounds>, dimensions: seq<Dimension>)
    requires AllRecorded(symbols, ranges, dimensions)
    ensures ReadSizes(SizesJson(symbols, dimensions), ranges) == Some(RenamedDims(symbols, dimensions))
  {
    if dimensions != [] {
      var front, last := Front(dimensions), Last(dimensions);
      SizesSplit(symbols, dimensions);
      SizesRead(symbols, ranges, front);
      SizeRead(symbols, ranges, last);
      ReadSizesNext(SizesJson(symbols, front), SizeJson(symbols, last), ranges, RenamedDims(symbols, front),
                    RenamedDim(symbols, last));
    }
  }

  function InputsJson(symbols: seq<string>, inputs: seq<ValueSpec>): (r: seq<ArchiveInput>)
    ensures |r| == |inputs|
  {
    seq(|inputs|, i requires 0 <= i < |inputs| => InputJson(symbols, inputs[i]))
  }

  predicate InputsRecorded(symbols: seq<string>, ranges: map<string, Bounds>, inputs: seq<ValueSpec>)
  {
    forall k | 0 <= k < |inputs| :: AllRecorded(symbols, ranges, inputs[k].dimensions)
  }

  lemma InputsSplit(symbols: seq<string>, inputs: seq<ValueSpec>)
    requires inputs != []
    ensures InputsJson(symbols, inputs) == InputsJson(symbols, Front(inputs)) + [InputJson(symbols, Last(inputs))]
    ensures RenamedInputs(symbols, inputs) == RenamedInputs(symbols, Front(inputs)) +
      [RenamedSpec(symbols, Last(inputs))]
  {
  }

  lemma ReadInputsNext(inputs: seq<ArchiveInput>, last: ArchiveInput, ranges: map<string, Bounds>,
                       specs: seq<ValueSpec>, s: ValueSpec)
    requires ReadInputs(inputs, ranges) == Some(specs)
    requires DTypeOf(last.code) == Some(s.dtype) && ReadSizes(last.sizes, ranges) == Some(s.dimensions)
    requires s.name == last.name
    ensures ReadInputs(inputs + [last], ranges) == Some(specs + [s])
  {
    assert Front(inputs + [last]) == inputs && Last(inputs + [last]) == last;
  }

  lemma {:induction false} InputsRead(symbols: seq<string>, ranges: map<string, Bounds>, inputs: seq<ValueSpec>)
    requires InputsRecorded(symbols, ranges, inputs)
    ensures ReadInputs(InputsJson(symbols, inputs), ranges) == Some(RenamedInputs(symbols, inputs))
  {
    if inputs != [] {
      var front, last := Front(inputs), Last(inputs);
      assert AllRecorded(symbols, ranges, inputs[|inputs| - 1].dimensions);
      InputsSplit(symbols, inputs);
      InputsRead(symbols, ranges, front);
      SizesRead(symbols, ranges, last.dimensions);
      ReadInputsNext(InputsJson(symbols, front), InputJson(symbols, last), ranges, RenamedInputs(symbols, front),
                     RenamedSpec(symbols, last));
    }
  }

  // ---- the assembled program ----

  /** What importing the export of `p` assembles, when its input tree is within the limits. */
  function Returned(p: Program, states: seq<string>): Program
  {
    Program(1, 1, RenamedInputs(SymbolsOf(p.inputs), p.inputs), Wrapped(p.inputTree),
            ReadBackAll(states, p.operations), p.outputTree)
  }

  lemma WrappedLeaves(t: Tree)
    ensures LeafNames(Wrapped(t)) == LeafNames(t)
  {
    var empty: seq<Entry> := [];
    if Wrapped(t) != t {
      var both := [t, Dict(empty)];
      assert both[1..] == [Dict(empty)] && [Dict(empty)][1..] == [];
      assert AllNames([Dict(empty)]) == LeafNames(Dict(empty)) + AllNames([]);
      assert LeafNames(Dict(empty)) == EntryNames(empty) == [];
      assert AllNames(both) == LeafNames(t) + AllNames([Dict(empty)]);
      assert LeafNames(t) + [] == LeafNames(t);
    }
  }

  lemma RenamedNames(symbols: seq<string>, inputs: seq<ValueSpec>)
    ensures SpecNames(RenamedInputs(symbols, inputs)) == SpecNames(inputs)
  {
  }

  function NamesOf(states: seq<string>): set<string>
  {
    set n | n in states
  }

  lemma ArchiveStates(states: seq<string>)
    ensures StateNames(PlaceholdersOf(states)) == NamesOf(states)
  {
    var ps := PlaceholdersOf(states);
    forall n | n in NamesOf(states)
      ensures n in StateNames(ps)
    {
      var i :| 0 <= i < |states| && states[i] == n;
      assert ps[i] in ps;
    }
  }

  predicate NoConditional(p: Program)
  {
    forall i | 0 <= i < |p.operations| :: !p.operations[i].operator.If?
  }

  lemma ValidExportable(p: Program, states: set<string>)
    requires Valid(p, states)
    ensures NoConditional(p) ==> Exportable(p)
    ensures |p.operations| <= MAX_NODES && Leaves(p.inputTree) == Some(SpecNames(p.inputs))
    ensures Leaves(p.outputTree).Some?
  {
    ScopeOf(p, states, 0, 0, |p.operations|);
    PrefixValid(p, states, 0, 0, 0);
  }

  /** Nothing in the program is named like an exported placeholder, apart from state. */
  predicate Clean(p: Program, states: seq<string>)
  {
    forall i | 0 <= i < |p.operations| :: !IsPlaceholder(states, p.operations[i].name)
  }

  predicate InputsClean(p: Program, states: seq<string>)
  {
    forall i | 0 <= i < |p.inputs| :: !IsPlaceholder(states, p.inputs[i].name)
  }

  lemma {:induction false} OperationNameAt(p: Program, n: nat, x: string) returns (i: nat)
    requires n <= |p.operations| && x in OperationNames(p, n)
    ensures i < n && p.operations[i].name == x
  {
    if x == p.operations[n - 1].name {
      i := n - 1;
    } else {
      i := OperationNameAt(p, n - 1, x);
    }
  }

  /** Every name in scope survives the trip. */
  lemma ScopedRoundTrip(p: Program, states: seq<string>, n: nat, x: string)
    requires n <= |p.operations| && Clean(p, states) && InputsClean(p, states)
    requires x in NamesOf(states) + NameSet(p.inputs) + OperationNames(p, n)
    ensures x in states || !IsPlaceholder(states, x)
  {
    if x in NameSet(p.inputs) {
      var i := NameSetMembers(p.inputs, x);
    } else if x in OperationNames(p, n) {
      var i := OperationNameAt(p, n, x);
    }
  }

  lemma OperationReadBack(p: Program, states: seq<string>, i: nat)
    requires Valid(p, NamesOf(states)) && Clean(p, states) && InputsClean(p, states) && i < |p.operations|
    ensures ReadBack(states, p.operations[i]) == p.operations[i]
  {
    var node := p.operations[i];
    ScopeOf(p, NamesOf(states), 0, 0, |p.operations|);
    forall k | 0 <= k < |node.inputs|
      ensures node.inputs[k] in states || !IsPlaceholder(states, node.inputs[k])
    {
      assert node.inputs[k] in node.inputs;
      ScopedRoundTrip(p, states, i, node.inputs[k]);
    }
    NamesRoundTrip(states, node.inputs);
    InwardOther(PlaceholdersOf(states), node.name);
  }

  lemma LeavesScoped(p: Program, states: seq<string>)
    requires Valid(p, NamesOf(states)) && Clean(p, states) && InputsClean(p, states)
    ensures Leaves(p.outputTree).Some?
    ensures InwardAll(PlaceholdersOf(states), OutwardAll(states, Leaves(p.outputTree).value)) ==
      Leaves(p.outputTree).value
  {
    var leaves := Leaves(p.outputTree).value;
    ScopeOf(p, NamesOf(states), 0, 0, |p.operations|);
    forall k | 0 <= k < |leaves|
      ensures leaves[k] in states || !IsPlaceholder(states, leaves[k])
    {
      assert leaves[k] in leaves;
      ScopedRoundTrip(p, states, |p.operations|, leaves[k]);
    }
    NamesRoundTrip(states, leaves);
  }

  lemma SavedInputsClean(c: Codec, p: Program, states: seq<string>)
    requires (NoConditional(p) ==> Exportable(p)) && Save(c, p, states).Some?
    ensures NoConditional(p) && InputsClean(p, states) && RangesOf(SymbolsOf(p.inputs), p.inputs).Some?
  {
    forall i | 0 <= i < |p.inputs|
      ensures !IsPlaceholder(states, p.inputs[i].name)
    {
    }
  }

  lemma SavedInputsRead(p: Program)
    requires RangesOf(SymbolsOf(p.inputs), p.inputs).Some?
    ensures ReadInputs(InputsJson(SymbolsOf(p.inputs), p.inputs), RangesOf(SymbolsOf(p.inputs), p.inputs).value) ==
      Some(RenamedInputs(SymbolsOf(p.inputs), p.inputs))
  {
    var symbols := SymbolsOf(p.inputs);
    var ranges := RangesOf(symbols, p.inputs).value;
    forall k: nat | k < |p.inputs|
      ensures AllRecorded(symbols, ranges, p.inputs[k].dimensions)
    {
      forall i: nat | i < |p.inputs[k].dimensions|
        ensures Recorded(symbols, ranges, p.inputs[k].dimensions[i])
      {
        RangesRecord(symbols, p.inputs, k, i);
      }
    }
    InputsRead(symbols, ranges, p.inputs);
  }

  /** The parts of the assembled program that do not depend on name clashes. */
  lemma AssembledParts(c: Codec, p: Program, states: seq<string>)
    requires Faithful(c) && Valid(p, NamesOf(states)) && (NoConditional(p) ==> Exportable(p))
    requires Save(c, p, states).Some?
    ensures var a := Save(c, p, states).value;
      a.placeholders == PlaceholdersOf(states) && |a.nodes| <= MAX_NODES &&
      ReadInputs(a.inputs, a.ranges) == Some(RenamedInputs(SymbolsOf(p.inputs), p.inputs)) &&
      ReadNodes(a.nodes, a.placeholders) == Some(ReadBackAll(states, p.operations)) &&
      ParseTree(c, a.inSpec, SpecNames(RenamedInputs(SymbolsOf(p.inputs), p.inputs))) ==
        if Leaves(Wrapped(p.inputTree)).Some? then Some(Wrapped(p.inputTree)) else None
  {
    ValidExportable(p, NamesOf(states));
    SavedInputsClean(c, p, states);
    SavedInputsRead(p);
    assert Save(c, p, states).value.inputs == InputsJson(SymbolsOf(p.inputs), p.inputs);
    NodesRead(states, p.operations);
    RenamedNames(SymbolsOf(p.inputs), p.inputs);
    WrappedLeaves(p.inputTree);
    TreeRoundTrip(c, p.inputTree);
    TreeRoundTrip(c, Wrapped(p.inputTree));
  }

  lemma CleanAssembled(c: Codec, p: Program, states: seq<string>)
    requires Faithful(c) && Valid(p, NamesOf(states)) && (NoConditional(p) ==> Exportable(p))
    requires Save(c, p, states).Some?
    requires Clean(p, states)
    ensures Assemble(c, Save(c, p, states).value) ==
      if Leaves(Wrapped(p.inputTree)).Some? then Some(Returned(p, states)) else None
    ensures ReadBackAll(states, p.operations) == p.operations
  {
    AssembledParts(c, p, states);
    SavedInputsClean(c, p, states);
    PlaceholdersDistinct(states);
    LeavesScoped(p, states);
    TreeRoundTrip(c, p.outputTree);
    forall i: nat | i < |p.operations|
      ensures ReadBackAll(states, p.operations)[i] == p.operations[i]
    {
      OperationReadBack(p, states, i);
    }
  }

  // ---- validity of the result ----

  lemma RenamedValid(symbols: seq<string>, s: ValueSpec)
    requires ValidSpec(s)
    ensures ValidSpec(RenamedSpec(symbols, s))
  {
    var t := RenamedSpec(symbols, s);
    forall i | 0 <= i < |t.dimensions|
      ensures ValidDimension(t.dimensions[i])
    {
      assert s.dimensions[i] in s.dimensions;
      NewSymbolPlain(symbols, if s.dimensions[i].Symbol? then s.dimensions[i].name else "");
    }
  }

  lemma {:induction false} RenamedDeclare(symbols: seq<string>, inputs: seq<ValueSpec>, names: set<string>)
    requires Declare(inputs, names).Some?
    ensures Declare(RenamedInputs(symbols, inputs), names) == Declare(inputs, names)
  {
    if inputs != [] {
      RenamedDeclare(symbols, Front(inputs), names);
      InputsSplit(symbols, inputs);
      var all := RenamedInputs(symbols, inputs);
      assert Front(all) == RenamedInputs(symbols, Front(inputs)) && Last(all) == RenamedSpec(symbols, Last(inputs));
      RenamedValid(symbols, Last(inputs));
    }
  }

  /** A program with other symbols and a wrapped input tree. */
  predicate SameBody(p: Program, q: Program)
  {
    && q.version == 1 && q.operatorVersion == 1 && q.operations == p.operations && q.outputTree == p.outputTree
    && q.inputs == RenamedInputs(SymbolsOf(p.inputs), p.inputs) && Leaves(q.inputTree) == Leaves(p.inputTree)
  }

  lemma {:induction false} SameValidation(p: Program, q: Program, names: set<string>, n: nat)
    requires SameBody(p, q) && n <= |p.operations| && ValidateTo(p, names, 0, 0, n).Some?
    ensures ValidateTo(q, names, 0, 0, n) == ValidateTo(p, names, 0, 0, n)
  {
    if n == 0 {
      RenamedDeclare(SymbolsOf(p.inputs), p.inputs, names);
      RenamedNames(SymbolsOf(p.inputs), p.inputs);
    } else {
      SameValidation(p, q, names, n - 1);
    }
  }

  lemma ReturnedValid(p: Program, states: seq<string>)
    requires Valid(p, NamesOf(states)) && Leaves(Wrapped(p.inputTree)).Some?
    requires ReadBackAll(states, p.operations) == p.operations
    ensures Valid(Returned(p, states), NamesOf(states))
    ensures SameBody(p, Returned(p, states))
  {
    var q, names := Returned(p, states), NamesOf(states);
    PrefixValid(p, names, 0, 0, 0);
    WrappedLeaves(p.inputTree);
    WalkNames(Wrapped(p.inputTree), 0, []);
    WalkNames(p.inputTree, 0, []);
    assert [] + LeafNames(p.inputTree) == LeafNames(p.inputTree);
    SameValidation(p, q, names, |p.operations|);
  }

  /** An operation named like a placeholder comes back under a state's name, which validation refuses. */
  lemma DirtyInvalid(p: Program, q: Program, states: seq<string>)
    requires q.operations == ReadBackAll(states, p.operations) && !Clean(p, states)
    ensures !Valid(q, NamesOf(states))
  {
    var i: nat :| i < |p.operations| && IsPlaceholder(states, p.operations[i].name);
    var j :| 0 <= j < |states| && p.operations[i].name == Placeholder(j);
    PlaceholdersDistinct(states);
    InwardAt(PlaceholdersOf(states), j);
    assert q.operations[i].name == states[j] && states[j] in NamesOf(states);
    if Valid(q, NamesOf(states)) {
      ScopeOf(q, NamesOf(states), 0, 0, |q.operations|);
    }
  }

  lemma DirtyRejected(c: Codec, p: Program, states: seq<string>)
    requires Faithful(c) && Valid(p, NamesOf(states)) && (NoConditional(p) ==> Exportable(p))
    requires Save(c, p, states).Some?
    requires !Clean(p, states)
    ensures Load(c, Save(c, p, states).value).None?
  {
    AssembledParts(c, p, states);
    var assembled := Assemble(c, Save(c, p, states).value);
    if assembled.Some? {
      DirtyInvalid(p, assembled.value, states);
      ArchiveStates(states);
    }
  }

  /** An exported program can be imported again exactly when no operation is named
      like a state placeholder and the wrapped input tree stays within the limits;
      it then comes back with its symbols renamed and its input tree wrapped. */
  lemma ReimportIff(c: Codec, p: Program, states: seq<string>)
    requires Faithful(c) && Valid(p, NamesOf(states)) && (NoConditional(p) ==> Exportable(p))
    requires Save(c, p, states).Some?
    ensures Load(c, Save(c, p, states).value).Some? <==> Clean(p, states) && Leaves(Wrapped(p.inputTree)).Some?
    ensures Load(c, Save(c, p, states).value).Some? ==>
      Load(c, Save(c, p, states).value) ==
        Some(p.(inputs := RenamedInputs(SymbolsOf(p.inputs), p.inputs), inputTree := Wrapped(p.inputTree)))
  {
    if Clean(p, states) {
      CleanAssembled(c, p, states);
      ArchiveStates(states);
      AssembledParts(c, p, states);
      PrefixValid(p, NamesOf(states), 0, 0, 0);
      if Leaves(Wrapped(p.inputTree)).Some? {
        ReturnedValid(p, states);
      }
    } else {
      DirtyRejected(c, p, states);
    }
  }

  // ---- meaning ----

  /** The valuation of the renamed symbols. */
  function Outer(symbols: seq<string>, v: Valuation): Valuation
  {
    if symbols == [] then map[]
    else
      var before, last := Outer(symbols[..|symbols| - 1], v), symbols[|symbols| - 1];
      if last in v then before[Numbered("s", |symbols| - 1) := v[last]] else before
  }

  lemma {:induction false} OuterAt(symbols: seq<string>, v: Valuation, i: nat)
    requires i < |symbols| && symbols[i] in v
    ensures Numbered("s", i) in Outer(symbols, v) && Outer(symbols, v)[Numbered("s", i)] == v[symbols[i]]
  {
    if i < |symbols| - 1 {
      OuterAt(symbols[..|symbols| - 1], v, i);
      if Numbered("s", i) == Numbered("s", |symbols| - 1) {
        NumberedInjective("s", i, |symbols| - 1);
      }
    }
  }

  /** The valuation of the original symbols. */
  function Inner(symbols: seq<string>, v: Valuation): Valuation
  {
    map s | s in symbols && NewSymbol(symbols, s) in v :: v[NewSymbol(symbols, s)]
  }

  lemma DimForward(symbols: seq<string>, actual: nat, d: Dimension, v: Valuation)
    requires Meets(actual, d, v) && (d.Symbol? ==> d.name in symbols)
    ensures Meets(actual, RenamedDim(symbols, d), Outer(symbols, v))
  {
    if d.Symbol? {
      OuterAt(symbols, v, Position(symbols, d.name));
    }
  }

  lemma DimBackward(symbols: seq<string>, actual: nat, d: Dimension, v: Valuation)
    requires Meets(actual, RenamedDim(symbols, d), v) && (d.Symbol? ==> d.name in symbols)
    ensures Meets(actual, d, Inner(symbols, v))
  {
  }

  predicate Listed(symbols: seq<string>, inputs: seq<ValueSpec>)
  {
    forall k | 0 <= k < |inputs| :: DimsListed(symbols, inputs[k].dimensions)
  }

  predicate DimsListed(symbols: seq<string>, dimensions: seq<Dimension>)
  {
    forall i | 0 <= i < |dimensions| && dimensions[i].Symbol? :: dimensions[i].name in symbols
  }

  lemma AllListed(inputs: seq<ValueSpec>)
    ensures Listed(SymbolsOf(inputs), inputs)
  {
    forall k: nat | k < |inputs|
      ensures DimsListed(SymbolsOf(inputs), inputs[k].dimensions)
    {
      forall i: nat | i < |inputs[k].dimensions| && inputs[k].dimensions[i].Symbol?
        ensures inputs[k].dimensions[i].name in SymbolsOf(inputs)
      {
        SymbolsHave(inputs, k, i);
      }
    }
  }

  lemma DimsForward(symbols: seq<string>, shape: seq<nat>, dimensions: seq<Dimension>, v: Valuation)
    requires DimsListed(symbols, dimensions) && MeetsAll(shape, dimensions, v)
    ensures MeetsAll(shape, RenamedDims(symbols, dimensions), Outer(symbols, v))
  {
    forall i | 0 <= i < |shape|
      ensures Meets(shape[i], RenamedDims(symbols, dimensions)[i], Outer(symbols, v))
    {
      DimForward(symbols, shape[i], dimensions[i], v);
    }
  }

  lemma DimsBackward(symbols: seq<string>, shape: seq<nat>, dimensions: seq<Dimension>, v: Valuation)
    requires DimsListed(symbols, dimensions) && MeetsAll(shape, RenamedDims(symbols, dimensions), v)
    ensures MeetsAll(shape, dimensions, Inner(symbols, v))
  {
    forall i | 0 <= i < |shape|
      ensures Meets(shape[i], dimensions[i], Inner(symbols, v))
    {
      assert Meets(shape[i], RenamedDims(symbols, dimensions)[i], v);
      DimBackward(symbols, shape[i], dimensions[i], v);
    }
  }

  /** Renaming symbols injectively changes no accepted input. */
  lemma SameAcceptance(specs: seq<ValueSpec>, inputs: seq<Tensor>)
    ensures CheckInputs(RenamedInputs(SymbolsOf(specs), specs), inputs).Some? <==> CheckInputs(specs, inputs).Some?
  {
    var symbols := SymbolsOf(specs);
    var renamed := RenamedInputs(symbols, specs);
    AllListed(specs);
    GuardsAreExact(specs, inputs);
    GuardsAreExact(renamed, inputs);
    if v :| Accepted(specs, inputs, v) {
      forall i | 0 <= i < |specs|
        ensures inputs[i].dtype == renamed[i].dtype
        ensures MeetsAll(inputs[i].shape, renamed[i].dimensions, Outer(symbols, v))
      {
        DimsForward(symbols, inputs[i].shape, specs[i].dimensions, v);
      }
      assert Accepted(renamed, inputs, Outer(symbols, v));
    }
    if v :| Accepted(renamed, inputs, v) {
      forall i | 0 <= i < |specs|
        ensures inputs[i].dtype == specs[i].dtype && MeetsAll(inputs[i].shape, specs[i].dimensions, Inner(symbols, v))
      {
        assert inputs[i].dtype == renamed[i].dtype;
        DimsBackward(symbols, inputs[i].shape, specs[i].dimensions, v);
      }
      assert Accepted(specs, inputs, Inner(symbols, v));
    }
  }

  lemma {:induction false} RenamedBind(symbols: seq<string>, specs: seq<ValueSpec>, env: Env, inputs: seq<Tensor>)
    requires |specs| == |inputs|
    ensures Bind(env, RenamedInputs(symbols, specs), inputs) == Bind(env, specs, inputs)
  {
    if specs != [] {
      RenamedBind(symbols, Front(specs), env, Front(inputs));
      InputsSplit(symbols, specs);
      var all := RenamedInputs(symbols, specs);
      assert Front(all) == RenamedInputs(symbols, Front(specs)) && Last(all) == RenamedSpec(symbols, Last(specs));
    }
  }

  lemma {:induction false} SameRun(k: Kernels, p: Program, q: Program, inputs: seq<Tensor>, state: Env, n: nat)
    requires SameBody(p, q) && n <= |p.operations|
    ensures RunTo(k, q, inputs, state, n) == RunTo(k, p, inputs, state, n)
  {
    if n == 0 {
      SameAcceptance(p.inputs, inputs);
      if |p.inputs| == |inputs| {
        RenamedBind(SymbolsOf(p.inputs), p.inputs, state, inputs);
      }
    } else {
      SameRun(k, p, q, inputs, state, n - 1);
    }
  }

  lemma SameExecute(k: Kernels, p: Program, q: Program, inputs: seq<Tensor>, state: Env)
    requires SameBody(p, q)
    ensures Execute(k, q, inputs, state) == Execute(k, p, inputs, state)
  {
    SameRun(k, p, q, inputs, state, |p.operations|);
  }

  lemma LoadedBody(c: Codec, p: Program, states: seq<string>)
    requires Faithful(c) && Valid(p, NamesOf(states)) && (NoConditional(p) ==> Exportable(p))
    requires Save(c, p, states).Some?
    requires Load(c, Save(c, p, states).value).Some?
    ensures Load(c, Save(c, p, states).value) == Some(Returned(p, states)) && SameBody(p, Returned(p, states))
  {
    ReimportIff(c, p, states);
    CleanAssembled(c, p, states);
    ReturnedValid(p, states);
  }

  /** Whenever an exported program imports again, it computes what the original computes, on every input. */
  lemma ReimportedMeansTheSame(c: Codec, p: Program, states: seq<string>, k: Kernels, inputs: seq<Tensor>, state: Env)
    requires Faithful(c) && Valid(p, NamesOf(states)) && (NoConditional(p) ==> Exportable(p))
    requires Save(c, p, states).Some?
    requires Load(c, Save(c, p, states).value).Some?
    ensures Execute(k, Load(c, Save(c, p, states).value).value, inputs, state) == Execute(k, p, inputs, state)
  {
    LoadedBody(c, p, states);
    SameExecute(k, p, Returned(p, states), inputs, state);
  }
}
