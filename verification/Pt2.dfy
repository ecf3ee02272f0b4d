/** PT2 archives: what importing an export gives back (src/deployment/pt2.rs). */
module Pt2 {
  import opened Wrappers
  import opened Tensors
  import opened Programs
  import opened Validation
  import opened FreshNames
  import opened Pt2Trees
  import opened Pt2Operators

  datatype ArchiveNode = ArchiveNode(target: string, args: seq<Member>, output: string)

  datatype ArchiveInput = ArchiveInput(name: string, code: int, sizes: seq<Json>)

  datatype Bounds = Bounds(min: int, max: Option<int>)

  /** The decoded document. `placeholders` pairs graph arguments with state names. */
  datatype Archive = Archive(
    placeholders: seq<(string, string)>, inputs: seq<ArchiveInput>, ranges: map<string, Bounds>,
    nodes: seq<ArchiveNode>, outputs: seq<string>, inSpec: Json, outSpec: Json)

  // ---- symbol text ----

  const OPEN: string := "Symbol('"
  const CLOSE: string := "', positive=True, integer=True)"
  const CLOSE_ANY: string := "', integer=True)"

  function SymbolText(name: string): string
  {
    OPEN + name + CLOSE
  }

  function StripSuffix(s: string, suffix: string): Option<string>
  {
    if |suffix| <= |s| && s[|s| - |suffix|..] == suffix then Some(s[..|s| - |suffix|]) else None
  }

  predicate Plain(c: char)
  {
    'a' <= c <= 'z' || 'A' <= c <= 'Z' || '0' <= c <= '9' || c == '_'
  }

  /** One serialised symbol, never an expression. */
  function ParseSymbol(text: string): Option<string>
  {
    if !(OPEN <= text) then None
    else
      var tail := text[|OPEN|..];
      var inner := if StripSuffix(tail, CLOSE).Some? then StripSuffix(tail, CLOSE) else StripSuffix(tail, CLOSE_ANY);
      if inner.None? || inner.value == "" || exists c | c in inner.value :: !Plain(c) then None else inner
  }

  lemma SymbolRead(name: string)
    requires name != "" && forall c | c in name :: Plain(c)
    ensures ParseSymbol(SymbolText(name)) == Some(name)
  {
    var text := SymbolText(name);
    assert text[..|OPEN|] == OPEN;
    var tail := text[|OPEN|..];
    assert tail == name + CLOSE;
    assert tail[|tail| - |CLOSE|..] == CLOSE && tail[..|tail| - |CLOSE|] == name;
  }

  // ---- saving ----

  function Placeholder(i: nat): string
  {
    Numbered("state_", i)
  }

  function Position(names: seq<string>, n: string): (i: nat)
    ensures i <= |names|
    ensures i < |names| ==> names[i] == n
    ensures i == |names| ==> n !in names
  {
    if names == [] then 0 else if names[0] == n then 0 else 1 + Position(names[1..], n)
  }

  /** The exported spelling of a program name. */
  function Outward(states: seq<string>, n: string): string
  {
    var i := Position(states, n);
    if i < |states| then Placeholder(i) else n
  }

  function OutwardAll(states: seq<string>, names: seq<string>): (r: seq<string>)
    ensures |r| == |names|
  {
    seq(|names|, i requires 0 <= i < |names| => Outward(states, names[i]))
  }

  /** Symbols in order of first use. */
  function AddSymbols(found: seq<string>, dimensions: seq<Dimension>): seq<string>
  {
    if dimensions == [] then found
    else
      var before, d := AddSymbols(found, Front(dimensions)), Last(dimensions);
      if d.Symbol? && d.name !in before then before + [d.name] else before
  }

  function SymbolsOf(inputs: seq<ValueSpec>): seq<string>
  {
    if inputs == [] then [] else AddSymbols(SymbolsOf(Front(inputs)), Last(inputs).dimensions)
  }

  function NewSymbol(symbols: seq<string>, s: string): string
  {
    Numbered("s", Position(symbols, s))
  }

  function Code(d: DType): int
  {
    match d
    case Float => 7
    case Double => 8
    case Int64 => 5
    case Bool => 12
  }

  function SizeJson(symbols: seq<string>, d: Dimension): Json
  {
    match d
    case Known(n) => IntArg(n)
    case Symbol(s, min, _) =>
      Object([Member("as_expr", Object([Member("expr_str", Text(SymbolText(NewSymbol(symbols, s)))),
                                        Member("hint", IntArg(if min > 2 then min else 2))]))])
  }

  function SizesJson(symbols: seq<string>, dimensions: seq<Dimension>): (r: seq<Json>)
    ensures |r| == |dimensions|
  {
    seq(|dimensions|, i requires 0 <= i < |dimensions| => SizeJson(symbols, dimensions[i]))
  }

  function InputJson(symbols: seq<string>, s: ValueSpec): ArchiveInput
  {
    ArchiveInput(s.name, Code(s.dtype), SizesJson(symbols, s.dimensions))
  }

  /** The bounds recorded per exported symbol, or `None` when two uses disagree. */
  function AddRanges(symbols: seq<string>, ranges: map<string, Bounds>,
                     dimensions: seq<Dimension>): Option<map<string, Bounds>>
  {
    if dimensions == [] then Some(ranges)
    else
      var before, d := AddRanges(symbols, ranges, Front(dimensions)), Last(dimensions);
      if before.None? || d.Known? then before
      else
        var s, b := NewSymbol(symbols, d.name), Bounds(d.min, d.max);
        if s in before.value && before.value[s] != b then None else Some(before.value[s := b])
  }

  function RangesOf(symbols: seq<string>, inputs: seq<ValueSpec>): Option<map<string, Bounds>>
  {
    if inputs == [] then Some(map[])
    else
      var before := RangesOf(symbols, Front(inputs));
      if before.None? then None else AddRanges(symbols, before.value, Last(inputs).dimensions)
  }

  /** The input structure PyTorch expects: positional and keyword arguments. */
  function Wrapped(t: Tree): Tree
  {
    if t.Tuple? && |t.items| == 2 && t.items[0].Tuple? && t.items[1].Dict? then t else Tuple([t, Dict([])])
  }

  predicate Exportable(p: Program)
  {
    forall i | 0 <= i < |p.operations| ::
      !p.operations[i].operator.If? && WellFormed(p.operations[i].operator, |p.operations[i].inputs|)
  }

  function NodeOf(states: seq<string>, node: Operation): ArchiveNode
    requires !node.operator.If? && WellFormed(node.operator, |node.inputs|)
  {
    ArchiveNode(Target(node.operator), PrintArgs(node.operator, OutwardAll(states, node.inputs)), node.name)
  }

  function NodesOf(states: seq<string>, operations: seq<Operation>): (r: seq<ArchiveNode>)
    requires forall i | 0 <= i < |operations| ::
      !operations[i].operator.If? && WellFormed(operations[i].operator, |operations[i].inputs|)
    ensures |r| == |operations|
  {
    seq(|operations|, i requires 0 <= i < |operations| => NodeOf(states, operations[i]))
  }

  function PlaceholdersOf(states: seq<string>): (r: seq<(string, string)>)
    ensures |r| == |states|
  {
    seq(|states|, i requires 0 <= i < |states| => (Placeholder(i), states[i]))
  }

  /** `save`, up to its example run: conditionals, input names that look like
      placeholders and disagreeing symbol bounds are refused. */
  function Save(c: Codec, p: Program, states: seq<string>): Option<Archive>
    requires (forall i | 0 <= i < |p.operations| :: !p.operations[i].operator.If?) ==> Exportable(p)
  {
    var symbols := SymbolsOf(p.inputs);
    var ranges, leaves := RangesOf(symbols, p.inputs), Leaves(p.outputTree);
    if exists i | 0 <= i < |p.operations| :: p.operations[i].operator.If? then None
    else if exists i, j | 0 <= i < |p.inputs| && 0 <= j < |states| :: p.inputs[i].name == Placeholder(j) then None
    else if ranges.None? || leaves.None? then None
    else
      Some(Archive(
        PlaceholdersOf(states),
        seq(|p.inputs|, i requires 0 <= i < |p.inputs| => InputJson(symbols, p.inputs[i])), ranges.value,
        NodesOf(states, p.operations), OutwardAll(states, leaves.value),
        Document(c, Wrapped(p.inputTree)), Document(c, p.outputTree)))
  }

  // ---- loading ----

  function Inward(placeholders: seq<(string, string)>, n: string): string
  {
    if placeholders == [] then n
    else if placeholders[0].0 == n then placeholders[0].1
    else Inward(placeholders[1..], n)
  }

  function InwardAll(placeholders: seq<(string, string)>, names: seq<string>): (r: seq<string>)
    ensures |r| == |names|
  {
    seq(|names|, i requires 0 <= i < |names| => Inward(placeholders, names[i]))
  }

  function DTypeOf(code: int): Option<DType>
  {
    if code == 7 then Some(Float) else if code == 8 then Some(Double)
    else if code == 5 then Some(Int64) else if code == 12 then Some(Bool) else None
  }

  function ReadSize(j: Json, ranges: map<string, Bounds>): Option<Dimension>
  {
    if Has(j, "as_int") then
      var n := Field(j, "as_int");
      if |j.members| == 1 && n.Number? then Some(Known(n.n)) else None
    else
      var text := Field(Field(j, "as_expr"), "expr_str");
      var s := if text.Text? then ParseSymbol(text.text) else None;
      if s.None? then None
      else if s.value in ranges then Some(Symbol(s.value, ranges[s.value].min, ranges[s.value].max))
      else Some(Symbol(s.value, 0, None))
  }

  function ReadSizes(sizes: seq<Json>, ranges: map<string, Bounds>): Option<seq<Dimension>>
  {
    if sizes == [] then Some([])
    else
      var before, last := ReadSizes(Front(sizes), ranges), ReadSize(Last(sizes), ranges);
      if before.None? || last.None? then None else Some(before.value + [last.value])
  }

  function ReadInputs(inputs: seq<ArchiveInput>, ranges: map<string, Bounds>): (r: Option<seq<ValueSpec>>)
    ensures r.Some? ==> |r.value| == |inputs|
  {
    if inputs == [] then Some([])
    else
      var before, last := ReadInputs(Front(inputs), ranges), Last(inputs);
      var dtype, dims := DTypeOf(last.code), ReadSizes(last.sizes, ranges);
      if before.None? || dtype.None? || dims.None? then None
      else Some(before.value + [ValueSpec(last.name, dtype.value, dims.value)])
  }

  function ReadNode(node: ArchiveNode, placeholders: seq<(string, string)>): Option<Operation>
  {
    var args := ArgMap(node.args);
    if args.None? then None
    else
      var parsed := ParseOperator(node.target, args.value);
      if parsed.None? || parsed.value.left != map[] then None
      else Some(Operation(Inward(placeholders, node.output), parsed.value.operator,
                          InwardAll(placeholders, parsed.value.inputs)))
  }

  function ReadNodes(nodes: seq<ArchiveNode>, placeholders: seq<(string, string)>): (r: Option<seq<Operation>>)
    ensures r.Some? ==> |r.value| == |nodes|
  {
    if nodes == [] then Some([])
    else
      var before, last := ReadNodes(Front(nodes), placeholders), ReadNode(Last(nodes), placeholders);
      if before.None? || last.None? then None else Some(before.value + [last.value])
  }

  predicate DistinctPlaceholders(placeholders: seq<(string, string)>)
  {
    forall i, j | 0 <= i < j < |placeholders| :: placeholders[i].0 != placeholders[j].0
  }

  function StateNames(placeholders: seq<(string, string)>): set<string>
  {
    set e | e in placeholders :: e.1
  }

  /** The program `load` assembles before validating it. */
  function Assemble(c: Codec, a: Archive): Option<Program>
  {
    var inputs, operations := ReadInputs(a.inputs, a.ranges), ReadNodes(a.nodes, a.placeholders);
    if !DistinctPlaceholders(a.placeholders) || inputs.None? || operations.None? || |a.nodes| > MAX_NODES then None
    else
      var inputTree := ParseTree(c, a.inSpec, SpecNames(inputs.value));
      var outputTree := ParseTree(c, a.outSpec, InwardAll(a.placeholders, a.outputs));
      if inputTree.None? || outputTree.None? then None
      else Some(Program(1, 1, inputs.value, inputTree.value, operations.value, outputTree.value))
  }

  /** `load`: assembly, then validation as part of model construction. */
  function Load(c: Codec, a: Archive): Option<Program>
  {
    var p := Assemble(c, a);
    if p.Some? && Valid(p.value, StateNames(a.placeholders)) then p else None
  }
}
