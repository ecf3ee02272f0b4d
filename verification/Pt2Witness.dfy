/** Models that export to PT2 but whose archives are rejected again: an operation
    named like the placeholder of the state, and an input tree as deep as allowed. */
module Pt2Witness {
  import opened Wrappers
  import opened Tensors
  import opened Programs
  import opened Validation
  import opened FreshNames
  import opened Pt2Trees
  import opened Pt2Operators
  import opened Pt2
  import opened Pt2RoundTrip

  const INPUT := ValueSpec("x", Float, [Known(2)])
  const SCALE := Operation("state_0", Multiply, ["x", "weight"])

  /** `x * weight`, the product called `state_0`. */
  const SCALED := Program(1, 1, [INPUT], Leaf("x"), [SCALE], Leaf("state_0"))

  lemma Validates()
    ensures Valid(SCALED, {"weight"})
  {
    var p := SCALED;
    var state := {"weight"};
    assert Front([INPUT]) == [] && Declare([], state) == Some(state);
    assert ValidName("x") && ValidName("state_0") && ValidSpec(INPUT);
    assert "x"[0] != "weight"[0] && "x" !in state;
    assert Declare([INPUT], state) == Some(state + {"x"});
    var none: seq<string> := [];
    assert none + ["x"] == ["x"] && none + ["state_0"] == ["state_0"];
    assert SpecNames(p.inputs) == ["x"];
    assert Walk(Leaf("x"), 0, none) == Some(["x"]) && Walk(Leaf("state_0"), 0, none) == Some(["state_0"]);
    assert ValidateTo(p, state, 0, 0, 0) == Some((state + {"x"}, 2));
    assert "state_0"[0] != "x"[0] && "state_0"[0] != "weight"[0] && "state_0" !in state + {"x"};
    assert CheckOperation(SCALE, state + {"x"}, state, 0, 2) == Some(2);
    assert p.operations[0] == SCALE;
    assert ValidateTo(p, state, 0, 0, 1) == Some((state + {"x"} + {"state_0"}, 2));
  }

  lemma Saves(c: Codec)
    ensures Exportable(SCALED) && Save(c, SCALED, ["weight"]).Some?
  {
    var p := SCALED;
    assert p.inputs == [INPUT] && Front([INPUT]) == [];
    assert "x"[0] != Placeholder(0)[0];
    var none: seq<string>, ranges: map<string, Bounds> := [], map[];
    var sizes := INPUT.dimensions;
    assert Front(sizes) == [] && Last(sizes) == Known(2);
    assert AddSymbols(none, []) == none;
    assert SymbolsOf([]) == none && SymbolsOf([INPUT]) == AddSymbols(none, sizes) == none;
    assert RangesOf(none, []) == Some(ranges) && AddRanges(none, ranges, []) == Some(ranges);
    assert AddRanges(none, ranges, sizes) == Some(ranges);
    assert RangesOf(SymbolsOf(p.inputs), p.inputs) == Some(map[]);
    assert Walk(Leaf("state_0"), 0, none).Some?;
  }

  /** The model validates and exports, and the export is rejected. */
  lemma PlaceholderNameIsRejected(c: Codec)
    requires Faithful(c)
    ensures Valid(SCALED, {"weight"}) && Exportable(SCALED) && Save(c, SCALED, ["weight"]).Some?
    ensures Load(c, Save(c, SCALED, ["weight"]).value).None?
  {
    Validates();
    Saves(c);
    assert NamesOf(["weight"]) == {"weight"};
    assert Decimal(0) == "0" && Placeholder(0) == "state_" + "0" == "state_0";
    assert IsPlaceholder(["weight"], SCALED.operations[0].name);
    ReimportIff(c, SCALED, ["weight"]);
  }

  // ---- an input tree that wrapping takes over the limit ----

  function Nested(n: nat): Tree
  {
    if n == 0 then Leaf("x") else Tuple([Nested(n - 1)])
  }

  lemma {:induction false} NestedLeaves(n: nat, depth: nat, found: seq<string>)
    requires |found| <= MAX_NODES
    ensures Walk(Nested(n), depth, found) == if depth + n > MAX_DEPTH then None else Some(found + ["x"])
  {
    if n > 0 {
      NestedLeaves(n - 1, depth + 1, found);
      var items := [Nested(n - 1)];
      assert items[1..] == [];
      assert WalkAll(items, depth + 1, found) == Walk(Nested(n - 1), depth + 1, found);
    }
  }

  const RELU := Operation("y", Relu, ["x"])

  /** `relu(x)` under an input tree of the greatest depth. */
  const DEEP := Program(1, 1, [INPUT], Nested(MAX_DEPTH), [RELU], Leaf("y"))

  lemma DeepLeaves()
    ensures Leaves(DEEP.inputTree) == Some(["x"]) && Leaves(Wrapped(DEEP.inputTree)).None?
  {
    var none: seq<string> := [];
    assert none + ["x"] == ["x"];
    NestedLeaves(MAX_DEPTH, 0, none);
    NestedLeaves(MAX_DEPTH, 1, none);
    var items := [DEEP.inputTree, Dict([])];
    assert Wrapped(DEEP.inputTree) == Tuple(items);
    assert WalkAll(items, 1, none).None?;
  }

  lemma DeepValidates()
    ensures Valid(DEEP, {})
  {
    var p := DEEP;
    var state: set<string> := {};
    DeepLeaves();
    assert Front([INPUT]) == [] && Declare([], state) == Some(state);
    assert ValidName("x") && ValidName("y") && ValidSpec(INPUT);
    assert Declare([INPUT], state) == Some(state + {"x"});
    var none: seq<string> := [];
    assert none + ["y"] == ["y"];
    assert SpecNames(p.inputs) == ["x"];
    assert Walk(Leaf("y"), 0, none) == Some(["y"]);
    assert ValidateTo(p, state, 0, 0, 0) == Some((state + {"x"}, 2));
    assert "y" != "x" && "y" !in state + {"x"};
    assert CheckOperation(RELU, state + {"x"}, state, 0, 2) == Some(2);
    assert p.operations[0] == RELU;
    assert ValidateTo(p, state, 0, 0, 1) == Some((state + {"x"} + {"y"}, 2));
  }

  lemma DeepSaves(c: Codec)
    ensures Exportable(DEEP) && Save(c, DEEP, []).Some?
  {
    var p := DEEP;
    assert p.inputs == [INPUT] && Front([INPUT]) == [];
    var none: seq<string>, ranges: map<string, Bounds> := [], map[];
    var sizes := INPUT.dimensions;
    assert Front(sizes) == [] && Last(sizes) == Known(2);
    assert AddSymbols(none, []) == none;
    assert SymbolsOf([]) == none && SymbolsOf([INPUT]) == AddSymbols(none, sizes) == none;
    assert RangesOf(none, []) == Some(ranges) && AddRanges(none, ranges, []) == Some(ranges);
    assert AddRanges(none, ranges, sizes) == Some(ranges);
    assert RangesOf(SymbolsOf(p.inputs), p.inputs) == Some(map[]);
    assert Walk(Leaf("y"), 0, none).Some?;
  }

  /** The model validates and exports, and the export is rejected. */
  lemma DeepTreeIsRejected(c: Codec)
    requires Faithful(c)
    ensures Valid(DEEP, {}) && Exportable(DEEP) && Save(c, DEEP, []).Some?
    ensures Load(c, Save(c, DEEP, []).value).None?
  {
    DeepValidates();
    DeepSaves(c);
    DeepLeaves();
    assert NamesOf([]) == {};
    ReimportIff(c, DEEP, []);
  }
}
