/** A model that exports to ONNX and runs, but whose export is rejected again. */
module OnnxWitness {
  import opened Wrappers
  import opened Tensors
  import opened Programs
  import opened Validation
  import opened InferSpecs
  import opened KernelLaws
  import opened Onnx
  import opened OnnxRoundTrip
  import opened OnnxMeaning
  import opened OnnxTheorems

  const SCALAR := ValueSpec("s", Float, [])
  const MATRIX := ValueSpec("m", Float, [Known(2), Known(2)])
  const SHIFT := Operation("t", Add, ["s", "m"])
  const SQUARE := Operation("y", Matmul, ["t", "m"])

  /** `(s + m) @ m` with the scalar as first operand. */
  const SHIFTED_PRODUCT := Program(1, 1, [SCALAR, MATRIX], Tuple([Leaf("s"), Leaf("m")]), [SHIFT, SQUARE], Leaf("y"))

  lemma Declared()
    ensures Declare(SHIFTED_PRODUCT.inputs, {}) == Some({"s", "m"}) && NameSet(SHIFTED_PRODUCT.inputs) == {"s", "m"}
  {
    var inputs := [SCALAR, MATRIX];
    assert Front(inputs) == [SCALAR] && Front([SCALAR]) == [];
    var none: set<string> := {};
    assert Declare([], none) == Some(none);
    assert ValidName("s") && ValidName("m");
    assert ValidSpec(SCALAR) && ValidSpec(MATRIX);
    assert none + {"s"} == {"s"};
    assert Declare([SCALAR], none) == Some({"s"});
    assert "s" != "m";
    assert NameSet([]) == none;
    assert NameSet([SCALAR]) == NameSet([]) + {"s"} == {"s"};
    assert NameSet(inputs) == NameSet([SCALAR]) + {"m"} == {"s", "m"};
    assert Declare(inputs, none) == Some({"s"} + {"m"});
    assert {"s"} + {"m"} == {"s", "m"};
  }

  lemma Trees()
    ensures Leaves(SHIFTED_PRODUCT.inputTree) == Some(SpecNames(SHIFTED_PRODUCT.inputs))
    ensures Leaves(SHIFTED_PRODUCT.outputTree) == Some(["y"])
  {
    var items := [Leaf("s"), Leaf("m")];
    assert items[1..] == [Leaf("m")] && items[1..][1..] == [];
    var none: seq<string> := [];
    assert none + ["s"] == ["s"] && ["s"] + ["m"] == ["s", "m"] && none + ["y"] == ["y"];
    assert Walk(Leaf("s"), 1, none) == Some(["s"]);
    assert Walk(Leaf("m"), 1, ["s"]) == Some(["s", "m"]);
    assert WalkAll(items[1..], 1, ["s"]) == Some(["s", "m"]);
    assert WalkAll(items, 1, none) == Some(["s", "m"]);
    assert Walk(SHIFTED_PRODUCT.inputTree, 0, none) == WalkAll(items, 1, none);
    assert SpecNames(SHIFTED_PRODUCT.inputs) == ["s", "m"];
  }

  lemma Validates()
    ensures ArtifactOk(SHIFTED_PRODUCT, {})
  {
    Declared();
    Trees();
    var p := SHIFTED_PRODUCT;
    assert ValidateTo(p, {}, 0, 0, 0) == Some(({"s", "m"}, 4));
    assert "t" !in {"s", "m"} && "y" !in {"s", "m"} + {"t"};
    assert CheckOperation(SHIFT, {"s", "m"}, {}, 0, 4) == Some(4);
    assert p.operations[0] == SHIFT && p.operations[1] == SQUARE;
    assert ValidateTo(p, {}, 0, 0, 1) == Some(({"s", "m"} + {"t"}, 4));
    assert CheckOperation(SQUARE, {"s", "m"} + {"t"}, {}, 0, 4) == Some(4);
    assert ValidateTo(p, {}, 0, 0, 2) == Some(({"s", "m"} + {"t"} + {"y"}, 4));
  }

  /** The export is rejected whatever run it was lowered from: the sum is
      recorded with the scalar's rank. */
  lemma RankIsRecordedWrong(values: Env)
    requires AllWellFormed(SHIFTED_PRODUCT)
    ensures !RecordedRanksOk(SHIFTED_PRODUCT, map[], values)
  {
    var p := SHIFTED_PRODUCT;
    var inputs := [SCALAR, MATRIX];
    assert Front(inputs) == [SCALAR] && Front([SCALAR]) == [];
    assert InputRanks([SCALAR]) == map["s" := 0];
    var r0 := RecordedTo(p, map[], values, 0).value;
    assert "s" in r0 && r0["s"] == 0 && "m" in r0;
    assert p.operations[0] == SHIFT && p.operations[1] == SQUARE;
    var r1 := RecordedTo(p, map[], values, 1);
    assert r1 == Some(r0["t" := 0]);
    assert RecordedTo(p, map[], values, 2).None?;
  }

  lemma ExampleTensors()
    ensures Examples(SHIFTED_PRODUCT.inputs).Some?
    ensures var xs := Examples(SHIFTED_PRODUCT.inputs).value;
      |xs| == 2 && xs[0].dtype == xs[1].dtype == Float && xs[0].shape == [] && xs[1].shape == [2, 2]
  {
    var inputs := [SCALAR, MATRIX];
    assert Front(inputs) == [SCALAR] && Front([SCALAR]) == [];
    assert ExampleShape([]) == [];
    assert ExampleShape(MATRIX.dimensions) == [2, 2];
    assert CheckedCount([2], 2) == Some(4) by {
      assert [2][1..] == [];
    }
    assert [2, 2][1..] == [2];
    assert ByteCount([], Float) == Some(4) && ByteCount([2, 2], Float) == Some(16);
    assert Examples([SCALAR]).Some?;
  }

  lemma GuardsAccept(xs: seq<Tensor>)
    requires |xs| == 2 && xs[0].dtype == xs[1].dtype == Float && xs[0].shape == [] && xs[1].shape == [2, 2]
    ensures CheckInputs(SHIFTED_PRODUCT.inputs, xs).Some?
  {
    assert Accepted(SHIFTED_PRODUCT.inputs, xs, map[]);
    GuardsAreExact(SHIFTED_PRODUCT.inputs, xs);
  }

  lemma Runs(k: Kernels, xs: seq<Tensor>)
    requires k.promote(Float, Float) == Some(Float)
    requires |xs| == 2 && xs[0].dtype == xs[1].dtype == Float && xs[0].shape == [] && xs[1].shape == [2, 2]
    ensures RunTo(k, SHIFTED_PRODUCT, xs, map[], 2).Ok?
  {
    var p := SHIFTED_PRODUCT;
    GuardsAccept(xs);
    Declared();
    var none: Env := map[];
    assert none.Keys == {};
    DeclareNames(p.inputs, {});
    BindKeys(none, p.inputs, xs);
    var env := Bind(none, p.inputs, xs);
    assert p.inputs[0].name == "s" && p.inputs[1].name == "m";
    assert Lookup(env, ["s", "m"]) == [xs[0], xs[1]];
    SumRuns(k, xs[0], xs[1]);
    var t := Apply(k, Add, [xs[0], xs[1]]).value;
    AdvanceValue(k, SHIFT, env, map[], [xs[0], xs[1]], t);
    assert p.operations[0] == SHIFT && p.operations[1] == SQUARE;
    assert RunTo(k, p, xs, map[], 1) == Ok(env["t" := t]);
    assert "t" != "m";
    assert Lookup(env["t" := t], ["t", "m"]) == [t, xs[1]];
    ProductRuns(k, t, xs[1]);
    AdvanceValue(k, SQUARE, env["t" := t], map[], [t, xs[1]], Apply(k, Matmul, [t, xs[1]]).value);
  }

  lemma SumRuns(k: Kernels, s: Tensor, m: Tensor)
    requires k.promote(Float, Float) == Some(Float) && s.dtype == m.dtype == Float && s.shape == [] && m.shape == [2, 2]
    ensures var t := Apply(k, Add, [s, m]); t.Ok? && t.value.shape == [2, 2] && t.value.dtype == Float
  {
    assert Shapes([s, m]) == [s.shape, m.shape] && Kinds([s, m]) == [Float, Float];
    assert [Float, Float][..2] == [Float, Float];
    AddKind(k, Float, Float);
  }

  lemma ProductRuns(k: Kernels, t: Tensor, m: Tensor)
    requires k.promote(Float, Float) == Some(Float) && t.dtype == m.dtype == Float && t.shape == m.shape == [2, 2]
    ensures Apply(k, Matmul, [t, m]).Ok?
  {
    assert Shapes([t, m]) == [t.shape, m.shape] && Kinds([t, m]) == [Float, Float];
    assert [Float, Float][..2] == [Float, Float];
    AddKind(k, Float, Float);
    assert Batch([2, 2]) == [];
  }

  lemma InfersSum(specs: Specs)
    requires "s" in specs && "m" in specs && specs["s"] == SCALAR && specs["m"] == MATRIX
    ensures InferNode(SHIFT, specs) == Some(ValueSpec("t", Float, [Known(2), Known(2)]))
  {
    assert DimsOf(specs, SHIFT.inputs) == [[], [Known(2), Known(2)]];
  }

  lemma InfersProduct(specs: Specs)
    requires "t" in specs && "m" in specs && specs["t"] == ValueSpec("t", Float, [Known(2), Known(2)])
    requires specs["m"] == MATRIX
    ensures InferNode(SQUARE, specs).Some?
  {
    var d := [Known(2), Known(2)];
    assert DimsOf(specs, SQUARE.inputs) == [d, d];
    assert Batch(d) == [];
    assert MatmulDims(d, d).Some?;
  }

  const NO_STATE: Env := map[]

  lemma NoState()
    ensures NO_STATE.Keys == {} && StateSpecs(NO_STATE) == map[] && RanksBounded(NO_STATE)
  {
  }

  lemma Infers()
    ensures Infer(SHIFTED_PRODUCT, NO_STATE).Some?
  {
    var p := SHIFTED_PRODUCT;
    NoState();
    Declared();
    DeclareNames(p.inputs, {});
    BindSpecsKeys(p.inputs);
    var specs := BindSpecs(p.inputs) + StateSpecs(NO_STATE);
    assert p.inputs[0].name == "s" && p.inputs[1].name == "m";
    InfersSum(specs);
    assert p.operations[0] == SHIFT && p.operations[1] == SQUARE;
    var next := specs["t" := ValueSpec("t", Float, [Known(2), Known(2)])];
    assert InferTo(p, NO_STATE, 0) == Some(specs);
    assert InferTo(p, NO_STATE, 1) == Some(next);
    assert "t" != "m";
    InfersProduct(next);
    assert InferTo(p, NO_STATE, 2).Some?;
  }

  /** `(s + m) @ m` is valid, runs, and exports; importing the export fails. */
  lemma ScalarFirstOperandIsRejected(k: Kernels)
    requires k.promote(Float, Float) == Some(Float)
    ensures Valid(SHIFTED_PRODUCT, NO_STATE.Keys)
    ensures Save(k, SHIFTED_PRODUCT, NO_STATE).Some? && Load(Save(k, SHIFTED_PRODUCT, NO_STATE).value).None?
  {
    var p := SHIFTED_PRODUCT;
    NoState();
    Validates();
    assert Save(k, p, NO_STATE).Some? by {
      Saves(k);
    }
    ReimportExactly(k, p, NO_STATE);
    RankIsRecordedWrong(ExampleRun(k, p, NO_STATE).value);
  }

  lemma Saves(k: Kernels)
    requires k.promote(Float, Float) == Some(Float) && Valid(SHIFTED_PRODUCT, NO_STATE.Keys)
    ensures Save(k, SHIFTED_PRODUCT, NO_STATE).Some?
  {
    var p := SHIFTED_PRODUCT;
    ExampleTensors();
    Runs(k, Examples(p.inputs).value);
    Infers();
    ValidIsWellFormed(p, NO_STATE.Keys);
    Lowers(ExampleRun(k, p, NO_STATE).value);
  }

  lemma Lowers(values: Env)
    requires AllWellFormed(SHIFTED_PRODUCT)
    ensures LowerTo(SHIFTED_PRODUCT, NO_STATE, values, 2).Some?
  {
    var p := SHIFTED_PRODUCT;
    assert p.operations[0] == SHIFT && p.operations[1] == SQUARE;
    assert LowerTo(p, NO_STATE, values, 0).Some?;
    assert LowerTo(p, NO_STATE, values, 1).Some?;
  }
}
