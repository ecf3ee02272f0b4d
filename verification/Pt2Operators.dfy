/** Operators in PT2 archives: printing against parsing (src/deployment/pt2.rs). */
module Pt2Operators {
  import opened Wrappers
  import opened Tensors
  import opened Programs
  import opened Validation
  import opened Pt2Trees

  type Args = map<string, Json>

  // ---- reading arguments ----

  /** A one-member object naming a tensor. */
  function TensorName(j: Json): Option<string>
  {
    if j.Object? && |j.members| == 1 then
      var name := Field(Field(j, "as_tensor"), "name");
      if name.Text? then Some(name.text) else None
    else None
  }

  /** Removes an argument; the rest stays. */
  function Take(args: Args, key: string): (Option<Json>, Args)
  {
    (if key in args then Some(args[key]) else None, args - {key})
  }

  function TakeTensor(args: Args, key: string): Option<(string, Args)>
  {
    var (j, rest) := Take(args, key);
    if j.None? || TensorName(j.value).None? then None else Some((TensorName(j.value).value, rest))
  }

  function TakeInt(args: Args, key: string, default: Option<int>): Option<(int, Args)>
  {
    var (j, rest) := Take(args, key);
    if j.None? then if default.Some? then Some((default.value, rest)) else None
    else
      var n := Field(j.value, "as_int");
      if n.Number? then Some((n.n, rest)) else None
  }

  function Integers(items: seq<Json>): Option<seq<int>>
  {
    if items == [] then Some([])
    else
      var rest := Integers(items[1..]);
      if rest.None? || !items[0].Number? then None else Some([items[0].n] + rest.value)
  }

  function WrappedIntegers(items: seq<Json>): Option<seq<int>>
  {
    if items == [] then Some([])
    else
      var rest, n := WrappedIntegers(items[1..]), Field(items[0], "as_int");
      if rest.None? || !n.Number? then None else Some([n.n] + rest.value)
  }

  function ListedNames(items: seq<Json>): Option<seq<string>>
  {
    if items == [] then Some([])
    else
      var rest, name := ListedNames(items[1..]), Field(items[0], "name");
      if rest.None? || !name.Text? then None else Some([name.text] + rest.value)
  }

  function ArgMap(args: seq<Member>): Option<Args>
  {
    if args == [] then Some(map[])
    else
      var before, last := ArgMap(Front(args)), Last(args);
      if before.None? || last.key in before.value then None else Some(before.value[last.key := last.json])
  }

  // ---- parsing ----

  datatype Parsed = Parsed(operator: Operator, inputs: seq<string>, left: Args)

  function ParseUnary(op: Operator, args: Args): Option<Parsed>
  {
    var x := TakeTensor(args, "self");
    if x.None? then None else Some(Parsed(op, [x.value.0], x.value.1))
  }

  /** Element-wise arithmetic and matrix products; a scale other than one is rejected. */
  function ParseBinary(op: Operator, other: string, args: Args): Option<Parsed>
  {
    var a := TakeTensor(args, "self");
    if a.None? then None
    else
      var b := TakeTensor(a.value.1, other);
      if b.None? then None
      else
        var (alpha, rest) := Take(b.value.1, "alpha");
        if alpha.Some? && alpha.value != Object([Member("as_int", Number(1))]) &&
           alpha.value != Object([Member("as_float", Fraction(1.0))]) then None
        else Some(Parsed(op, [a.value.0, b.value.0], rest))
  }

  function ParseLinear(args: Args): Option<Parsed>
  {
    var x := TakeTensor(args, "input");
    if x.None? then None
    else
      var w := TakeTensor(x.value.1, "weight");
      if w.None? then None
      else
        var (bias, rest) := Take(w.value.1, "bias");
        if bias.None? || bias.value == Object([Member("as_none", Flag(true))]) then
          Some(Parsed(Linear, [x.value.0, w.value.0], rest))
        else if TensorName(bias.value).None? then None
        else Some(Parsed(Linear, [x.value.0, w.value.0, TensorName(bias.value).value], rest))
  }

  predicate Has(j: Json, key: string)
  {
    j.Object? && exists m | m in j.members :: m.key == key
  }

  function ParseReshape(key: string, args: Args): Option<Parsed>
  {
    var x := TakeTensor(args, "self");
    if x.None? then None
    else
      var (j, rest) := Take(x.value.1, key);
      if j.None? then None
      else
        var plain, wrapped := Field(j.value, "as_ints"), Field(j.value, "as_sym_ints");
        var shape :=
          if Has(j.value, "as_ints") then (if plain.Items? then Integers(plain.items) else None)
          else if wrapped.Items? then WrappedIntegers(wrapped.items) else None;
        if shape.None? then None else Some(Parsed(Reshape(shape.value), [x.value.0], rest))
  }

  function ParseTwoInts(args: Args, first: string, second: string,
                        defaults: (Option<int>, Option<int>)): Option<(string, int, int, Args)>
  {
    var x := TakeTensor(args, "self");
    if x.None? then None
    else
      var a := TakeInt(x.value.1, first, defaults.0);
      if a.None? then None
      else
        var b := TakeInt(a.value.1, second, defaults.1);
        if b.None? then None else Some((x.value.0, a.value.0, b.value.0, b.value.1))
  }

  function ParsePermute(args: Args): Option<Parsed>
  {
    var x := TakeTensor(args, "self");
    if x.None? then None
    else
      var (j, rest) := Take(x.value.1, "dims");
      if j.None? || !Field(j.value, "as_ints").Items? then None
      else
        var axes := Integers(Field(j.value, "as_ints").items);
        if axes.None? then None else Some(Parsed(Permute(axes.value), [x.value.0], rest))
  }

  function ParseCat(args: Args): Option<Parsed>
  {
    var (j, rest) := Take(args, "tensors");
    if j.None? || !Field(j.value, "as_tensors").Items? then None
    else
      var names, dim := ListedNames(Field(j.value, "as_tensors").items), TakeInt(rest, "dim", Some(0));
      if names.None? || dim.None? then None else Some(Parsed(Cat(dim.value.0), names.value, dim.value.1))
  }

  /** `parse_operator` before names are mapped back. */
  function ParseOperator(target: string, args: Args): Option<Parsed>
  {
    if target == "torch.ops.aten.relu.default" then ParseUnary(Relu, args)
    else if target == "torch.ops.aten.sigmoid.default" then ParseUnary(Sigmoid, args)
    else if target == "torch.ops.aten.tanh.default" then ParseUnary(Tanh, args)
    else if target == "torch.ops.aten.alias.default" then ParseUnary(Identity, args)
    else if target == "torch.ops.aten.add.Tensor" then ParseBinary(Add, "other", args)
    else if target == "torch.ops.aten.sub.Tensor" then ParseBinary(Subtract, "other", args)
    else if target == "torch.ops.aten.mul.Tensor" then ParseBinary(Multiply, "other", args)
    else if target == "torch.ops.aten.matmul.default" then ParseBinary(Matmul, "other", args)
    else if target == "torch.ops.aten.mm.default" then ParseBinary(Matmul, "mat2", args)
    else ParseShaping(target, args)
  }

  /** The operators that are not elementwise or plain products. */
  function ParseShaping(target: string, args: Args): Option<Parsed>
  {
    if target == "torch.ops.aten.linear.default" then ParseLinear(args)
    else if target == "torch.ops.aten.reshape.default" then ParseReshape("shape", args)
    else if target == "torch.ops.aten.view.default" then ParseReshape("size", args)
    else if target == "torch.ops.aten.flatten.using_ints" then
      var r := ParseTwoInts(args, "start_dim", "end_dim", (Some(0), Some(-1)));
      if r.None? then None else Some(Parsed(Flatten(r.value.1, r.value.2), [r.value.0], r.value.3))
    else if target == "torch.ops.aten.transpose.int" then
      var r := ParseTwoInts(args, "dim0", "dim1", (None, None));
      if r.None? then None else Some(Parsed(Transpose(r.value.1, r.value.2), [r.value.0], r.value.3))
    else if target == "torch.ops.aten.permute.default" then ParsePermute(args)
    else if target == "torch.ops.aten.cat.default" then ParseCat(args)
    else None
  }

  // ---- printing ----

  function TensorArg(name: string): Json
  {
    Object([Member("as_tensor", Object([Member("name", Text(name))]))])
  }

  function IntArg(n: int): Json
  {
    Object([Member("as_int", Number(n))])
  }

  function Numbers(values: seq<int>): (r: seq<Json>)
    ensures |r| == |values|
  {
    if values == [] then [] else [Number(values[0])] + Numbers(values[1..])
  }

  function WrappedNumbers(values: seq<int>): (r: seq<Json>)
    ensures |r| == |values|
  {
    if values == [] then [] else [IntArg(values[0])] + WrappedNumbers(values[1..])
  }

  function NamedTensors(names: seq<string>): (r: seq<Json>)
    ensures |r| == |names|
  {
    if names == [] then [] else [Object([Member("name", Text(names[0]))])] + NamedTensors(names[1..])
  }

  function Target(op: Operator): string
  {
    match op
    case Identity => "torch.ops.aten.alias.default"
    case Relu => "torch.ops.aten.relu.default"
    case Sigmoid => "torch.ops.aten.sigmoid.default"
    case Tanh => "torch.ops.aten.tanh.default"
    case Add => "torch.ops.aten.add.Tensor"
    case Subtract => "torch.ops.aten.sub.Tensor"
    case Multiply => "torch.ops.aten.mul.Tensor"
    case Matmul => "torch.ops.aten.matmul.default"
    case Linear => "torch.ops.aten.linear.default"
    case Reshape(_) => "torch.ops.aten.reshape.default"
    case Flatten(_, _) => "torch.ops.aten.flatten.using_ints"
    case Transpose(_, _) => "torch.ops.aten.transpose.int"
    case Permute(_) => "torch.ops.aten.permute.default"
    case Cat(_) => "torch.ops.aten.cat.default"
    case If(_, _, _) => ""
  }

  /** The named arguments `save` writes for an operator on the given names. */
  function PrintArgs(op: Operator, n: seq<string>): seq<Member>
    requires !op.If? && WellFormed(op, |n|)
  {
    match op
    case Add => [Member("self", TensorArg(n[0])), Member("other", TensorArg(n[1]))]
    case Subtract => [Member("self", TensorArg(n[0])), Member("other", TensorArg(n[1]))]
    case Multiply => [Member("self", TensorArg(n[0])), Member("other", TensorArg(n[1]))]
    case Matmul => [Member("self", TensorArg(n[0])), Member("other", TensorArg(n[1]))]
    case Linear =>
      [Member("input", TensorArg(n[0])), Member("weight", TensorArg(n[1]))] +
      if |n| > 2 then [Member("bias", TensorArg(n[2]))] else []
    case Reshape(shape) =>
      [Member("self", TensorArg(n[0])), Member("shape", Object([Member("as_sym_ints", Items(WrappedNumbers(shape)))]))]
    case Flatten(start, end) =>
      [Member("self", TensorArg(n[0])), Member("start_dim", IntArg(start)), Member("end_dim", IntArg(end))]
    case Transpose(dim0, dim1) =>
      [Member("self", TensorArg(n[0])), Member("dim0", IntArg(dim0)), Member("dim1", IntArg(dim1))]
    case Permute(axes) =>
      [Member("self", TensorArg(n[0])), Member("dims", Object([Member("as_ints", Items(Numbers(axes)))]))]
    case Cat(dim) =>
      [Member("tensors", Object([Member("as_tensors", Items(NamedTensors(n)))])), Member("dim", IntArg(dim))]
    case _ => [Member("self", TensorArg(n[0]))]
  }

  // ---- parsing undoes printing ----

  lemma TensorRead(name: string)
    ensures TensorName(TensorArg(name)) == Some(name)
  {
  }

  lemma {:induction false} NumbersRead(values: seq<int>)
    ensures Integers(Numbers(values)) == Some(values)
  {
    if values != [] {
      NumbersRead(values[1..]);
      assert Numbers(values)[1..] == Numbers(values[1..]);
      assert [values[0]] + values[1..] == values;
    }
  }

  lemma {:induction false} WrappedNumbersRead(values: seq<int>)
    ensures WrappedIntegers(WrappedNumbers(values)) == Some(values)
  {
    if values != [] {
      WrappedNumbersRead(values[1..]);
      assert WrappedNumbers(values)[1..] == WrappedNumbers(values[1..]);
      assert [values[0]] + values[1..] == values;
    }
  }

  lemma {:induction false} NamesRead(names: seq<string>)
    ensures ListedNames(NamedTensors(names)) == Some(names)
  {
    if names != [] {
      NamesRead(names[1..]);
      assert NamedTensors(names)[1..] == NamedTensors(names[1..]);
      assert [names[0]] + names[1..] == names;
    }
  }

  lemma ArgMapOne(a: Member)
    ensures ArgMap([a]) == Some(map[a.key := a.json])
  {
    assert Front([a]) == [];
  }

  lemma ArgMapTwo(a: Member, b: Member)
    requires a.key != b.key
    ensures ArgMap([a, b]) == Some(map[a.key := a.json, b.key := b.json])
  {
    assert Front([a, b]) == [a];
    ArgMapOne(a);
  }

  lemma ArgMapThree(a: Member, b: Member, c: Member)
    requires a.key != b.key && a.key != c.key && b.key != c.key
    ensures ArgMap([a, b, c]) == Some(map[a.key := a.json, b.key := b.json, c.key := c.json])
  {
    assert Front([a, b, c]) == [a, b];
    ArgMapTwo(a, b);
  }

  function NoArgs(): Args
  {
    map[]
  }

  lemma UnaryRoundTrip(op: Operator, n: seq<string>)
    requires |n| == 1
    ensures ArgMap([Member("self", TensorArg(n[0]))]).Some?
    ensures ParseUnary(op, ArgMap([Member("self", TensorArg(n[0]))]).value) == Some(Parsed(op, n, NoArgs()))
  {
    var a := Member("self", TensorArg(n[0]));
    ArgMapOne(a);
    TensorRead(n[0]);
    assert map["self" := TensorArg(n[0])] - {"self"} == NoArgs();
    assert [n[0]] == n;
  }

  lemma BinaryRoundTrip(op: Operator, n: seq<string>)
    requires |n| == 2
    ensures var args := [Member("self", TensorArg(n[0])), Member("other", TensorArg(n[1]))];
      ArgMap(args).Some? && ParseBinary(op, "other", ArgMap(args).value) == Some(Parsed(op, n, NoArgs()))
  {
    ArgMapTwo(Member("self", TensorArg(n[0])), Member("other", TensorArg(n[1])));
    TensorRead(n[0]);
    TensorRead(n[1]);
    var args := map["self" := TensorArg(n[0]), "other" := TensorArg(n[1])];
    assert args - {"self"} == map["other" := TensorArg(n[1])];
    assert args - {"self"} - {"other"} == NoArgs() && NoArgs() - {"alpha"} == NoArgs();
    assert [n[0], n[1]] == n;
  }

  lemma LinearRoundTrip(n: seq<string>)
    requires |n| == 2 || |n| == 3
    ensures ArgMap(PrintArgs(Linear, n)).Some?
    ensures ParseLinear(ArgMap(PrintArgs(Linear, n)).value) == Some(Parsed(Linear, n, NoArgs()))
  {
    var x, w := Member("input", TensorArg(n[0])), Member("weight", TensorArg(n[1]));
    TensorRead(n[0]);
    TensorRead(n[1]);
    if |n| == 2 {
      ArgMapTwo(x, w);
      assert [x, w] + [] == [x, w];
      var args := map["input" := TensorArg(n[0]), "weight" := TensorArg(n[1])];
      assert args - {"input"} == map["weight" := TensorArg(n[1])];
      assert args - {"input"} - {"weight"} == NoArgs() && NoArgs() - {"bias"} == NoArgs();
      assert [n[0], n[1]] == n;
    } else {
      TensorRead(n[2]);
      var b := Member("bias", TensorArg(n[2]));
      ArgMapThree(x, w, b);
      assert [x, w] + [b] == [x, w, b];
      var args := map["input" := TensorArg(n[0]), "weight" := TensorArg(n[1]), "bias" := TensorArg(n[2])];
      assert args - {"input"} == map["weight" := TensorArg(n[1]), "bias" := TensorArg(n[2])];
      assert args - {"input"} - {"weight"} == map["bias" := TensorArg(n[2])];
      assert args - {"input"} - {"weight"} - {"bias"} == NoArgs();
      assert [n[0], n[1], n[2]] == n;
    }
  }

  lemma TwoIntsRoundTrip(name: string, first: string, second: string, a: int, b: int,
                         defaults: (Option<int>, Option<int>))
    requires first != second && first != "self" && second != "self"
    ensures var args := [Member("self", TensorArg(name)), Member(first, IntArg(a)), Member(second, IntArg(b))];
      ArgMap(args).Some? && ParseTwoInts(ArgMap(args).value, first, second, defaults) == Some((name, a, b, NoArgs()))
  {
    ArgMapThree(Member("self", TensorArg(name)), Member(first, IntArg(a)), Member(second, IntArg(b)));
    TensorRead(name);
    var args := map["self" := TensorArg(name), first := IntArg(a), second := IntArg(b)];
    assert args - {"self"} == map[first := IntArg(a), second := IntArg(b)];
    assert args - {"self"} - {first} == map[second := IntArg(b)];
    assert args - {"self"} - {first} - {second} == NoArgs();
  }

  lemma ReshapeRoundTrip(shape: seq<int>, name: string)
    ensures var args := [Member("self", TensorArg(name)),
                         Member("shape", Object([Member("as_sym_ints", Items(WrappedNumbers(shape)))]))];
      ArgMap(args).Some? && ParseReshape("shape", ArgMap(args).value) == Some(Parsed(Reshape(shape), [name], NoArgs()))
  {
    var j := Object([Member("as_sym_ints", Items(WrappedNumbers(shape)))]);
    ArgMapTwo(Member("self", TensorArg(name)), Member("shape", j));
    TensorRead(name);
    WrappedNumbersRead(shape);
    var args := map["self" := TensorArg(name), "shape" := j];
    assert args - {"self"} == map["shape" := j];
    assert args - {"self"} - {"shape"} == NoArgs();
  }

  lemma PermuteRoundTrip(axes: seq<int>, name: string)
    ensures var args := [Member("self", TensorArg(name)),
                         Member("dims", Object([Member("as_ints", Items(Numbers(axes)))]))];
      ArgMap(args).Some? && ParsePermute(ArgMap(args).value) == Some(Parsed(Permute(axes), [name], NoArgs()))
  {
    var j := Object([Member("as_ints", Items(Numbers(axes)))]);
    ArgMapTwo(Member("self", TensorArg(name)), Member("dims", j));
    TensorRead(name);
    NumbersRead(axes);
    var args := map["self" := TensorArg(name), "dims" := j];
    assert args - {"self"} == map["dims" := j];
    assert args - {"self"} - {"dims"} == NoArgs();
  }

  lemma CatRoundTrip(dim: int, n: seq<string>)
    requires n != []
    ensures ArgMap(PrintArgs(Cat(dim), n)).Some?
    ensures ParseCat(ArgMap(PrintArgs(Cat(dim), n)).value) == Some(Parsed(Cat(dim), n, NoArgs()))
  {
    var j := Object([Member("as_tensors", Items(NamedTensors(n)))]);
    ArgMapTwo(Member("tensors", j), Member("dim", IntArg(dim)));
    NamesRead(n);
    var args := map["tensors" := j, "dim" := IntArg(dim)];
    assert args - {"tensors"} == map["dim" := IntArg(dim)];
    assert args - {"tensors"} - {"dim"} == NoArgs();
  }

  /** The parser an exported target leads to. */
  function ParserOf(op: Operator, args: Args): Option<Parsed>
  {
    match op
    case Add => ParseBinary(op, "other", args)
    case Subtract => ParseBinary(op, "other", args)
    case Multiply => ParseBinary(op, "other", args)
    case Matmul => ParseBinary(op, "other", args)
    case Linear => ParseLinear(args)
    case Reshape(_) => ParseReshape("shape", args)
    case Flatten(_, _) =>
      var r := ParseTwoInts(args, "start_dim", "end_dim", (Some(0), Some(-1)));
      if r.None? then None else Some(Parsed(Flatten(r.value.1, r.value.2), [r.value.0], r.value.3))
    case Transpose(_, _) =>
      var r := ParseTwoInts(args, "dim0", "dim1", (None, None));
      if r.None? then None else Some(Parsed(Transpose(r.value.1, r.value.2), [r.value.0], r.value.3))
    case Permute(_) => ParsePermute(args)
    case Cat(_) => ParseCat(args)
    case _ => ParseUnary(op, args)
  }

  lemma UnaryDispatch(op: Operator, args: Args)
    requires op.Identity? || op.Relu? || op.Sigmoid? || op.Tanh?
    ensures ParseOperator(Target(op), args) == ParserOf(op, args)
  {
  }

  lemma BinaryDispatch(op: Operator, args: Args)
    requires op.Add? || op.Subtract? || op.Multiply? || op.Matmul?
    ensures ParseOperator(Target(op), args) == ParserOf(op, args)
  {
  }

  lemma LinearDispatch(op: Operator, args: Args)
    requires op.Linear?
    ensures ParseOperator(Target(op), args) == ParserOf(op, args)
  {
  }

  lemma ReshapeDispatch(op: Operator, args: Args)
    requires op.Reshape?
    ensures ParseOperator(Target(op), args) == ParserOf(op, args)
  {
  }

  lemma FlattenDispatch(op: Operator, args: Args)
    requires op.Flatten?
    ensures ParseOperator(Target(op), args) == ParserOf(op, args)
  {
  }

  lemma TransposeDispatch(op: Operator, args: Args)
    requires op.Transpose?
    ensures ParseOperator(Target(op), args) == ParserOf(op, args)
  {
  }

  lemma PermuteDispatch(op: Operator, args: Args)
    requires op.Permute?
    ensures ParseOperator(Target(op), args) == ParserOf(op, args)
  {
  }

  lemma CatDispatch(op: Operator, args: Args)
    requires op.Cat?
    ensures ParseOperator(Target(op), args) == ParserOf(op, args)
  {
  }

  lemma TargetsDispatch(op: Operator, args: Args)
    requires !op.If?
    ensures ParseOperator(Target(op), args) == ParserOf(op, args)
  {
    if op.Identity? || op.Relu? || op.Sigmoid? || op.Tanh? {
      UnaryDispatch(op, args);
    } else if op.Add? || op.Subtract? || op.Multiply? || op.Matmul? {
      BinaryDispatch(op, args);
    } else if op.Linear? {
      LinearDispatch(op, args);
    } else if op.Reshape? {
      ReshapeDispatch(op, args);
    } else if op.Flatten? {
      FlattenDispatch(op, args);
    } else if op.Transpose? {
      TransposeDispatch(op, args);
    } else if op.Permute? {
      PermuteDispatch(op, args);
    } else {
      CatDispatch(op, args);
    }
  }

  lemma ParserRoundTrip(op: Operator, n: seq<string>)
    requires !op.If? && WellFormed(op, |n|)
    ensures ArgMap(PrintArgs(op, n)).Some?
    ensures ParserOf(op, ArgMap(PrintArgs(op, n)).value) == Some(Parsed(op, n, NoArgs()))
  {
    if |n| == 1 {
      assert n == [n[0]];
    }
    match op
    case Identity => UnaryRoundTrip(op, n);
    case Relu => UnaryRoundTrip(op, n);
    case Sigmoid => UnaryRoundTrip(op, n);
    case Tanh => UnaryRoundTrip(op, n);
    case Add => BinaryRoundTrip(op, n);
    case Subtract => BinaryRoundTrip(op, n);
    case Multiply => BinaryRoundTrip(op, n);
    case Matmul => BinaryRoundTrip(op, n);
    case Linear => LinearRoundTrip(n);
    case Reshape(shape) => ReshapeRoundTrip(shape, n[0]);
    case Flatten(start, end) => TwoIntsRoundTrip(n[0], "start_dim", "end_dim", start, end, (Some(0), Some(-1)));
    case Transpose(dim0, dim1) => TwoIntsRoundTrip(n[0], "dim0", "dim1", dim0, dim1, (None, None));
    case Permute(axes) => PermuteRoundTrip(axes, n[0]);
    case Cat(dim) => CatRoundTrip(dim, n);
  }

  /** Every exported operator parses back to itself on the same names, with no argument left. */
  lemma OperatorRoundTrip(op: Operator, n: seq<string>)
    requires !op.If? && WellFormed(op, |n|)
    ensures ArgMap(PrintArgs(op, n)).Some?
    ensures ParseOperator(Target(op), ArgMap(PrintArgs(op, n)).value) == Some(Parsed(op, n, NoArgs()))
  {
    ParserRoundTrip(op, n);
    TargetsDispatch(op, ArgMap(PrintArgs(op, n)).value);
  }
}
