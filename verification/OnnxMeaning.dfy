/** An exported program, imported again, computes what the original computes. */
module OnnxMeaning {
  import opened Wrappers
  import opened Tensors
  import opened Programs
  import opened Validation
  import opened InferSpecs
  import opened KernelLaws
  import opened FreshNames
  import opened Onnx
  import opened OnnxRoundTrip

  // ---- runs of operation lists ----

  function RunSeq(k: Kernels, ops: seq<Operation>, env: Env, state: Env): Outcome<Env>
  {
    if ops == [] then Ok(env)
    else
      match RunSeq(k, Front(ops), env, state)
      case Failed => Failed
      case Stuck => Stuck
      case Ok(e) => Advance(k, Last(ops), e, state)
  }

  lemma {:induction false} RunSeqSplit(k: Kernels, a: seq<Operation>, b: seq<Operation>, env: Env, state: Env)
    ensures RunSeq(k, a + b, env, state) == (
      match RunSeq(k, a, env, state)
      case Failed => Failed
      case Stuck => Stuck
      case Ok(e) => RunSeq(k, b, e, state))
  {
    if b == [] {
      assert a + b == a;
    } else {
      assert Front(a + b) == a + Front(b) && Last(a + b) == Last(b);
      RunSeqSplit(k, a, Front(b), env, state);
    }
  }

  lemma RunSeqOne(k: Kernels, o: Operation, env: Env, state: Env)
    ensures RunSeq(k, [o], env, state) == Advance(k, o, env, state)
  {
    assert Front([o]) == [];
  }

  lemma {:induction false} RunToIsRunSeq(k: Kernels, p: Program, inputs: seq<Tensor>, state: Env, n: nat)
    requires n <= |p.operations| && CheckInputs(p.inputs, inputs).Some?
    ensures RunTo(k, p, inputs, state, n) == RunSeq(k, p.operations[..n], Bind(state, p.inputs, inputs), state)
  {
    if n > 0 {
      RunToIsRunSeq(k, p, inputs, state, n - 1);
      assert Front(p.operations[..n]) == p.operations[..n - 1];
    }
  }

  // ---- one lowered node ----

  /** A functional operation gives the same value in any environment that
      agrees on its operands, with any state. */
  lemma AdvanceSub(k: Kernels, node: Operation, env: Env, env': Env, state: Env, state': Env)
    requires Sub(env, env') && !node.operator.If? && Advance(k, node, env, state).Ok?
    ensures Advance(k, node, env', state').Ok?
    ensures Sub(Advance(k, node, env, state).value, Advance(k, node, env', state').value)
  {
    LookupSub(env, env', node.inputs);
  }

  lemma AdvanceValue(k: Kernels, node: Operation, env: Env, state: Env, xs: seq<Tensor>, y: Tensor)
    requires Bound(env, node.inputs) && Lookup(env, node.inputs) == xs && !node.operator.If?
    requires Apply(k, node.operator, xs) == Ok(y)
    ensures Advance(k, node, env, state) == Ok(env[node.name := y])
  {
  }

  lemma SingleRuns(k: Kernels, o: Operation, node: Operation, env: Env, env': Env, state': Env, x: Tensor, y: Tensor)
    requires Sub(env, env') && o.name == node.name && o.inputs == node.inputs && !o.operator.If?
    requires Bound(env, node.inputs) && Lookup(env, node.inputs) == [x] && Apply(k, o.operator, [x]) == Ok(y)
    ensures RunSeq(k, [o], env', state') == Ok(env'[node.name := y]) && Sub(env[node.name := y], env'[node.name := y])
  {
    LookupSub(env, env', node.inputs);
    RunSeqOne(k, o, env', state');
    AdvanceValue(k, o, env', state', [x], y);
  }

  lemma TransposeRuns(k: Kernels, node: Operation, rank: nat, e: Exporter, env: Env, env': Env, state: Env, state': Env)
    requires WellFormed(node.operator, |node.inputs|) && LowerNode(node, rank, e).Some? && node.operator.Transpose?
    requires Sub(env, env') && Advance(k, node, env, state).Ok? && |env[node.inputs[0]].shape| == rank
    ensures var r := RunSeq(k, OpsOf(node, rank, e), env', state');
      r.Ok? && Sub(Advance(k, node, env, state).value, r.value)
  {
    AdvanceInverse(k, node, env, state);
    var o := OpsOf(node, rank, e)[0];
    assert OpsOf(node, rank, e) == [o];
    var x := env[node.inputs[0]];
    assert Lookup(env, node.inputs) == [x];
    TransposeIsPermute(k, x, node.operator.dim0, node.operator.dim1);
    SingleRuns(k, o, node, env, env', state', x, Apply(k, node.operator, [x]).value);
  }

  lemma AdvanceInverse(k: Kernels, node: Operation, env: Env, state: Env)
    requires !node.operator.If? && Advance(k, node, env, state).Ok?
    ensures Bound(env, node.inputs) && Apply(k, node.operator, Lookup(env, node.inputs)).Ok?
    ensures Advance(k, node, env, state) ==
      Ok(env[node.name := Apply(k, node.operator, Lookup(env, node.inputs)).value])
  {
  }

  lemma TwoSteps(k: Kernels, flip: Operation, o: Operation, env: Env, state: Env, xs: seq<Tensor>, ys: seq<Tensor>,
                 t: Tensor, y: Tensor)
    requires !flip.operator.If? && !o.operator.If?
    requires Bound(env, flip.inputs) && Lookup(env, flip.inputs) == xs && Apply(k, flip.operator, xs) == Ok(t)
    requires Bound(env[flip.name := t], o.inputs) && Lookup(env[flip.name := t], o.inputs) == ys
    requires Apply(k, o.operator, ys) == Ok(y)
    ensures RunSeq(k, [flip] + [o], env, state) == Ok(env[flip.name := t][o.name := y])
  {
    RunSeqSplit(k, [flip], [o], env, state);
    RunSeqOne(k, flip, env, state);
    AdvanceValue(k, flip, env, state, xs, t);
    RunSeqOne(k, o, env[flip.name := t], state);
    AdvanceValue(k, o, env[flip.name := t], state, ys, y);
  }

  lemma PairSteps(k: Kernels, node: Operation, rank: nat, e: Exporter, env: Env, env': Env, state': Env,
                  x: Tensor, w: Tensor, tw: Tensor, y: Tensor)
    requires WellFormed(node.operator, |node.inputs|) && node.operator.Linear? && |node.inputs| == 2
    requires Sub(env, env') && Bound(env, node.inputs) && Lookup(env, node.inputs) == [x, w]
    requires FreshOf(node, e) !! env.Keys && node.name !in FreshOf(node, e)
    requires Apply(k, Permute([1, 0]), [w]) == Ok(tw) && Apply(k, Matmul, [x, tw]) == Ok(y)
    ensures var r := RunSeq(k, OpsOf(node, rank, e), env', state');
      r.Ok? && Sub(env[node.name := y], r.value)
  {
    var t := Fresh(e.reserved, e.serial).0;
    assert t in FreshOf(node, e);
    var nx, nw := node.inputs[0], node.inputs[1];
    assert nx in env && nw in env;
    assert [x, w][0] == env[nx] && [x, w][1] == env[nw];
    var flip, o := Operation(t, Permute([1, 0]), [nw]), Operation(node.name, Matmul, [nx, t]);
    assert OpsOf(node, rank, e) == [flip] + [o];
    assert Lookup(env', [nw]) == [w] && Lookup(env'[t := tw], [nx, t]) == [x, tw];
    TwoSteps(k, flip, o, env', state', [w], [x, tw], tw, y);
  }

  lemma PairRuns(k: Kernels, node: Operation, rank: nat, e: Exporter, env: Env, env': Env, state: Env, state': Env)
    requires WellFormed(node.operator, |node.inputs|) && node.operator.Linear? && |node.inputs| == 2
    requires Sub(env, env') && Advance(k, node, env, state).Ok?
    requires FreshOf(node, e) !! env.Keys && node.name !in FreshOf(node, e)
    ensures var r := RunSeq(k, OpsOf(node, rank, e), env', state');
      r.Ok? && Sub(Advance(k, node, env, state).value, r.value)
  {
    var nx, nw := node.inputs[0], node.inputs[1];
    assert nx in env && nw in env;
    var x, w := env[nx], env[nw];
    assert Lookup(env, node.inputs) == [x, w];
    AdvanceInverse(k, node, env, state);
    assert Shapes([x, w]) == [x.shape, w.shape];
    TransposedWeight(k, w);
    LinearIsMatmul(k, x, w);
    PairSteps(k, node, rank, e, env, env', state', x, w, Apply(k, Permute([1, 0]), [w]).value,
              Apply(k, Linear, [x, w]).value);
  }

  lemma ThreeSteps(k: Kernels, flip: Operation, o: Operation, o': Operation, env: Env, state: Env,
                   xs: seq<Tensor>, ys: seq<Tensor>, zs: seq<Tensor>, t: Tensor, m: Tensor, y: Tensor)
    requires !flip.operator.If? && !o.operator.If? && !o'.operator.If?
    requires Bound(env, flip.inputs) && Lookup(env, flip.inputs) == xs && Apply(k, flip.operator, xs) == Ok(t)
    requires Bound(env[flip.name := t], o.inputs) && Lookup(env[flip.name := t], o.inputs) == ys
    requires Apply(k, o.operator, ys) == Ok(m)
    requires var e := env[flip.name := t][o.name := m];
      Bound(e, o'.inputs) && Lookup(e, o'.inputs) == zs && Apply(k, o'.operator, zs) == Ok(y)
    ensures RunSeq(k, [flip] + [o] + [o'], env, state) == Ok(env[flip.name := t][o.name := m][o'.name := y])
  {
    RunSeqSplit(k, [flip] + [o], [o'], env, state);
    RunSeqSplit(k, [flip], [o], env, state);
    RunSeqOne(k, flip, env, state);
    AdvanceValue(k, flip, env, state, xs, t);
    RunSeqOne(k, o, env[flip.name := t], state);
    AdvanceValue(k, o, env[flip.name := t], state, ys, m);
    RunSeqOne(k, o', env[flip.name := t][o.name := m], state);
    AdvanceValue(k, o', env[flip.name := t][o.name := m], state, zs, y);
  }

  lemma TripleRuns(k: Kernels, node: Operation, rank: nat, e: Exporter, env: Env, env': Env, state: Env, state': Env)
    requires WellFormed(node.operator, |node.inputs|) && node.operator.Linear? && |node.inputs| == 3
    requires Sub(env, env') && Advance(k, node, env, state).Ok?
    requires FreshOf(node, e) !! env.Keys && node.name !in FreshOf(node, e)
    requires |env[node.inputs[1]].shape| > 0 && env[node.inputs[2]].shape == env[node.inputs[1]].shape[..1]
    ensures var r := RunSeq(k, OpsOf(node, rank, e), env', state');
      r.Ok? && Sub(Advance(k, node, env, state).value, r.value)
  {
    var nx, nw, nb := node.inputs[0], node.inputs[1], node.inputs[2];
    assert nx in env && nw in env && nb in env;
    var x, w, b := env[nx], env[nw], env[nb];
    assert Lookup(env, node.inputs) == [x, w, b];
    AdvanceInverse(k, node, env, state);
    BiasedParts(k, x, w, b);
    TripleSteps(k, node, rank, e, env, env', state', x, w, b, Apply(k, Permute([1, 0]), [w]).value,
                Apply(k, Matmul, [x, Apply(k, Permute([1, 0]), [w]).value]).value, Apply(k, Linear, [x, w, b]).value);
  }

  lemma TripleLookups(env: Env, nx: string, nw: string, nb: string, t: string, m: string,
                      x: Tensor, w: Tensor, b: Tensor, tw: Tensor, mw: Tensor)
    requires nx in env && env[nx] == x && nw in env && env[nw] == w && nb in env && env[nb] == b
    requires t != nx && t != nb && m != nb && m != t
    ensures Bound(env, [nw]) && Lookup(env, [nw]) == [w]
    ensures Bound(env[t := tw], [nx, t]) && Lookup(env[t := tw], [nx, t]) == [x, tw]
    ensures Bound(env[t := tw][m := mw], [m, nb]) && Lookup(env[t := tw][m := mw], [m, nb]) == [mw, b]
  {
  }

  /** A transposition, a product and a sum, over any names that do not capture each other. */
  lemma TripleChain(k: Kernels, nx: string, nw: string, nb: string, t: string, m: string, name: string, env: Env,
                    state: Env, x: Tensor, w: Tensor, b: Tensor, tw: Tensor, mw: Tensor, y: Tensor)
    requires nx in env && env[nx] == x && nw in env && env[nw] == w && nb in env && env[nb] == b
    requires t != nx && t != nb && m != nb && m != t
    requires Apply(k, Permute([1, 0]), [w]) == Ok(tw) && Apply(k, Matmul, [x, tw]) == Ok(mw)
    requires Apply(k, Add, [mw, b]) == Ok(y)
    ensures RunSeq(k, [Operation(t, Permute([1, 0]), [nw])] + [Operation(m, Matmul, [nx, t])] +
                      [Operation(name, Add, [m, nb])], env, state) == Ok(env[t := tw][m := mw][name := y])
  {
    TripleLookups(env, nx, nw, nb, t, m, x, w, b, tw, mw);
    ThreeSteps(k, Operation(t, Permute([1, 0]), [nw]), Operation(m, Matmul, [nx, t]), Operation(name, Add, [m, nb]),
               env, state, [w], [x, tw], [mw, b], tw, mw, y);
  }

  /** What a biased layer is exported as; its two invented names are new. */
  lemma TripleNames(node: Operation, rank: nat, e: Exporter) returns (t: string, m: string)
    requires WellFormed(node.operator, |node.inputs|) && node.operator.Linear? && |node.inputs| == 3
    ensures t in FreshOf(node, e) && m in FreshOf(node, e) && m != t
    ensures OpsOf(node, rank, e) == [Operation(t, Permute([1, 0]), [node.inputs[1]])] +
      [Operation(m, Matmul, [node.inputs[0], t])] + [Operation(node.name, Add, [m, node.inputs[2]])]
  {
    var (flipped, serial) := Fresh(e.reserved, e.serial);
    t, m := flipped, Fresh(e.reserved + {flipped}, serial).0;
  }

  lemma TripleSteps(k: Kernels, node: Operation, rank: nat, e: Exporter, env: Env, env': Env, state': Env,
                    x: Tensor, w: Tensor, b: Tensor, tw: Tensor, mw: Tensor, y: Tensor)
    requires WellFormed(node.operator, |node.inputs|) && node.operator.Linear? && |node.inputs| == 3
    requires Sub(env, env') && Bound(env, node.inputs) && Lookup(env, node.inputs) == [x, w, b]
    requires FreshOf(node, e) !! env.Keys && node.name !in FreshOf(node, e)
    requires Apply(k, Permute([1, 0]), [w]) == Ok(tw) && Apply(k, Matmul, [x, tw]) == Ok(mw)
    requires Apply(k, Add, [mw, b]) == Ok(y)
    ensures var r := RunSeq(k, OpsOf(node, rank, e), env', state');
      r.Ok? && Sub(env[node.name := y], r.value)
  {
    var t, m := TripleNames(node, rank, e);
    var nx, nw, nb := node.inputs[0], node.inputs[1], node.inputs[2];
    assert nx in env && nw in env && nb in env;
    assert [x, w, b][0] == env[nx] && [x, w, b][1] == env[nw] && [x, w, b][2] == env[nb];
    TripleChain(k, nx, nw, nb, t, m, node.name, env', state', x, w, b, tw, mw, y);
  }

  lemma BiasedParts(k: Kernels, x: Tensor, w: Tensor, b: Tensor)
    requires Apply(k, Linear, [x, w, b]).Ok? && |w.shape| > 0 && b.shape == w.shape[..1]
    ensures var t := Apply(k, Permute([1, 0]), [w]);
      t.Ok? && Apply(k, Matmul, [x, t.value]).Ok? &&
      Apply(k, Add, [Apply(k, Matmul, [x, t.value]).value, b]) == Apply(k, Linear, [x, w, b])
  {
    assert Shapes([x, w, b]) == [x.shape, w.shape, b.shape];
    TransposedWeight(k, w);
    LinearIsMatmulAdd(k, x, w, b);
  }

  /** What export knows about an operation's operands at run time. */
  predicate OperandsKnown(node: Operation, rank: nat, env: Env)
    requires WellFormed(node.operator, |node.inputs|)
  {
    Bound(env, node.inputs) && node.inputs != [] && |env[node.inputs[0]].shape| == rank &&
    (node.operator.Linear? && |node.inputs| == 3 ==>
      |env[node.inputs[1]].shape| > 0 && env[node.inputs[2]].shape == env[node.inputs[1]].shape[..1])
  }

  lemma LoweredNodeRuns(k: Kernels, node: Operation, rank: nat, e: Exporter, env: Env, env': Env, state: Env,
                        state': Env)
    requires WellFormed(node.operator, |node.inputs|) && LowerNode(node, rank, e).Some?
    requires Sub(env, env') && Advance(k, node, env, state).Ok? && OperandsKnown(node, rank, env)
    requires FreshOf(node, e) !! env.Keys && node.name !in FreshOf(node, e)
    ensures var r := RunSeq(k, OpsOf(node, rank, e), env', state');
      r.Ok? && Sub(Advance(k, node, env, state).value, r.value)
  {
    if node.operator.Transpose? {
      TransposeRuns(k, node, rank, e, env, env', state, state');
    } else if node.operator.Linear? {
      if |node.inputs| == 2 {
        PairRuns(k, node, rank, e, env, env', state, state');
      } else {
        TripleRuns(k, node, rank, e, env, env', state, state');
      }
    } else {
      assert OpsOf(node, rank, e) == [node];
      RunSeqOne(k, node, env', state');
      AdvanceSub(k, node, env, env', state, state');
    }
  }

  // ---- names ----

  /** `values` binds every name of the program. */
  predicate BindsAll(p: Program, state: Env, values: Env)
  {
    values.Keys == state.Keys + NameSet(p.inputs) + OperationNames(p, |p.operations|)
  }

  /** The only constant an operation adds is a reshape's shape, under a new name. */
  lemma LowerEffect(node: Operation, rank: nat, e: Exporter)
    requires WellFormed(node.operator, |node.inputs|) && LowerNode(node, rank, e).Some?
    ensures FreshOf(node, e) !! e.reserved
    ensures var e' := LowerNode(node, rank, e).value;
      e.reserved + FreshOf(node, e) <= e'.reserved &&
      forall x | x in e'.initializers ::
        if x in e.initializers && e'.initializers[x] == e.initializers[x] then true
        else x !in e.reserved && x in e'.reserved && x !in FreshOf(node, e)
    ensures e.initializers.Keys <= LowerNode(node, rank, e).value.initializers.Keys
  {
  }

  /** The names an export invents never capture a name of the program, and the
      names it gives to values never collide with those it gives to constants. */
  lemma {:induction false} FreshNamesAreNew(p: Program, state: Env, values: Env, n: nat)
    requires AllWellFormed(p) && n <= |p.operations| && state.Keys <= values.Keys && LowerTo(p, state, values, n).Some?
    ensures var e := LowerTo(p, state, values, n).value;
      values.Keys <= e.reserved && Sub(state, e.initializers) &&
      (forall x | x in e.initializers :: x in state || (x in e.reserved && x !in values)) &&
      FreshTo(p, state, values, n) <= e.reserved &&
      FreshTo(p, state, values, n) !! values.Keys &&
      FreshTo(p, state, values, n) !! e.initializers.Keys
  {
    if n > 0 {
      FreshNamesAreNew(p, state, values, n - 1);
      var node := p.operations[n - 1];
      var e := LowerTo(p, state, values, n - 1).value;
      LowerEffect(node, RankIn(values, node), e);
    }
  }

  lemma {:induction false} FreshToGrows(p: Program, state: Env, values: Env, m: nat, n: nat)
    requires AllWellFormed(p) && m <= n <= |p.operations| && LowerTo(p, state, values, n).Some?
    ensures LowerTo(p, state, values, m).Some?
    ensures FreshTo(p, state, values, m) <= FreshTo(p, state, values, n)
    decreases n - m
  {
    if m < n {
      FreshToGrows(p, state, values, m, n - 1);
    }
  }

  // ---- whole programs ----

  /** Two runs that fit the same inferred specs see the same ranks, and the bias
      of every linear matches its weight. */
  lemma OperandsKnownAt(k: Kernels, p: Program, state: Env, example: seq<Tensor>, inputs: seq<Tensor>, values: Env,
                        n: nat)
    requires Valid(p, state.Keys) && AllWellFormed(p) && n < |p.operations| && Infer(p, state).Some?
    requires RunTo(k, p, example, state, |p.operations|) == Ok(values) && CheckInputs(p.inputs, inputs).Some?
    requires RunTo(k, p, inputs, state, n).Ok?
    ensures OperandsKnown(p.operations[n], RankIn(values, p.operations[n]), RunTo(k, p, inputs, state, n).value)
  {
    var node := p.operations[n];
    InferenceSound(k, p, state, example, inputs, n);
    var specs := InferTo(p, state, n).value;
    var env := RunTo(k, p, inputs, state, n).value;
    var before := RunTo(k, p, example, state, n).value;
    InferNodeAt(p, state, n);
    Earlier(k, p, example, state, values, n);
    SameRank(node, env, before, values, specs, CheckInputs(p.inputs, inputs).value,
             CheckInputs(p.inputs, example).value);
    if node.operator.Linear? && |node.inputs| == 3 {
      BiasMatches(node, env, specs, CheckInputs(p.inputs, inputs).value);
    }
  }

  lemma InferNodeAt(p: Program, state: Env, n: nat)
    requires n < |p.operations| && Infer(p, state).Some? && InferTo(p, state, n).Some?
    ensures InferNode(p.operations[n], InferTo(p, state, n).value).Some?
  {
    if InferTo(p, state, n + 1).None? {
      InferFailsForGood(p, state, n + 1);
    }
  }

  lemma Earlier(k: Kernels, p: Program, example: seq<Tensor>, state: Env, values: Env, n: nat)
    requires Valid(p, state.Keys) && n <= |p.operations|
    requires RunTo(k, p, example, state, |p.operations|) == Ok(values)
    ensures RunTo(k, p, example, state, n).Ok? && Sub(RunTo(k, p, example, state, n).value, values)
  {
    Grows(k, p, example, state, 0, 0, n, |p.operations|);
  }

  lemma SameRank(node: Operation, env: Env, before: Env, values: Env, specs: Specs, v: Valuation, e: Valuation)
    requires EnvFits(env, specs, v) && EnvFits(before, specs, e) && Sub(before, values) && InferNode(node, specs).Some?
    ensures Bound(env, node.inputs) && node.inputs != [] && |env[node.inputs[0]].shape| == RankIn(values, node)
  {
    var x := node.inputs[0];
    assert x in specs;
    assert x in env && x in before && x in values;
    assert FitsAll(env[x].shape, specs[x].dimensions, v) && FitsAll(before[x].shape, specs[x].dimensions, e);
  }

  lemma BiasMatches(node: Operation, env: Env, specs: Specs, v: Valuation)
    requires EnvFits(env, specs, v) && InferNode(node, specs).Some? && node.operator.Linear? && |node.inputs| == 3
    ensures |env[node.inputs[1]].shape| > 0 && env[node.inputs[2]].shape == env[node.inputs[1]].shape[..1]
  {
    var x, w, b := node.inputs[0], node.inputs[1], node.inputs[2];
    assert x in env && w in env && b in env;
    assert DimsOf(specs, node.inputs)[2] == specs[b].dimensions;
    LinearSound(env[x].shape, env[w].shape, Some(env[b].shape),
                specs[x].dimensions, specs[w].dimensions, Some(specs[b].dimensions), v);
    assert env[b].shape == [env[w].shape[0]];
  }

  /** The lowered operations of a prefix, run after each other, bind every
      original name to its original value. */
  ghost predicate RunsAlong(k: Kernels, p: Program, state: Env, inputs: seq<Tensor>, values: Env, start: Env,
                            state': Env, n: nat)
    requires AllWellFormed(p) && CheckInputs(p.inputs, inputs).Some?
  {
    && n <= |p.operations| && LowerTo(p, state, values, n).Some? && RunTo(k, p, inputs, state, n).Ok?
    && RunSeq(k, LoweredOps(p, state, values, n), start, state').Ok?
    && Sub(RunTo(k, p, inputs, state, n).value, RunSeq(k, LoweredOps(p, state, values, n), start, state').value)
  }

  /** If the prefix of `n` operations runs along, so does the next. */
  ghost predicate StaysAlong(k: Kernels, p: Program, state: Env, inputs: seq<Tensor>, values: Env, start: Env,
                             state': Env, n: nat)
    requires AllWellFormed(p) && CheckInputs(p.inputs, inputs).Some?
  {
    n < |p.operations| && LowerTo(p, state, values, n + 1).Some? &&
    RunsAlong(k, p, state, inputs, values, start, state', n) ==>
      RunsAlong(k, p, state, inputs, values, start, state', n + 1)
  }

  lemma NodeRunsAlong(k: Kernels, p: Program, state: Env, example: seq<Tensor>, inputs: seq<Tensor>, values: Env,
                      state': Env,
                      n: nat, e: Exporter, env: Env, env': Env)
    requires AllWellFormed(p) && n < |p.operations| && LowerTo(p, state, values, n) == Some(e)
    requires LowerNode(p.operations[n], RankIn(values, p.operations[n]), e).Some?
    requires Valid(p, state.Keys) && Infer(p, state).Some?
    requires RunTo(k, p, example, state, |p.operations|) == Ok(values) && CheckInputs(p.inputs, inputs).Some?
    requires RunTo(k, p, inputs, state, n) == Ok(env) && Sub(env, env')
    ensures Advance(k, p.operations[n], env, state).Ok?
    ensures var t := RunSeq(k, OpsOf(p.operations[n], RankIn(values, p.operations[n]), e), env', state');
      t.Ok? && Sub(Advance(k, p.operations[n], env, state).value, t.value)
  {
    var node := p.operations[n];
    InferenceSound(k, p, state, example, inputs, n + 1);
    OperandsKnownAt(k, p, state, example, inputs, values, n);
    KeysAt(k, p, state, example, inputs, values, n);
    FreshNamesAreNew(p, state, values, n + 1);
    LoweredNodeRuns(k, node, RankIn(values, node), e, env, env', state, state');
  }

  lemma NextRunsAlong(k: Kernels, p: Program, state: Env, example: seq<Tensor>, inputs: seq<Tensor>, values: Env,
                      start: Env, state': Env, n: nat)
    requires Valid(p, state.Keys) && AllWellFormed(p) && Infer(p, state).Some?
    requires RunTo(k, p, example, state, |p.operations|) == Ok(values) && CheckInputs(p.inputs, inputs).Some?
    ensures StaysAlong(k, p, state, inputs, values, start, state', n)
  {
    if n < |p.operations| && LowerTo(p, state, values, n + 1).Some? &&
       RunsAlong(k, p, state, inputs, values, start, state', n) {
      var node := p.operations[n];
      var e := LowerTo(p, state, values, n).value;
      var env' := RunSeq(k, LoweredOps(p, state, values, n), start, state').value;
      NodeRunsAlong(k, p, state, example, inputs, values, state', n, e, RunTo(k, p, inputs, state, n).value, env');
      RunSeqSplit(k, LoweredOps(p, state, values, n), OpsOf(node, RankIn(values, node), e), start, state');
    }
  }

  lemma StartsAlong(k: Kernels, p: Program, state: Env, inputs: seq<Tensor>, values: Env, start: Env, state': Env)
    requires AllWellFormed(p) && CheckInputs(p.inputs, inputs).Some? && LowerTo(p, state, values, 0).Some?
    requires Sub(Bind(state, p.inputs, inputs), start)
    ensures RunsAlong(k, p, state, inputs, values, start, state', 0)
  {
  }

  lemma LoweredBefore(p: Program, state: Env, values: Env, n: nat)
    requires AllWellFormed(p) && 0 < n <= |p.operations| && LowerTo(p, state, values, n).Some?
    ensures LowerTo(p, state, values, n - 1).Some?
  {
  }

  lemma {:induction false} LoweredUpTo(p: Program, state: Env, values: Env, n: nat)
    requires AllWellFormed(p) && n <= |p.operations| && LowerTo(p, state, values, n).Some?
    ensures forall i: nat | i <= n :: LowerTo(p, state, values, i).Some?
    decreases n
  {
    if n > 0 {
      LoweredBefore(p, state, values, n);
      LoweredUpTo(p, state, values, n - 1);
    }
  }

  ghost predicate NextAlong(k: Kernels, p: Program, state: Env, inputs: seq<Tensor>, values: Env, start: Env,
                            state': Env, n: nat)
    requires AllWellFormed(p) && CheckInputs(p.inputs, inputs).Some?
  {
    RunsAlong(k, p, state, inputs, values, start, state', n) ==>
      RunsAlong(k, p, state, inputs, values, start, state', n + 1)
  }

  lemma {:induction false} RunsAlongTo(k: Kernels, p: Program, state: Env, inputs: seq<Tensor>, values: Env, start: Env,
                                       state': Env, n: nat)
    requires AllWellFormed(p) && CheckInputs(p.inputs, inputs).Some?
    requires RunsAlong(k, p, state, inputs, values, start, state', 0)
    requires forall i: nat | i < n :: NextAlong(k, p, state, inputs, values, start, state', i)
    ensures RunsAlong(k, p, state, inputs, values, start, state', n)
    decreases n
  {
    if n > 0 {
      RunsAlongTo(k, p, state, inputs, values, start, state', n - 1);
      assert NextAlong(k, p, state, inputs, values, start, state', n - 1);
    }
  }

  lemma LoweredRun(k: Kernels, p: Program, state: Env, example: seq<Tensor>, inputs: seq<Tensor>, values: Env,
                   start: Env, state': Env, n: nat)
    requires Valid(p, state.Keys) && AllWellFormed(p) && n <= |p.operations| && Infer(p, state).Some?
    requires RunTo(k, p, example, state, |p.operations|) == Ok(values) && CheckInputs(p.inputs, inputs).Some?
    requires LowerTo(p, state, values, n).Some?
    requires Sub(Bind(state, p.inputs, inputs), start)
    ensures RunsAlong(k, p, state, inputs, values, start, state', n)
  {
    LoweredUpTo(p, state, values, n);
    StartsAlong(k, p, state, inputs, values, start, state');
    forall i: nat | i < n
      ensures NextAlong(k, p, state, inputs, values, start, state', i)
    {
      assert LowerTo(p, state, values, i + 1).Some?;
      NextRunsAlong(k, p, state, example, inputs, values, start, state', i);
    }
    RunsAlongTo(k, p, state, inputs, values, start, state', n);
  }

  lemma KeysAt(k: Kernels, p: Program, state: Env, example: seq<Tensor>, inputs: seq<Tensor>, values: Env, n: nat)
    requires Valid(p, state.Keys) && n < |p.operations|
    requires RunTo(k, p, example, state, |p.operations|) == Ok(values)
    requires RunTo(k, p, inputs, state, n).Ok?
    ensures RunTo(k, p, inputs, state, n).value.Keys <= values.Keys && p.operations[n].name in values
    ensures state.Keys <= values.Keys
  {
    PrefixValid(p, state.Keys, 0, 0, n);
    Earlier(k, p, example, state, values, n);
    EnvironmentKeys(k, p, example, state, 0, 0, n);
    EnvironmentKeys(k, p, inputs, state, 0, 0, n);
    NameBound(k, p, example, state, values, n);
    StateBound(k, p, example, state, values);
  }

  lemma NameBound(k: Kernels, p: Program, example: seq<Tensor>, state: Env, values: Env, n: nat)
    requires Valid(p, state.Keys) && n < |p.operations|
    requires RunTo(k, p, example, state, |p.operations|) == Ok(values)
    ensures p.operations[n].name in values
  {
    Earlier(k, p, example, state, values, n + 1);
    Earlier(k, p, example, state, values, n);
    assert RunTo(k, p, example, state, n + 1) == Advance(k, p.operations[n], RunTo(k, p, example, state, n).value,
                                                         state);
  }

  lemma StateBound(k: Kernels, p: Program, example: seq<Tensor>, state: Env, values: Env)
    requires Valid(p, state.Keys)
    requires RunTo(k, p, example, state, |p.operations|) == Ok(values)
    ensures state.Keys <= values.Keys && NameSet(p.inputs) <= values.Keys
    ensures BindsAll(p, state, values)
  {
    EnvironmentKeys(k, p, example, state, 0, 0, |p.operations|);
    ScopeOf(p, state.Keys, 0, 0, |p.operations|);
  }
}
