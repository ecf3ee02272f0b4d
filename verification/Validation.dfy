/** `Program::validate` and what it guarantees at run time
    (src/deployment/mod.rs). */
module Validation {
  import opened Wrappers
  import opened Tensors
  import opened Programs

  /** Control characters are those below U+0020 and U+007F to U+009F. */
  predicate ValidName(name: string)
  {
    0 < |name| <= 1024 && forall c | c in name :: ' ' <= c && !('\U{7f}' <= c <= '\U{9f}')
  }

  predicate ValidDimension(d: Dimension)
  {
    match d
    case Known(n) => n >= 0
    case Symbol(name, min, max) => name != "" && min >= 0 && (max.Some? ==> max.value >= min)
  }

  predicate ValidSpec(s: ValueSpec)
  {
    ValidName(s.name) && |s.dimensions| <= 64 && forall d | d in s.dimensions :: ValidDimension(d)
  }

  function SpecNames(inputs: seq<ValueSpec>): (r: seq<string>)
    ensures |r| == |inputs|
  {
    seq(|inputs|, i requires 0 <= i < |inputs| => inputs[i].name)
  }

  /** The names in scope after the inputs are declared, or an error. */
  function Declare(inputs: seq<ValueSpec>, names: set<string>): Option<set<string>>
  {
    if inputs == [] then Some(names)
    else
      var before := Declare(Front(inputs), names);
      if before.None? || !ValidSpec(Last(inputs)) || Last(inputs).name in before.value then None
      else Some(before.value + {Last(inputs).name})
  }

  /** The set of axes is exactly 0 up to the rank. */
  predicate SameAxes(axes: seq<int>)
  {
    (forall i | 0 <= i < |axes| :: 0 <= axes[i] < |axes|) && forall a | 0 <= a < |axes| :: a in axes
  }

  /** Attribute and arity rules of an operator other than its branches. */
  predicate WellFormed(op: Operator, arity: nat)
  {
    match op
    case Identity => arity == 1
    case Relu => arity == 1
    case Sigmoid => arity == 1
    case Tanh => arity == 1
    case Transpose(_, _) => arity == 1
    case Flatten(_, _) => arity == 1
    case Reshape(shape) => arity == 1 && |shape| <= 64 && (forall i | 0 <= i < |shape| :: shape[i] >= -1) &&
      CountInferred(shape) <= 1
    case Permute(axes) => arity == 1 && |axes| <= 64 && SameAxes(axes)
    case Add => arity == 2
    case Subtract => arity == 2
    case Multiply => arity == 2
    case Matmul => arity == 2
    case Linear => arity == 2 || arity == 3
    case Cat(_) => arity > 0
    case If(thenBranch, _, _) => arity == |thenBranch.inputs| + 1
  }

  predicate BranchesAgree(op: Operator)
    requires op.If?
  {
    var t := Leaves(op.thenBranch.outputTree);
    var e := Leaves(op.elseBranch.outputTree);
    op.thenBranch.inputs == op.elseBranch.inputs && t.Some? && |t.value| == 1 && e.Some? && |e.value| == 1
  }

  /** The names in scope and the node budget spent after the header and the
      first `n` operations. `state` holds the model's state names. */
  function ValidateTo(p: Program, state: set<string>, depth: nat, budget: nat, n: nat): Option<(set<string>, nat)>
    requires n <= |p.operations|
    decreases p, n
  {
    if n == 0 then
      var spent := budget + |p.operations| + |p.inputs|;
      var names := Declare(p.inputs, state);
      if p.version != 1 || p.operatorVersion != 1 || depth > MAX_DEPTH || spent > MAX_NODES then None
      else if names.None? || Leaves(p.inputTree) != Some(SpecNames(p.inputs)) then None
      else Some((names.value, spent))
    else
      var before := ValidateTo(p, state, depth, budget, n - 1);
      if before.None? then None
      else
        var node := p.operations[n - 1];
        var spent := CheckOperation(node, before.value.0, state, depth, before.value.1);
        if spent.None? then None else Some((before.value.0 + {node.name}, spent.value))
  }

  /** One iteration of the validation loop: the budget spent, or an error. */
  function CheckOperation(node: Operation, names: set<string>, state: set<string>, depth: nat, spent: nat): Option<nat>
    decreases node, 0
  {
    if !ValidName(node.name) || node.name in names || exists i | i in node.inputs :: i !in names then None
    else if !WellFormed(node.operator, |node.inputs|) then None
    else if !node.operator.If? then Some(spent)
    else CheckBranches(node.operator, state, depth, spent)
  }

  function CheckBranches(op: Operator, state: set<string>, depth: nat, spent: nat): Option<nat>
    requires op.If?
    decreases op, 0
  {
    var first := Validate(op.thenBranch, state, depth + 1, spent);
    if first.None? then None
    else
      var second := Validate(op.elseBranch, state, depth + 1, first.value);
      if second.None? || !BranchesAgree(op) || depth + 1 > MAX_DEPTH || second.value + 1 > MAX_NODES ||
        !ValidSpec(op.result)
      then None
      else Some(second.value + 1)
  }

  /** `Program::validate`: the budget spent, or an error. */
  function Validate(p: Program, state: set<string>, depth: nat, budget: nat): Option<nat>
    decreases p, |p.operations| + 1
  {
    var body := ValidateTo(p, state, depth, budget, |p.operations|);
    var outputs := Leaves(p.outputTree);
    if body.None? || outputs.None? || outputs.value == [] || exists o | o in outputs.value ::
      o !in body.value.0 then None
    else Some(body.value.1)
  }

  /** The validation loop, with the budget threaded through the branches. */
  method ValidateProgram(p: Program, state: set<string>, depth: nat, budget: nat) returns (r: Option<nat>)
    ensures r == Validate(p, state, depth, budget)
    decreases p, |p.operations| + 1
  {
    if ValidateTo(p, state, depth, budget, 0).None? {
      RejectsForGood(p, state, depth, budget, 0);
      return None;
    }
    var (names, spent) := ValidateTo(p, state, depth, budget, 0).value;
    for i := 0 to |p.operations|
      invariant ValidateTo(p, state, depth, budget, i) == Some((names, spent))
    {
      var node := p.operations[i];
      var next: Option<nat> := None;
      if ValidName(node.name) && node.name !in names && (forall o | o in node.inputs :: o in names)
         && WellFormed(node.operator, |node.inputs|)
      {
        next := Some(spent);
        if node.operator.If? {
          next := ValidateProgram(node.operator.thenBranch, state, depth + 1, spent);
          if next.Some? {
            next := ValidateProgram(node.operator.elseBranch, state, depth + 1, next.value);
          }
          if next.Some? {
            next := if BranchesAgree(node.operator) && depth + 1 <= MAX_DEPTH && next.value + 1 <= MAX_NODES
                       && ValidSpec(node.operator.result)
                    then Some(next.value + 1) else None;
          }
        }
      }
      assert next == CheckOperation(node, names, state, depth, spent);
      if next.None? {
        RejectsForGood(p, state, depth, budget, i + 1);
        return None;
      }
      names := names + {node.name};
      spent := next.value;
    }
    var outputs := Leaves(p.outputTree);
    if outputs.None? || outputs.value == [] || exists o | o in outputs.value :: o !in names {
      return None;
    }
    return Some(spent);
  }

  lemma {:induction false} RejectsForGood(p: Program, state: set<string>, depth: nat, budget: nat, n: nat)
    requires n <= |p.operations| && ValidateTo(p, state, depth, budget, n).None?
    ensures ValidateTo(p, state, depth, budget, |p.operations|).None?
    decreases |p.operations| - n
  {
    if n < |p.operations| {
      RejectsForGood(p, state, depth, budget, n + 1);
    }
  }

  predicate Valid(p: Program, state: set<string>)
  {
    Validate(p, state, 0, 0).Some?
  }

  // ---- names in scope ----

  function OperationNames(p: Program, n: nat): set<string>
    requires n <= |p.operations|
  {
    if n == 0 then {} else OperationNames(p, n - 1) + {p.operations[n - 1].name}
  }

  function NameSet(specs: seq<ValueSpec>): (r: set<string>)
    ensures forall i | 0 <= i < |specs| :: specs[i].name in r
  {
    if specs == [] then {} else NameSet(Front(specs)) + {Last(specs).name}
  }

  predicate DistinctNames(specs: seq<ValueSpec>)
  {
    forall i, j | 0 <= i < j < |specs| :: specs[i].name != specs[j].name
  }

  lemma {:induction false} NameSetMembers(specs: seq<ValueSpec>, x: string) returns (i: nat)
    requires x in NameSet(specs)
    ensures i < |specs| && specs[i].name == x
  {
    if Last(specs).name == x {
      i := |specs| - 1;
    } else {
      i := NameSetMembers(Front(specs), x);
    }
  }

  lemma {:induction false} DeclareNames(inputs: seq<ValueSpec>, names: set<string>)
    requires Declare(inputs, names).Some?
    ensures Declare(inputs, names).value == names + NameSet(inputs)
    ensures NameSet(inputs) !! names
    ensures DistinctNames(inputs) && forall s | s in inputs :: ValidSpec(s)
  {
    if inputs != [] {
      DeclareNames(Front(inputs), names);
    }
  }

  /** Scope of a validated program: every definition is new and refers backwards. */
  lemma {:induction false} ScopeOf(p: Program, state: set<string>, depth: nat, budget: nat, n: nat)
    requires n <= |p.operations| && ValidateTo(p, state, depth, budget, n).Some?
    ensures ValidateTo(p, state, depth, budget, n).value.0 == state + NameSet(p.inputs) + OperationNames(p, n)
    ensures Declare(p.inputs, state).Some?
    ensures forall i | 0 <= i < n :: p.operations[i].name !in state + NameSet(p.inputs) + OperationNames(p, i)
    ensures forall i | 0 <= i < n ::
      forall x | x in p.operations[i].inputs :: x in state + NameSet(p.inputs) + OperationNames(p, i)
    ensures forall i | 0 <= i < n ::
      WellFormed(p.operations[i].operator, |p.operations[i].inputs|) && ValidName(p.operations[i].name)
  {
    if n == 0 {
      DeclareNames(p.inputs, state);
    } else {
      ScopeOf(p, state, depth, budget, n - 1);
      assert OperationNames(p, n) == OperationNames(p, n - 1) + {p.operations[n - 1].name};
    }
  }

  lemma {:induction false} BindKeys(env: Env, specs: seq<ValueSpec>, inputs: seq<Tensor>)
    requires |specs| == |inputs| && DistinctNames(specs) && NameSet(specs) !! env.Keys
    ensures Bind(env, specs, inputs).Keys == env.Keys + NameSet(specs)
    ensures forall i | 0 <= i < |specs| :: Bind(env, specs, inputs)[specs[i].name] == inputs[i]
    ensures forall n | n in env :: Bind(env, specs, inputs)[n] == env[n]
  {
    if specs != [] {
      BindKeys(env, Front(specs), Front(inputs));
      forall i | 0 <= i < |specs|
        ensures Bind(env, specs, inputs)[specs[i].name] == inputs[i]
      {
        assert i < |specs| - 1 ==> Front(specs)[i] == specs[i] && Front(inputs)[i] == inputs[i];
      }
    }
  }

  /** The environment binds exactly the names the validator has in scope. */
  lemma {:induction false} EnvironmentKeys(k: Kernels, p: Program, inputs: seq<Tensor>, state: Env, depth: nat,
                                           budget: nat, n: nat)
    requires n <= |p.operations| && ValidateTo(p, state.Keys, depth, budget, n).Some?
    requires RunTo(k, p, inputs, state, n).Ok?
    ensures RunTo(k, p, inputs, state, n).value.Keys == ValidateTo(p, state.Keys, depth, budget, n).value.0
  {
    if n == 0 {
      DeclareNames(p.inputs, state.Keys);
      BindKeys(state, p.inputs, inputs);
    } else {
      EnvironmentKeys(k, p, inputs, state, depth, budget, n - 1);
    }
  }

  /** Validated programs do not go wrong: no lookup misses, at any nesting. */
  lemma {:induction false} NeverStuck(k: Kernels, p: Program, inputs: seq<Tensor>, state: Env, depth: nat, budget: nat)
    requires Validate(p, state.Keys, depth, budget).Some?
    ensures !RunTo(k, p, inputs, state, |p.operations|).Stuck?
    ensures !Execute(k, p, inputs, state).Stuck?
    ensures Execute(k, p, inputs, state).Ok? ==>
      |Execute(k, p, inputs, state).value| == |Leaves(p.outputTree).value| > 0
    decreases p, |p.operations| + 1
  {
    NeverStuckTo(k, p, inputs, state, depth, budget, |p.operations|);
    if RunTo(k, p, inputs, state, |p.operations|).Ok? {
      EnvironmentKeys(k, p, inputs, state, depth, budget, |p.operations|);
    }
  }

  lemma {:induction false} NeverStuckTo(k: Kernels, p: Program, inputs: seq<Tensor>, state: Env, depth: nat,
                                        budget: nat, n: nat)
    requires n <= |p.operations| && ValidateTo(p, state.Keys, depth, budget, n).Some?
    ensures !RunTo(k, p, inputs, state, n).Stuck?
    decreases p, n
  {
    if n > 0 {
      NeverStuckTo(k, p, inputs, state, depth, budget, n - 1);
      if RunTo(k, p, inputs, state, n - 1).Ok? {
        var env := RunTo(k, p, inputs, state, n - 1).value;
        EnvironmentKeys(k, p, inputs, state, depth, budget, n - 1);
        var before := ValidateTo(p, state.Keys, depth, budget, n - 1).value;
        AdvanceNeverStuck(k, p.operations[n - 1], env, state, depth, before.1);
      }
    }
  }

  lemma {:induction false} AdvanceNeverStuck(k: Kernels, node: Operation, env: Env, state: Env, depth: nat, spent: nat)
    requires CheckOperation(node, env.Keys, state.Keys, depth, spent).Some?
    ensures !Advance(k, node, env, state).Stuck?
    decreases node, 0
  {
    assert Bound(env, node.inputs);
    var xs := Lookup(env, node.inputs);
    if node.operator.If? {
      SelectNeverStuck(k, node.operator, xs, state, depth, spent);
    }
  }

  lemma {:induction false} SelectNeverStuck(k: Kernels, op: Operator, xs: seq<Tensor>, state: Env, depth: nat,
                                            spent: nat)
    requires op.If? && |xs| > 0 && CheckBranches(op, state.Keys, depth, spent).Some?
    ensures !Perform(k, op, xs, state).Stuck?
    decreases op, 0
  {
    NeverStuck(k, op.thenBranch, xs[1..], state, depth + 1, spent);
    NeverStuck(k, op.elseBranch, xs[1..], state, depth + 1,
               Validate(op.thenBranch, state.Keys, depth + 1, spent).value);
  }

  // ---- defining equations ----

  predicate Sub(a: Env, b: Env)
  {
    forall x | x in a :: x in b && b[x] == a[x]
  }

  lemma LookupSub(a: Env, b: Env, names: seq<string>)
    requires Sub(a, b) && Bound(a, names)
    ensures Bound(b, names) && Lookup(b, names) == Lookup(a, names)
  {
  }

  lemma {:induction false} Grows(k: Kernels, p: Program, inputs: seq<Tensor>, state: Env, depth: nat, budget: nat,
                                 m: nat, n: nat)
    requires m <= n <= |p.operations| && ValidateTo(p, state.Keys, depth, budget, n).Some?
    requires RunTo(k, p, inputs, state, n).Ok?
    ensures RunTo(k, p, inputs, state, m).Ok? && ValidateTo(p, state.Keys, depth, budget, m).Some?
    ensures Sub(RunTo(k, p, inputs, state, m).value, RunTo(k, p, inputs, state, n).value)
    decreases n - m
  {
    if m < n {
      Grows(k, p, inputs, state, depth, budget, m, n - 1);
      EnvironmentKeys(k, p, inputs, state, depth, budget, n - 1);
    }
  }

  /** `env` already gives `node` the value its operator produces. */
  predicate Satisfies(k: Kernels, node: Operation, env: Env, state: Env)
  {
    node.name in env && Advance(k, node, env, state) == Ok(env)
  }

  /** `env` solves all defining equations at once: state and inputs keep their
      values and every operation's name denotes its operator applied to the
      values `env` gives its operands. */
  predicate Solves(k: Kernels, p: Program, inputs: seq<Tensor>, state: Env, env: Env)
  {
    env.Keys == state.Keys + NameSet(p.inputs) + OperationNames(p, |p.operations|) &&
    Sub(state, env) &&
    |inputs| == |p.inputs| && (forall i | 0 <= i < |inputs| :: env[p.inputs[i].name] == inputs[i]) &&
    forall i | 0 <= i < |p.operations| :: Satisfies(k, p.operations[i], env, state)
  }

  lemma {:induction false} FinalEnvironmentSolves(k: Kernels, p: Program, inputs: seq<Tensor>, state: Env, depth: nat,
                                                  budget: nat)
    requires Validate(p, state.Keys, depth, budget).Some?
    requires RunTo(k, p, inputs, state, |p.operations|).Ok?
    ensures Solves(k, p, inputs, state, RunTo(k, p, inputs, state, |p.operations|).value)
  {
    var n := |p.operations|;
    var env := RunTo(k, p, inputs, state, n).value;
    FinalHeader(k, p, inputs, state, depth, budget);
    forall i | 0 <= i < n
      ensures Satisfies(k, p.operations[i], env, state)
    {
      FinalEquation(k, p, inputs, state, depth, budget, i);
    }
  }

  lemma FinalHeader(k: Kernels, p: Program, inputs: seq<Tensor>, state: Env, depth: nat, budget: nat)
    requires Validate(p, state.Keys, depth, budget).Some?
    requires RunTo(k, p, inputs, state, |p.operations|).Ok?
    ensures var env := RunTo(k, p, inputs, state, |p.operations|).value;
      env.Keys == state.Keys + NameSet(p.inputs) + OperationNames(p, |p.operations|) &&
      Sub(state, env) && |inputs| == |p.inputs| &&
      forall i | 0 <= i < |inputs| :: p.inputs[i].name in env && env[p.inputs[i].name] == inputs[i]
  {
    var n := |p.operations|;
    EnvironmentKeys(k, p, inputs, state, depth, budget, n);
    ScopeOf(p, state.Keys, depth, budget, n);
    Grows(k, p, inputs, state, depth, budget, 0, n);
    DeclareNames(p.inputs, state.Keys);
    BindKeys(state, p.inputs, inputs);
  }

  lemma FinalEquation(k: Kernels, p: Program, inputs: seq<Tensor>, state: Env, depth: nat, budget: nat, i: nat)
    requires Validate(p, state.Keys, depth, budget).Some? && i < |p.operations|
    requires RunTo(k, p, inputs, state, |p.operations|).Ok?
    ensures Satisfies(k, p.operations[i], RunTo(k, p, inputs, state, |p.operations|).value, state)
  {
    var n := |p.operations|;
    var env := RunTo(k, p, inputs, state, n).value;
    var node := p.operations[i];
    Grows(k, p, inputs, state, depth, budget, i + 1, n);
    var after := RunTo(k, p, inputs, state, i + 1).value;
    Grows(k, p, inputs, state, depth, budget, i, i + 1);
    var before := RunTo(k, p, inputs, state, i).value;
    assert Advance(k, node, before, state) == Ok(after);
    assert Sub(before, env);
    LookupSub(before, env, node.inputs);
    assert node.name in after;
    assert env[node.name := after[node.name]] == env;
  }

  /** The branch a predicate selects. */
  function Chosen(op: Operator, predicateValue: Tensor): Program
    requires op.If?
  {
    if Truth(predicateValue) then op.thenBranch else op.elseBranch
  }

  /** The name of a branch's only output. */
  function Result(branch: Program): string
  {
    var leaves := Leaves(branch.outputTree);
    if leaves.Some? && leaves.value != [] then leaves.value[0] else ""
  }

  lemma BranchesValid(p: Program, state: set<string>, depth: nat, budget: nat, i: nat) returns (first: nat, second: nat)
    requires Validate(p, state, depth, budget).Some? && i < |p.operations| && p.operations[i].operator.If?
    ensures var op := p.operations[i].operator;
      BranchesAgree(op) && Validate(op.thenBranch, state, depth + 1, first).Some? &&
      Validate(op.elseBranch, state, depth + 1, second).Some?
    ensures p.operations[i].inputs != []
  {
    PrefixValid(p, state, depth, budget, i + 1);
    PrefixValid(p, state, depth, budget, i);
    var before := ValidateTo(p, state, depth, budget, i).value;
    assert CheckOperation(p.operations[i], before.0, state, depth, before.1).Some?;
    first := before.1;
    second := Validate(p.operations[i].operator.thenBranch, state, depth + 1, first).value;
  }

  /** A performed conditional: its predicate is a truth value, the branch it selects ran,
      and the branch's environment solves the branch's own equations. */
  lemma PerformedBranch(k: Kernels, op: Operator, xs: seq<Tensor>, state: Env, depth: nat, first: nat, second: nat)
    requires op.If? && BranchesAgree(op) && xs != [] && Perform(k, op, xs, state).Ok?
    requires Validate(op.thenBranch, state.Keys, depth, first).Some?
    requires Validate(op.elseBranch, state.Keys, depth, second).Some?
    ensures xs[0].dtype == Bool && xs[0].shape == []
    ensures var branch := Chosen(op, xs[0]);
      var inner := RunTo(k, branch, xs[1..], state, |branch.operations|);
      inner.Ok? && Solves(k, branch, xs[1..], state, inner.value) &&
      Result(branch) in inner.value && inner.value[Result(branch)] == Perform(k, op, xs, state).value
  {
    var branch := Chosen(op, xs[0]);
    if Truth(xs[0]) {
      FinalEnvironmentSolves(k, branch, xs[1..], state, depth, first);
    } else {
      FinalEnvironmentSolves(k, branch, xs[1..], state, depth, second);
    }
  }

  /** In the final environment a conditional's name denotes the only output of the branch its
      predicate selects, and that branch's own environment solves the branch's equations. */
  lemma ConditionalSolves(k: Kernels, p: Program, inputs: seq<Tensor>, state: Env, depth: nat, budget: nat, i: nat)
    requires Validate(p, state.Keys, depth, budget).Some? && i < |p.operations| && p.operations[i].operator.If?
    requires RunTo(k, p, inputs, state, |p.operations|).Ok?
    ensures var env, node := RunTo(k, p, inputs, state, |p.operations|).value, p.operations[i];
      Bound(env, node.inputs) && node.inputs != [] && node.name in env &&
      var xs := Lookup(env, node.inputs);
      var branch := Chosen(node.operator, xs[0]);
      var inner := RunTo(k, branch, xs[1..], state, |branch.operations|);
      xs[0].dtype == Bool && xs[0].shape == [] && inner.Ok? && Solves(k, branch, xs[1..], state, inner.value) &&
      Result(branch) in inner.value && env[node.name] == inner.value[Result(branch)]
  {
    var env, node := RunTo(k, p, inputs, state, |p.operations|).value, p.operations[i];
    FinalEquation(k, p, inputs, state, depth, budget, i);
    var first, second := BranchesValid(p, state.Keys, depth, budget, i);
    var xs := Lookup(env, node.inputs);
    PerformedBranch(k, node.operator, xs, state, depth + 1, first, second);
    assert env == env[node.name := Perform(k, node.operator, xs, state).value];
  }

  /** The equations have at most one solution, so each name denotes one value. */
  lemma {:induction false} SolutionIsUnique(k: Kernels, p: Program, inputs: seq<Tensor>, state: Env, depth: nat,
                                            budget: nat, env: Env)
    requires Validate(p, state.Keys, depth, budget).Some? && CheckInputs(p.inputs, inputs).Some?
    requires Solves(k, p, inputs, state, env)
    ensures RunTo(k, p, inputs, state, |p.operations|) == Ok(env)
  {
    var n := |p.operations|;
    SolutionPrefix(k, p, inputs, state, depth, budget, env, n);
    ScopeOf(p, state.Keys, depth, budget, n);
    EnvironmentKeys(k, p, inputs, state, depth, budget, n);
    var final := RunTo(k, p, inputs, state, n).value;
    assert final.Keys == env.Keys;
    assert final == env;
  }

  lemma {:induction false} SolutionPrefix(k: Kernels, p: Program, inputs: seq<Tensor>, state: Env, depth: nat,
                                          budget: nat, env: Env, n: nat)
    requires Validate(p, state.Keys, depth, budget).Some? && CheckInputs(p.inputs, inputs).Some?
    requires Solves(k, p, inputs, state, env) && n <= |p.operations|
    ensures RunTo(k, p, inputs, state, n).Ok? && Sub(RunTo(k, p, inputs, state, n).value, env)
  {
    if n == 0 {
      SolutionHeader(k, p, inputs, state, depth, budget, env);
    } else {
      SolutionPrefix(k, p, inputs, state, depth, budget, env, n - 1);
      var before := RunTo(k, p, inputs, state, n - 1).value;
      var node := p.operations[n - 1];
      OperandsBound(k, p, inputs, state, depth, budget, n);
      LookupSub(before, env, node.inputs);
      assert Satisfies(k, node, env, state);
      var value := Perform(k, node.operator, Lookup(before, node.inputs), state);
      assert env == env[node.name := value.value];
    }
  }

  lemma SolutionHeader(k: Kernels, p: Program, inputs: seq<Tensor>, state: Env, depth: nat, budget: nat, env: Env)
    requires Validate(p, state.Keys, depth, budget).Some? && CheckInputs(p.inputs, inputs).Some?
    requires Solves(k, p, inputs, state, env)
    ensures Sub(Bind(state, p.inputs, inputs), env)
  {
    PrefixValid(p, state.Keys, depth, budget, 0);
    DeclareNames(p.inputs, state.Keys);
    BindKeys(state, p.inputs, inputs);
    forall x | x in Bind(state, p.inputs, inputs)
      ensures x in env && env[x] == Bind(state, p.inputs, inputs)[x]
    {
      if x !in state {
        var i := NameSetMembers(p.inputs, x);
        assert env[p.inputs[i].name] == inputs[i];
      }
    }
  }

  /** When operation `n - 1` runs, all its operands are bound. */
  lemma OperandsBound(k: Kernels, p: Program, inputs: seq<Tensor>, state: Env, depth: nat, budget: nat, n: nat)
    requires 0 < n <= |p.operations| && Validate(p, state.Keys, depth, budget).Some?
    requires RunTo(k, p, inputs, state, n - 1).Ok?
    ensures Bound(RunTo(k, p, inputs, state, n - 1).value, p.operations[n - 1].inputs)
    ensures p.operations[n - 1].name !in RunTo(k, p, inputs, state, n - 1).value
    ensures WellFormed(p.operations[n - 1].operator, |p.operations[n - 1].inputs|)
  {
    PrefixValid(p, state.Keys, depth, budget, n);
    EnvironmentKeys(k, p, inputs, state, depth, budget, n - 1);
  }

  lemma PrefixValid(p: Program, state: set<string>, depth: nat, budget: nat, n: nat)
    requires n <= |p.operations| && ValidateTo(p, state, depth, budget, |p.operations|).Some?
    ensures ValidateTo(p, state, depth, budget, n).Some?
  {
    if ValidateTo(p, state, depth, budget, n).None? {
      RejectsForGood(p, state, depth, budget, n);
    }
  }
}
