/** Strided views over raw storage (`validate_view`, `contiguous_strides`,
    src/deployment/mod.rs). */
module Views {
  import opened Wrappers
  import opened Tensors

  datatype View = View(shape: seq<int>, strides: seq<int>, offset: int, requiresGrad: bool)

  // ---- what is checked ----

  /** Key order of the sorted axes: stride first, then size. */
  predicate AtMost(v: View, a: nat, b: nat)
    requires a < |v.shape| == |v.strides| && b < |v.shape|
  {
    v.strides[a] < v.strides[b] || (v.strides[a] == v.strides[b] && v.shape[a] <= v.shape[b])
  }

  predicate Axes(v: View, dims: seq<nat>)
  {
    |v.strides| == |v.shape| && forall i | 0 <= i < |dims| :: dims[i] < |v.shape|
  }

  function Insert(v: View, d: nat, dims: seq<nat>): (r: seq<nat>)
    requires Axes(v, [d]) && Axes(v, dims)
    ensures Axes(v, r)
  {
    assert [d][0] == d;
    if dims == [] then [d]
    else if AtMost(v, d, dims[0]) then [d] + dims
    else
      var rest := Insert(v, d, dims[1..]);
      [dims[0]] + rest
  }

  function Sort(v: View, dims: seq<nat>): (r: seq<nat>)
    requires Axes(v, dims)
    ensures Axes(v, r)
  {
    if dims == [] then [] else Insert(v, dims[0], Sort(v, dims[1..]))
  }

  /** The axes from `i` on that have more than one element. */
  function Big(shape: seq<int>, i: nat): (r: seq<nat>)
    requires i <= |shape|
    ensures forall k | 0 <= k < |r| :: i <= r[k] < |shape| && shape[r[k]] > 1
    decreases |shape| - i
  {
    if i == |shape| then [] else (if shape[i] > 1 then [i] else []) + Big(shape, i + 1)
  }

  /** One more than the farthest offset the axes reach, if no axis steps inside the
      reach of the smaller ones and nothing overflows. */
  function Span(v: View, dims: seq<nat>): Option<int>
    requires Axes(v, dims)
  {
    if dims == [] then Some(1)
    else
      var before, d := Span(v, Front(dims)), Last(dims);
      if before.None? || v.strides[d] < before.value then None
      else
        var step := CheckedMul(v.shape[d] - 1, v.strides[d]);
        if step.None? then None else CheckedAdd(before.value, step.value)
  }

  function Reach(v: View, n: nat): Option<nat>
    requires n <= |v.shape| == |v.strides| && v.offset >= 0
    requires forall d | 0 <= d < |v.shape| :: v.shape[d] >= 1 && v.strides[d] >= 0
  {
    if n == 0 then Some(v.offset)
    else
      var before := Reach(v, n - 1);
      var step := (v.shape[n - 1] - 1) * v.strides[n - 1];
      if before.None? || step > USIZE_MAX || before.value + step > USIZE_MAX then None else Some(before.value + step)
  }

  predicate StridesOk(v: View)
  {
    |v.strides| == |v.shape| && v.offset >= 0 && forall d | 0 <= d < |v.strides| :: v.strides[d] >= 0
  }

  predicate NonNegative(shape: seq<int>)
  {
    forall d | 0 <= d < |shape| :: shape[d] >= 0
  }

  /** One past the last element, or the offset of an empty view. */
  function End(v: View): Option<nat>
    requires StridesOk(v) && NonNegative(v.shape)
  {
    if 0 in v.shape then Some(v.offset)
    else
      assert forall d | 0 <= d < |v.shape| :: v.shape[d] in v.shape;
      var last := Reach(v, |v.shape|);
      if last.None? || last.value + 1 > USIZE_MAX then None else Some(last.value + 1)
  }

  lemma {:induction false} CountedNonNegative(shape: seq<int>, count: nat)
    requires CheckedCount(shape, count).Some?
    ensures NonNegative(shape)
  {
    if shape != [] {
      CountedNonNegative(shape[1..], count * shape[0]);
      forall d | 0 <= d < |shape|
        ensures shape[d] >= 0
      {
        assert d > 0 ==> shape[d] == shape[1..][d - 1];
      }
    }
  }

  function BigAxes(v: View): (r: seq<nat>)
    requires |v.strides| == |v.shape|
    ensures Axes(v, r)
  {
    Big(v.shape, 0)
  }

  /** `validate_view` for a storage of `count` elements. */
  predicate ValidView(v: View, dtype: DType, count: nat)
  {
    && ByteCount(v.shape, dtype).Some? && StridesOk(v) && (v.requiresGrad ==> dtype.Float? || dtype.Double?)
    && Span(v, Sort(v, BigAxes(v))).Some?
    && (CountedNonNegative(v.shape, 1); End(v).Some? && End(v).value <= count)
  }

  method SpanLoop(v: View, axes: seq<nat>) returns (r: Option<int>)
    requires Axes(v, axes)
    ensures r == Span(v, axes)
  {
    var span := 1;
    for i := 0 to |axes|
      invariant Axes(v, axes[..i]) && Span(v, axes[..i]) == Some(span)
    {
      assert Front(axes[..i + 1]) == axes[..i] && Last(axes[..i + 1]) == axes[i];
      var d := axes[i];
      var step := CheckedMul(v.shape[d] - 1, v.strides[d]);
      if v.strides[d] < span || step.None? || CheckedAdd(span, step.value).None? {
        SpanFails(v, axes, i + 1);
        return None;
      }
      span := CheckedAdd(span, step.value).value;
    }
    assert axes[..|axes|] == axes;
    return Some(span);
  }

  method EndLoop(v: View) returns (r: Option<nat>)
    requires StridesOk(v) && NonNegative(v.shape)
    ensures r == End(v)
  {
    if 0 in v.shape {
      return Some(v.offset);
    }
    assert forall d | 0 <= d < |v.shape| :: v.shape[d] in v.shape;
    var end: nat := v.offset;
    for n := 0 to |v.shape|
      invariant Reach(v, n) == Some(end)
    {
      var step := (v.shape[n] - 1) * v.strides[n];
      if step > USIZE_MAX || end + step > USIZE_MAX {
        ReachFails(v, n + 1);
        return None;
      }
      end := end + step;
    }
    return if end + 1 > USIZE_MAX then None else Some(end + 1);
  }

  method ValidateView(v: View, dtype: DType, count: nat) returns (ok: bool)
    ensures ok == ValidView(v, dtype, count)
  {
    if ByteCount(v.shape, dtype).None? || !StridesOk(v) || (v.requiresGrad && !dtype.Float? && !dtype.Double?) {
      return false;
    }
    CountedNonNegative(v.shape, 1);
    var span := SpanLoop(v, Sort(v, BigAxes(v)));
    if span.None? {
      return false;
    }
    var end := EndLoop(v);
    return end.Some? && end.value <= count;
  }

  lemma {:induction false} SpanFails(v: View, axes: seq<nat>, i: nat)
    requires i <= |axes| && Axes(v, axes) && Axes(v, axes[..i]) && Span(v, axes[..i]).None?
    ensures Span(v, axes).None?
    decreases |axes| - i
  {
    if i < |axes| {
      assert Front(axes[..i + 1]) == axes[..i];
      SpanFails(v, axes, i + 1);
    } else {
      assert axes[..i] == axes;
    }
  }

  lemma {:induction false} ReachFails(v: View, n: nat)
    requires n <= |v.shape| == |v.strides| && v.offset >= 0
    requires forall d | 0 <= d < |v.shape| :: v.shape[d] >= 1 && v.strides[d] >= 0
    requires Reach(v, n).None?
    ensures Reach(v, |v.shape|).None?
    decreases |v.shape| - n
  {
    if n < |v.shape| {
      ReachFails(v, n + 1);
    }
  }

  // ---- addresses ----

  predicate InView(v: View, index: seq<nat>)
  {
    |index| == |v.shape| && forall d | 0 <= d < |index| :: index[d] < v.shape[d]
  }

  /** What the axes in `dims` add to the address. */
  function Sum(v: View, index: seq<nat>, dims: seq<nat>): int
    requires Axes(v, dims) && |index| == |v.shape|
  {
    if dims == [] then 0 else Sum(v, index, Front(dims)) + index[Last(dims)] * v.strides[Last(dims)]
  }

  /** The storage element an index tuple refers to. */
  function Address(v: View, index: seq<nat>): int
    requires |index| == |v.shape| == |v.strides|
  {
    v.offset + Sum(v, index, Iota(|v.shape|))
  }

  // ---- sums do not depend on the order of the axes ----

  lemma {:induction false} SumCons(v: View, index: seq<nat>, d: nat, dims: seq<nat>)
    requires Axes(v, [d] + dims) && Axes(v, dims) && |index| == |v.shape| && d < |v.shape|
    ensures Sum(v, index, [d] + dims) == index[d] * v.strides[d] + Sum(v, index, dims)
  {
    var all := [d] + dims;
    if dims == [] {
      assert Front(all) == [] && Last(all) == d;
    } else {
      assert Front(all) == [d] + Front(dims) && Last(all) == Last(dims);
      SumCons(v, index, d, Front(dims));
    }
  }

  lemma {:induction false} InsertSum(v: View, index: seq<nat>, d: nat, dims: seq<nat>)
    requires d < |v.shape| && Axes(v, dims) && |index| == |v.shape|
    ensures Axes(v, [d]) && Sum(v, index, Insert(v, d, dims)) == index[d] * v.strides[d] + Sum(v, index, dims)
  {
    assert [d][0] == d;
    if dims == [] {
      SumCons(v, index, d, []);
      assert [d] + [] == [d];
    } else if AtMost(v, d, dims[0]) {
      SumCons(v, index, d, dims);
    } else {
      var rest := dims[1..];
      InsertSum(v, index, d, rest);
      assert dims == [dims[0]] + rest;
      SumCons(v, index, dims[0], rest);
      SumCons(v, index, dims[0], Insert(v, d, rest));
    }
  }

  lemma {:induction false} SortSum(v: View, index: seq<nat>, dims: seq<nat>)
    requires Axes(v, dims) && |index| == |v.shape|
    ensures Sum(v, index, Sort(v, dims)) == Sum(v, index, dims)
  {
    if dims != [] {
      SortSum(v, index, dims[1..]);
      InsertSum(v, index, dims[0], Sort(v, dims[1..]));
      assert dims == [dims[0]] + dims[1..];
      SumCons(v, index, dims[0], dims[1..]);
    }
  }

  /** The axes from `i` on. */
  function From(i: nat, n: nat): (r: seq<nat>)
    requires i <= n
    ensures |r| == n - i && forall k | 0 <= k < |r| :: r[k] == i + k
  {
    seq(n - i, k requires 0 <= k < n - i => i + k)
  }

  /** Axes of one element add nothing. */
  lemma UnitAxis(i: nat, size: int, stride: int)
    requires i < size <= 1
    ensures i * stride == 0
  {
  }

  lemma UnitAxisSum(v: View, index: seq<nat>, i: nat)
    requires |v.strides| == |v.shape| && i < |v.shape| && InView(v, index) && v.shape[i] <= 1
    ensures Big(v.shape, i) == Big(v.shape, i + 1) && index[i] * v.strides[i] == 0
  {
    UnitAxis(index[i], v.shape[i], v.strides[i]);
    assert [] + Big(v.shape, i + 1) == Big(v.shape, i + 1);
  }

  lemma {:induction false} BigSum(v: View, index: seq<nat>, i: nat)
    requires |v.strides| == |v.shape| && i <= |v.shape| && InView(v, index)
    ensures Axes(v, Big(v.shape, i)) && Sum(v, index, Big(v.shape, i)) == Sum(v, index, From(i, |v.shape|))
    decreases |v.shape| - i
  {
    if i < |v.shape| {
      BigSum(v, index, i + 1);
      var n := |v.shape|;
      assert From(i, n) == [i] + From(i + 1, n);
      SumCons(v, index, i, From(i + 1, n));
      if v.shape[i] > 1 {
        SumCons(v, index, i, Big(v.shape, i + 1));
      } else {
        UnitAxisSum(v, index, i);
      }
    } else {
      assert From(i, |v.shape|) == [];
    }
  }

  lemma SortedAddress(v: View, index: seq<nat>)
    requires |v.strides| == |v.shape| && InView(v, index)
    ensures Address(v, index) == v.offset + Sum(v, index, Sort(v, BigAxes(v)))
  {
    BigSum(v, index, 0);
    SortSum(v, index, BigAxes(v));
    assert From(0, |v.shape|) == Iota(|v.shape|);
  }

  // ---- distinct tuples have distinct addresses ----

  lemma DigitBelow(a: int, n: int, s: int)
    requires 0 <= a < n && 0 <= s
    ensures 0 <= a * s <= (n - 1) * s
  {
  }

  /** Offsets along accepted axes stay below the span. */
  lemma {:induction false} SumBelowSpan(v: View, index: seq<nat>, dims: seq<nat>)
    requires StridesOk(v) && Axes(v, dims) && Span(v, dims).Some? && InView(v, index)
    ensures 0 <= Sum(v, index, dims) < Span(v, dims).value
  {
    if dims != [] {
      SumBelowSpan(v, index, Front(dims));
      var d := Last(dims);
      assert index[d] < v.shape[d];
      DigitBelow(index[d], v.shape[d], v.strides[d]);
    }
  }

  lemma AtLeastOnce(c: int, s: int)
    requires c >= 1 && s >= 0
    ensures c * s >= s
  {
    assert (c - 1) * s >= 0;
    assert c * s == (c - 1) * s + s;
  }

  lemma LeadingDigit(a: int, b: int, s: int, x: int, y: int)
    requires 0 <= x < s && 0 <= y < s && x + a * s == y + b * s
    ensures a == b && x == y
  {
    assert (b - a) * s == b * s - a * s && (a - b) * s == a * s - b * s;
    if a < b {
      AtLeastOnce(b - a, s);
    } else if b < a {
      AtLeastOnce(a - b, s);
    }
  }

  lemma {:induction false} DigitsUnique(v: View, a: seq<nat>, b: seq<nat>, dims: seq<nat>, i: nat)
    requires StridesOk(v) && Axes(v, dims) && Span(v, dims).Some? && InView(v, a) && InView(v, b)
    requires Sum(v, a, dims) == Sum(v, b, dims) && i < |dims|
    ensures a[dims[i]] == b[dims[i]]
  {
    var d := Last(dims);
    SumBelowSpan(v, a, Front(dims));
    SumBelowSpan(v, b, Front(dims));
    LeadingDigit(a[d], b[d], v.strides[d], Sum(v, a, Front(dims)), Sum(v, b, Front(dims)));
    if i < |dims| - 1 {
      DigitsUnique(v, a, b, Front(dims), i);
    }
  }

  lemma {:induction false} InsertMembers(v: View, d: nat, dims: seq<nat>, x: nat)
    requires Axes(v, [d]) && Axes(v, dims)
    ensures x in Insert(v, d, dims) <==> x == d || x in dims
  {
    assert [d][0] == d;
    if dims != [] && !AtMost(v, d, dims[0]) {
      InsertMembers(v, d, dims[1..], x);
      assert dims == [dims[0]] + dims[1..];
    }
  }

  lemma {:induction false} SortMembers(v: View, dims: seq<nat>, x: nat)
    requires Axes(v, dims)
    ensures x in Sort(v, dims) <==> x in dims
  {
    if dims != [] {
      SortMembers(v, dims[1..], x);
      assert [dims[0]][0] == dims[0];
      InsertMembers(v, dims[0], Sort(v, dims[1..]), x);
      assert dims == [dims[0]] + dims[1..];
    }
  }

  lemma {:induction false} BigMembers(shape: seq<int>, i: nat, d: nat)
    requires i <= d < |shape| && shape[d] > 1
    ensures d in Big(shape, i)
    decreases |shape| - i
  {
    if d > i {
      BigMembers(shape, i + 1, d);
    }
  }

  /** Distinct index tuples of an accepted view are distinct storage elements. */
  lemma ViewInjective(v: View, dtype: DType, count: nat, a: seq<nat>, b: seq<nat>)
    requires ValidView(v, dtype, count) && InView(v, a) && InView(v, b) && Address(v, a) == Address(v, b)
    ensures a == b
  {
    SortedAddress(v, a);
    SortedAddress(v, b);
    var axes := Sort(v, BigAxes(v));
    forall d: nat | d < |v.shape|
      ensures a[d] == b[d]
    {
      if v.shape[d] > 1 {
        BigMembers(v.shape, 0, d);
        SortMembers(v, BigAxes(v), d);
        var i: nat :| i < |axes| && axes[i] == d;
        DigitsUnique(v, a, b, axes, i);
      } else {
        assert a[d] < v.shape[d] && b[d] < v.shape[d];
      }
    }
  }

  // ---- every address is inside the storage ----

  lemma {:induction false} SumWithinReach(v: View, index: seq<nat>, n: nat)
    requires StridesOk(v) && InView(v, index) && n <= |v.shape| && Axes(v, Iota(n))
    requires forall d | 0 <= d < |v.shape| :: v.shape[d] >= 1
    requires Reach(v, n).Some?
    ensures v.offset <= v.offset + Sum(v, index, Iota(n)) <= Reach(v, n).value
  {
    if n > 0 {
      assert Front(Iota(n)) == Iota(n - 1) && Last(Iota(n)) == n - 1;
      SumWithinReach(v, index, n - 1);
      assert index[n - 1] < v.shape[n - 1];
      DigitBelow(index[n - 1], v.shape[n - 1], v.strides[n - 1]);
    }
  }

  /** Every address of an accepted view is inside the storage. */
  lemma ViewInBounds(v: View, dtype: DType, count: nat, index: seq<nat>)
    requires ValidView(v, dtype, count) && InView(v, index)
    ensures 0 <= Address(v, index) < count
  {
    CountedNonNegative(v.shape, 1);
    forall d | 0 <= d < |v.shape|
      ensures v.shape[d] >= 1
    {
      assert index[d] < v.shape[d];
    }
    SumWithinReach(v, index, |v.shape|);
  }

  // ---- contiguous strides ----

  /** Elements from axis `i` on, empty axes counted as one. */
  function Block(shape: seq<int>, i: nat): (r: nat)
    requires i <= |shape|
    ensures r >= 1
    decreases |shape| - i
  {
    if i == |shape| then 1
    else
      var n := if shape[i] > 1 then shape[i] else 1;
      AtLeastOnce(n, Block(shape, i + 1));
      n * Block(shape, i + 1)
  }

  function Contiguous(shape: seq<int>): seq<int>
  {
    seq(|shape|, i requires 0 <= i < |shape| => Block(shape, i + 1))
  }

  lemma {:induction false} BlockShrinks(shape: seq<int>, i: nat, j: nat)
    requires i <= j <= |shape|
    ensures Block(shape, j) <= Block(shape, i)
    decreases j - i
  {
    if i < j {
      BlockShrinks(shape, i + 1, j);
      AtLeastOnce(if shape[i] > 1 then shape[i] else 1, Block(shape, i + 1));
    }
  }

  lemma BlockStep(shape: seq<int>, i: nat)
    requires i < |shape|
    ensures shape[i] > 1 ==> Block(shape, i) == (shape[i] - 1) * Block(shape, i + 1) + Block(shape, i + 1)
    ensures shape[i] <= 1 ==> Block(shape, i) == Block(shape, i + 1)
  {
  }

  /** `contiguous_strides`: from the last axis, with overflow reported. */
  method ContiguousStrides(shape: seq<int>) returns (r: Option<seq<int>>)
    ensures r == if Block(shape, 0) <= I64_MAX then Some(Contiguous(shape)) else None
  {
    var stride: int := 1;
    var out: seq<int> := seq(|shape|, _ => 0);
    var i: nat := |shape|;
    while i > 0
      invariant i <= |shape| == |out| && stride == Block(shape, i) <= I64_MAX
      invariant forall k: nat | i <= k < |shape| :: out[k] == Block(shape, k + 1)
    {
      i := i - 1;
      out := out[i := stride];
      var size := if shape[i] > 1 then shape[i] else 1;
      assert Block(shape, i) == size * stride == stride * size;
      var next := CheckedMul(stride, size);
      if next.None? {
        assert stride * size >= 1;
        BlockShrinks(shape, 0, i);
        return None;
      }
      stride := next.value;
    }
    assert out == Contiguous(shape);
    return Some(out);
  }

  /** The view a contiguous tensor of this shape is stored as. */
  function ContiguousView(shape: seq<int>, grad: bool): View
  {
    View(shape, Contiguous(shape), 0, grad)
  }

  lemma {:induction false} InsertLast(v: View, d: nat, dims: seq<nat>)
    requires Axes(v, [d]) && Axes(v, dims) && d < |v.shape|
    requires forall i | 0 <= i < |dims| :: v.strides[dims[i]] < v.strides[d]
    ensures Insert(v, d, dims) == dims + [d]
  {
    if dims != [] {
      assert !AtMost(v, d, dims[0]);
      InsertLast(v, d, dims[1..]);
      assert dims == [dims[0]] + dims[1..];
    }
  }

  lemma SmallerStride(shape: seq<int>, i: nat, x: nat)
    requires i < x < |shape| && shape[x] > 1
    ensures Block(shape, x + 1) < Block(shape, i + 1)
  {
    BlockShrinks(shape, i + 1, x);
    AtLeastOnce(shape[x] - 1, Block(shape, x + 1));
    assert Block(shape, x) == (shape[x] - 1) * Block(shape, x + 1) + Block(shape, x + 1);
  }

  /** Later axes of more than one element have smaller strides. */
  predicate Decreasing(v: View)
    requires |v.strides| == |v.shape|
  {
    forall i, x | 0 <= i < x < |v.shape| && v.shape[x] > 1 :: v.strides[x] < v.strides[i]
  }

  lemma ContiguousDecreasing(v: View)
    requires v.strides == Contiguous(v.shape)
    ensures Decreasing(v)
  {
    forall i: nat, x: nat | i < x < |v.shape| && v.shape[x] > 1
      ensures v.strides[x] < v.strides[i]
    {
      SmallerStride(v.shape, i, x);
    }
  }

  /** Such axes sort into reverse order. */
  lemma SortReverses(v: View, i: nat)
    requires |v.strides| == |v.shape| && Decreasing(v) && i < |v.shape| && v.shape[i] > 1
    ensures Axes(v, Big(v.shape, i)) && Axes(v, Big(v.shape, i + 1))
    ensures Sort(v, Big(v.shape, i)) == Sort(v, Big(v.shape, i + 1)) + [i]
  {
    var big := Big(v.shape, i + 1);
    var rest := Sort(v, big);
    var all := [i] + big;
    assert Big(v.shape, i) == all && all[1..] == big && all[0] == i;
    forall k | 0 <= k < |rest|
      ensures v.strides[rest[k]] < v.strides[i]
    {
      SortMembers(v, big, rest[k]);
      assert rest[k] in big;
    }
    assert [i][0] == i;
    InsertLast(v, i, rest);
  }

  lemma SpanNext(v: View, rest: seq<nat>, i: nat, c: int)
    requires i < |v.shape| == |v.strides| && Axes(v, rest) && Span(v, rest) == Some(c) && v.strides[i] == c
    requires 0 <= (v.shape[i] - 1) * c && (v.shape[i] - 1) * c + c <= I64_MAX && c >= 0
    ensures Axes(v, rest + [i]) && Span(v, rest + [i]) == Some((v.shape[i] - 1) * c + c)
  {
    var all := rest + [i];
    assert Front(all) == rest && Last(all) == i;
  }

  /** The span of the sorted axes from `i` on. */
  function SpanFrom(v: View, i: nat): Option<int>
    requires i <= |v.shape| == |v.strides|
  {
    assert Axes(v, Big(v.shape, i));
    Span(v, Sort(v, Big(v.shape, i)))
  }

  lemma SpanBig(v: View, i: nat, c: int)
    requires i < |v.shape| == |v.strides| && Decreasing(v) && v.shape[i] > 1 && v.strides[i] == c
    requires SpanFrom(v, i + 1) == Some(c)
    requires 0 <= (v.shape[i] - 1) * c && (v.shape[i] - 1) * c + c <= I64_MAX && c >= 0
    ensures SpanFrom(v, i) == Some((v.shape[i] - 1) * c + c)
  {
    SortReverses(v, i);
    SpanNext(v, Sort(v, Big(v.shape, i + 1)), i, c);
  }

  lemma SpanSmall(v: View, i: nat)
    requires i < |v.shape| == |v.strides| && v.shape[i] <= 1
    ensures SpanFrom(v, i) == SpanFrom(v, i + 1)
  {
    assert Big(v.shape, i) == Big(v.shape, i + 1);
  }

  lemma SpanStep(v: View, i: nat, c: int, b: int)
    requires i < |v.shape| == |v.strides| && Decreasing(v) && v.strides[i] == c && SpanFrom(v, i + 1) == Some(c)
    requires 1 <= c && b <= I64_MAX && b == if v.shape[i] > 1 then (v.shape[i] - 1) * c + c else c
    ensures SpanFrom(v, i) == Some(b)
  {
    if v.shape[i] > 1 {
      NonNegativeProduct(v.shape[i] - 1, c);
      SpanBig(v, i, c);
    } else {
      SpanSmall(v, i);
    }
  }

  lemma SpanNone(v: View)
    requires |v.strides| == |v.shape|
    ensures SpanFrom(v, |v.shape|) == Some(1)
  {
  }

  lemma {:induction false} ContiguousSpan(v: View, i: nat)
    requires i <= |v.shape| && v.strides == Contiguous(v.shape) && Decreasing(v) && Block(v.shape, 0) <= I64_MAX
    ensures SpanFrom(v, i) == Some(Block(v.shape, i))
    decreases |v.shape| - i
  {
    if i == |v.shape| {
      SpanNone(v);
    } else {
      ContiguousSpan(v, i + 1);
      BlockShrinks(v.shape, 0, i);
      BlockStep(v.shape, i);
      SpanStep(v, i, Block(v.shape, i + 1), Block(v.shape, i));
    }
  }

  lemma ReachNext(v: View, n: nat, total: int, c: int)
    requires 0 < n <= |v.shape| == |v.strides| && v.offset == 0 && v.strides[n - 1] == c
    requires forall d | 0 <= d < |v.shape| :: v.shape[d] >= 1 && v.strides[d] >= 0
    requires Reach(v, n - 1) == Some(total - ((v.shape[n - 1] - 1) * c + c)) && 0 <= (v.shape[n - 1] - 1) * c
    requires 1 <= c && total <= I64_MAX
    ensures Reach(v, n) == Some(total - c)
  {
  }

  lemma ReachStep(v: View, n: nat, total: int, c: int, b: int)
    requires 0 < n <= |v.shape| == |v.strides| && v.offset == 0 && v.strides[n - 1] == c
    requires forall d | 0 <= d < |v.shape| :: v.shape[d] >= 1 && v.strides[d] >= 0
    requires 1 <= c && b == (if v.shape[n - 1] > 1 then (v.shape[n - 1] - 1) * c + c else c) && total <= I64_MAX
    requires Reach(v, n - 1) == Some(total - b)
    ensures Reach(v, n) == Some(total - c)
  {
    NonNegativeProduct(v.shape[n - 1] - 1, c);
    assert v.shape[n - 1] == 1 ==> (v.shape[n - 1] - 1) * c == 0;
    ReachNext(v, n, total, c);
  }

  lemma {:induction false} ContiguousReach(v: View, n: nat)
    requires n <= |v.shape| && v.strides == Contiguous(v.shape) && v.offset == 0 && Block(v.shape, 0) <= I64_MAX
    requires forall d | 0 <= d < |v.shape| :: v.shape[d] >= 1 && v.strides[d] >= 0
    ensures Block(v.shape, n) <= Block(v.shape, 0) && Reach(v, n) == Some(Block(v.shape, 0) - Block(v.shape, n))
  {
    BlockShrinks(v.shape, 0, n);
    if n > 0 {
      ContiguousReach(v, n - 1);
      BlockStep(v.shape, n - 1);
      ReachStep(v, n, Block(v.shape, 0), Block(v.shape, n), Block(v.shape, n - 1));
    }
  }

  function Sizes(shape: seq<int>): (r: seq<nat>)
    requires NonNegative(shape)
    ensures r == shape
  {
    shape
  }

  lemma {:induction false} BlockIsNumel(shape: seq<int>, i: nat)
    requires i <= |shape| && forall d | 0 <= d < |shape| :: shape[d] >= 1
    ensures NonNegative(shape[i..]) && Block(shape, i) == Numel(Sizes(shape[i..]))
    decreases |shape| - i
  {
    if i < |shape| {
      BlockIsNumel(shape, i + 1);
      assert shape[i..][1..] == shape[i + 1..];
    }
  }

  lemma ContiguousEnd(v: View, count: nat)
    requires v.strides == Contiguous(v.shape) && v.offset == 0 && Block(v.shape, 0) <= I64_MAX
    requires StridesOk(v) && NonNegative(v.shape) && count == Numel(Sizes(v.shape))
    ensures End(v).Some? && End(v).value <= count
  {
    if 0 !in v.shape {
      assert forall d | 0 <= d < |v.shape| :: v.shape[d] in v.shape;
      ContiguousReach(v, |v.shape|);
      BlockIsNumel(v.shape, 0);
      assert v.shape[0..] == v.shape;
    }
  }

  /** A contiguous view is accepted on a storage of exactly its element count. */
  lemma ContiguousAccepted(shape: seq<int>, dtype: DType, grad: bool)
    requires ByteCount(shape, dtype).Some? && Block(shape, 0) <= I64_MAX && (grad ==> dtype.Float? || dtype.Double?)
    ensures NonNegative(shape) && ValidView(ContiguousView(shape, grad), dtype, Numel(Sizes(shape)))
  {
    CountedNonNegative(shape, 1);
    var v := ContiguousView(shape, grad);
    ContiguousDecreasing(v);
    ContiguousSpan(v, 0);
    assert SpanFrom(v, 0).Some?;
    ContiguousEnd(v, Numel(Sizes(shape)));
  }

  // ---- row-major addressing ----

  lemma RavelStep(v: View, index: seq<nat>, i: nat)
    requires i < |v.shape| && InView(v, index) && NonNegative(v.shape[i..]) && NonNegative(v.shape[i + 1..])
    ensures Ravel(index[i..], Sizes(v.shape[i..])) ==
      index[i] * Numel(Sizes(v.shape[i + 1..])) + Ravel(index[i + 1..], Sizes(v.shape[i + 1..]))
  {
    assert index[i..][1..] == index[i + 1..] && v.shape[i..][1..] == v.shape[i + 1..];
    assert Sizes(v.shape[i..])[1..] == Sizes(v.shape[i + 1..]);
  }

  lemma {:induction false} ContiguousSum(v: View, index: seq<nat>, i: nat)
    requires i <= |v.shape| && v.strides == Contiguous(v.shape) && InView(v, index)
    requires forall d | 0 <= d < |v.shape| :: v.shape[d] >= 1
    ensures NonNegative(v.shape[i..]) && Sum(v, index, From(i, |v.shape|)) == Ravel(index[i..], Sizes(v.shape[i..]))
    decreases |v.shape| - i
  {
    var n := |v.shape|;
    if i < n {
      ContiguousSum(v, index, i + 1);
      assert From(i, n) == [i] + From(i + 1, n);
      SumCons(v, index, i, From(i + 1, n));
      BlockIsNumel(v.shape, i + 1);
      RavelStep(v, index, i);
    } else {
      assert From(i, n) == [];
    }
  }

  lemma NonNegativeProduct(c: int, n: int)
    requires c >= 0 && n >= 0
    ensures c * n >= 0
  {
  }

  lemma QuotientBelow(p: nat, a: nat, n: nat)
    requires p < a * n
    ensures n > 0 && p / n < a && p / n * n + p % n == p && p % n < n
  {
    var q := p / n;
    assert q * n + p % n == p;
    assert (q - a) * n == q * n - a * n;
    if q >= a {
      NonNegativeProduct(q - a, n);
    }
  }

  lemma UnravelCons(p: nat, shape: seq<nat>, q: nat, r: nat)
    requires shape != [] && Numel(shape[1..]) > 0 && q == p / Numel(shape[1..]) && r == p % Numel(shape[1..])
    ensures Unravel(p, shape) == [q] + Unravel(r, shape[1..])
  {
  }

  lemma RavelCons(q: nat, rest: seq<nat>, shape: seq<nat>)
    requires shape != [] && q < shape[0] && InShape(rest, shape[1..])
    ensures InShape([q] + rest, shape)
    ensures Ravel([q] + rest, shape) == q * Numel(shape[1..]) + Ravel(rest, shape[1..])
  {
    var all := [q] + rest;
    assert all[1..] == rest;
    forall d | 0 <= d < |shape|
      ensures all[d] < shape[d]
    {
      assert d > 0 ==> rest[d - 1] < shape[1..][d - 1];
    }
  }

  lemma {:induction false} RavelUnravel(shape: seq<nat>, p: nat)
    requires p < Numel(shape)
    ensures InShape(Unravel(p, shape), shape) && Ravel(Unravel(p, shape), shape) == p
  {
    if shape != [] {
      var n := Numel(shape[1..]);
      QuotientBelow(p, shape[0], n);
      var q: nat, r: nat := p / n, p % n;
      assert q * n + r == p;
      RavelUnravel(shape[1..], r);
      UnravelCons(p, shape, q, r);
      RavelCons(q, Unravel(r, shape[1..]), shape);
    }
  }

  /** Contiguous views address their storage bijectively in row-major order. */
  lemma ContiguousIsRowMajor(shape: seq<int>, grad: bool, index: seq<nat>)
    requires NonNegative(shape) && InView(ContiguousView(shape, grad), index)
    ensures Address(ContiguousView(shape, grad), index) == Ravel(index, Sizes(shape))
  {
    var v := ContiguousView(shape, grad);
    forall d | 0 <= d < |shape|
      ensures shape[d] >= 1
    {
      assert index[d] < shape[d];
    }
    ContiguousSum(v, index, 0);
    assert From(0, |shape|) == Iota(|shape|) && index[0..] == index && shape[0..] == shape;
  }

  lemma ContiguousOnto(shape: seq<int>, grad: bool, p: nat)
    requires NonNegative(shape) && p < Numel(Sizes(shape))
    ensures InView(ContiguousView(shape, grad), Unravel(p, Sizes(shape)))
    ensures Address(ContiguousView(shape, grad), Unravel(p, Sizes(shape))) == p
  {
    RavelUnravel(Sizes(shape), p);
    ContiguousIsRowMajor(shape, grad, Unravel(p, Sizes(shape)));
  }
}
