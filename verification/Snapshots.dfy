/** Snapshots of models whose state tensors share storage (`Model::snapshot`,
    `Model::from_artifact`, src/deployment/mod.rs). A storage is a row of cells,
    one per element; a cell is the element's bytes. */
module Snapshots {
  import opened Wrappers
  import opened Tensors
  import opened Views

  datatype State = State(name: string, storage: nat, view: View)

  /** Element types and descriptors fixed when the model is built. */
  datatype Layout = Layout(dtypes: seq<DType>, states: seq<State>)

  /** The current contents of every storage. */
  type Storages<T> = seq<seq<T>>

  predicate StateFits<T>(layout: Layout, storages: Storages<T>, s: State)
    requires |layout.dtypes| == |storages|
  {
    s.storage < |storages| && ValidView(s.view, layout.dtypes[s.storage], |storages[s.storage]|)
  }

  /** What building a model checks: distinct names, and views inside their storages. */
  predicate Loadable<T>(layout: Layout, storages: Storages<T>)
  {
    && |layout.dtypes| == |storages|
    && (forall i | 0 <= i < |layout.states| :: StateFits(layout, storages, layout.states[i]))
    && forall i, j | 0 <= i < j < |layout.states| :: layout.states[i].name != layout.states[j].name
  }

  // ---- reading and writing through a view ----

  predicate InsideCells(v: View, count: nat)
  {
    |v.strides| == |v.shape| && NonNegative(v.shape) &&
    forall index | index in Indices(Sizes(v.shape)) :: 0 <= Address(v, index) < count
  }

  lemma TuplesMatch(v: View, index: seq<nat>)
    requires NonNegative(v.shape)
    ensures InView(v, index) <==> index in Indices(Sizes(v.shape))
  {
  }

  lemma ValidInside(v: View, dtype: DType, count: nat)
    requires ValidView(v, dtype, count)
    ensures InsideCells(v, count)
  {
    CountedNonNegative(v.shape, 1);
    forall index | index in Indices(Sizes(v.shape))
      ensures 0 <= Address(v, index) < count
    {
      TuplesMatch(v, index);
      ViewInBounds(v, dtype, count, index);
    }
  }

  /** The tensor a view shows. */
  function TensorOf<T>(v: View, cells: seq<T>): map<seq<nat>, T>
    requires InsideCells(v, |cells|)
  {
    map index | index in Indices(Sizes(v.shape)) :: cells[Address(v, index)]
  }

  /** The view refers to this cell. */
  ghost predicate Covers(v: View, a: int)
    requires |v.strides| == |v.shape| && NonNegative(v.shape)
  {
    exists index :: index in Indices(Sizes(v.shape)) && Address(v, index) == a
  }

  /** Distinct index tuples of a valid view lie apart. */
  lemma LieApart(v: View, dtype: DType, count: nat, a: seq<nat>, b: seq<nat>)
    requires ValidView(v, dtype, count) && NonNegative(v.shape)
    requires a in Indices(Sizes(v.shape)) && b in Indices(Sizes(v.shape))
    requires Address(v, a) == Address(v, b)
    ensures a == b
  {
    TuplesMatch(v, a);
    TuplesMatch(v, b);
    ViewInjective(v, dtype, count, a, b);
  }

  /** Copies a tensor into the cells of a view, one element after the other. */
  method CopyInto<T>(cells: array<T>, v: View, dtype: DType, t: map<seq<nat>, T>)
    requires ValidView(v, dtype, cells.Length) && InsideCells(v, cells.Length)
    requires t.Keys == Indices(Sizes(v.shape))
    modifies cells
    ensures forall index | index in t :: cells[Address(v, index)] == t[index]
    ensures forall a | 0 <= a < cells.Length && !Covers(v, a) :: cells[a] == old(cells[a])
  {
    var left := t.Keys;
    while left != {}
      invariant left <= t.Keys
      invariant forall index | index in t && index !in left :: cells[Address(v, index)] == t[index]
      invariant forall a | 0 <= a < cells.Length && !Covers(v, a) :: cells[a] == old(cells[a])
      decreases left
    {
      var index :| index in left;
      cells[Address(v, index)] := t[index];
      left := left - {index};
      forall other | other in t && other !in left
        ensures cells[Address(v, other)] == t[other]
      {
        if other != index && Address(v, other) == Address(v, index) {
          LieApart(v, dtype, cells.Length, other, index);
        }
      }
    }
  }

  /** One in-place write through a state tensor. */
  datatype Write<T> = Write(state: nat, index: seq<nat>, value: T)

  function Written<T>(layout: Layout, storages: Storages<T>, w: Write<T>): (r: Storages<T>)
    requires Loadable(layout, storages)
    ensures Loadable(layout, r) && |r| == |storages| && forall i | 0 <= i < |r| :: |r[i]| == |storages[i]|
  {
    if w.state >= |layout.states| || !InView(layout.states[w.state].view, w.index) then storages
    else
      var s := layout.states[w.state];
      assert StateFits(layout, storages, s);
      ViewInBounds(s.view, layout.dtypes[s.storage], |storages[s.storage]|, w.index);
      var r := storages[s.storage := storages[s.storage][Address(s.view, w.index) := w.value]];
      StillLoadable(layout, storages, r);
      r
  }

  lemma StillLoadable<T>(layout: Layout, a: Storages<T>, b: Storages<T>)
    requires Loadable(layout, a) && |a| == |b| && forall i | 0 <= i < |a| :: |a[i]| == |b[i]|
    ensures Loadable(layout, b)
  {
    forall i | 0 <= i < |layout.states|
      ensures StateFits(layout, b, layout.states[i])
    {
      assert StateFits(layout, a, layout.states[i]);
    }
  }

  /** Any sequence of writes. */
  function After<T>(layout: Layout, storages: Storages<T>, writes: seq<Write<T>>): (r: Storages<T>)
    requires Loadable(layout, storages)
    ensures Loadable(layout, r) && |r| == |storages| && forall i | 0 <= i < |r| :: |r[i]| == |storages[i]|
  {
    if writes == [] then storages
    else Written(layout, After(layout, storages, writes[..|writes| - 1]), writes[|writes| - 1])
  }

  // ---- uncovered cells never change ----

  ghost predicate Reaches(s: State, i: nat, a: int)
    requires |s.view.strides| == |s.view.shape|
  {
    s.storage == i && NonNegative(s.view.shape) && Covers(s.view, a)
  }

  ghost predicate Covered(layout: Layout, i: nat, a: int)
  {
    exists k :: 0 <= k < |layout.states| && |layout.states[k].view.strides| == |layout.states[k].view.shape| &&
      Reaches(layout.states[k], i, a)
  }

  lemma {:induction false} UncoveredKept<T>(layout: Layout, storages: Storages<T>, writes: seq<Write<T>>, i: nat,
                                            a: nat)
    requires Loadable(layout, storages) && i < |storages| && a < |storages[i]| && !Covered(layout, i, a)
    ensures After(layout, storages, writes)[i][a] == storages[i][a]
  {
    if writes != [] {
      var before, w := After(layout, storages, writes[..|writes| - 1]), writes[|writes| - 1];
      UncoveredKept(layout, storages, writes[..|writes| - 1], i, a);
      if w.state < |layout.states| && InView(layout.states[w.state].view, w.index) {
        var s := layout.states[w.state];
        assert StateFits(layout, before, s);
        CountedNonNegative(s.view.shape, 1);
        TuplesMatch(s.view, w.index);
        assert Covers(s.view, Address(s.view, w.index));
      }
    }
  }

  // ---- the snapshot ----

  /** Rebuilds one storage from the live views on top of its original contents. */
  method RebuildStorage<T>(layout: Layout, i: nat, original: seq<T>, live: Storages<T>) returns (cells: seq<T>)
    requires Loadable(layout, live) && i < |live| && |original| == |live[i]|
    requires forall a: nat | a < |original| && !Covered(layout, i, a) :: original[a] == live[i][a]
    ensures cells == live[i]
  {
    var base := new T[|original|](a requires 0 <= a < |original| => original[a]);
    for k := 0 to |layout.states|
      invariant forall a: nat | a < base.Length :: base[a] == original[a] || base[a] == live[i][a]
      invariant forall a: nat | a < base.Length && CoveredBy(layout, k, i, a) :: base[a] == live[i][a]
    {
      var s := layout.states[k];
      assert StateFits(layout, live, s);
      if s.storage == i {
        ValidInside(s.view, layout.dtypes[i], |live[i]|);
        ghost var before := base[..];
        CopyInto(base, s.view, layout.dtypes[i], TensorOf(s.view, live[i]));
        CopiedLive(layout, k, i, s.view, before, base[..], original, live[i]);
      } else {
        OtherStorage(layout, k, i);
      }
    }
    assert base[..] == live[i] by {
      forall a: nat | a < base.Length
        ensures base[a] == live[i][a]
      {
        assert Covered(layout, i, a) ==> CoveredBy(layout, |layout.states|, i, a);
      }
    }
    return base[..];
  }

  /** One of the first `n` states reaches the cell. */
  ghost predicate CoveredBy(layout: Layout, n: nat, i: nat, a: int)
  {
    exists k :: 0 <= k < n && k < |layout.states| && |layout.states[k].view.strides| ==
      |layout.states[k].view.shape| && Reaches(layout.states[k], i, a)
  }

  lemma OtherStorage(layout: Layout, k: nat, i: nat)
    requires k < |layout.states| && layout.states[k].storage != i
    ensures forall a :: CoveredBy(layout, k + 1, i, a) ==> CoveredBy(layout, k, i, a)
  {
  }

  lemma CopiedLive<T>(layout: Layout, k: nat, i: nat, v: View, before: seq<T>, after: seq<T>, original: seq<T>,
                      live: seq<T>)
    requires k < |layout.states| && layout.states[k].storage == i && layout.states[k].view == v
    requires |before| == |after| == |original| == |live| && InsideCells(v, |live|)
    requires forall a: nat | a < |before| :: before[a] == original[a] || before[a] == live[a]
    requires forall a: nat | a < |before| && CoveredBy(layout, k, i, a) :: before[a] == live[a]
    requires forall index | index in Indices(Sizes(v.shape)) :: after[Address(v, index)] == live[Address(v, index)]
    requires forall a | 0 <= a < |after| && !Covers(v, a) :: after[a] == before[a]
    ensures forall a: nat | a < |after| :: after[a] == original[a] || after[a] == live[a]
    ensures forall a: nat | a < |after| && CoveredBy(layout, k + 1, i, a) :: after[a] == live[a]
  {
    forall a: nat | a < |after|
      ensures Covers(v, a) ==> after[a] == live[a]
    {
      if Covers(v, a) {
        var index :| index in Indices(Sizes(v.shape)) && Address(v, index) == a;
      }
    }
    forall a: nat | a < |after| && CoveredBy(layout, k + 1, i, a)
      ensures after[a] == live[a]
    {
      if !Covers(v, a) {
        assert CoveredBy(layout, k, i, a);
      }
    }
  }

  /** `snapshot` after any in-place writes: exactly the live storages. */
  method Snapshot<T>(layout: Layout, original: Storages<T>, ghost writes: seq<Write<T>>,
                     live: Storages<T>)
    returns (r: Storages<T>)
    requires Loadable(layout, original) && live == After(layout, original, writes)
    ensures r == live && Loadable(layout, r)
  {
    r := [];
    for i := 0 to |original|
      invariant r == live[..i]
    {
      forall a: nat | a < |original[i]| && !Covered(layout, i, a)
        ensures original[i][a] == live[i][a]
      {
        UncoveredKept(layout, original, writes, i, a);
      }
      var cells := RebuildStorage(layout, i, original[i], live);
      r := r + [cells];
    }
    assert live[..|original|] == live;
  }
}
