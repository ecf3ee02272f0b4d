/** A loaded model holds its storages in memory; its state tensors are views into them
    (`Model::from_artifact`, `Model::snapshot`, src/deployment/mod.rs). */
module LiveModels {
  import opened Wrappers
  import opened Tensors
  import opened Views
  import opened Snapshots

  // ---- what sharing means ----

  /** Two views meet where they refer to the same cell of the same storage. */
  predicate Meet(a: State, i: seq<nat>, b: State, j: seq<nat>)
    requires |a.view.strides| == |a.view.shape| && |b.view.strides| == |b.view.shape|
    requires InView(a.view, i) && InView(b.view, j)
  {
    a.storage == b.storage && Address(a.view, i) == Address(b.view, j)
  }

  /** An element of a state tensor. */
  function Shown<T>(layout: Layout, storages: Storages<T>, s: nat, index: seq<nat>): T
    requires Loadable(layout, storages) && s < |layout.states| && InView(layout.states[s].view, index)
  {
    var d := layout.states[s];
    assert StateFits(layout, storages, d);
    ViewInBounds(d.view, layout.dtypes[d.storage], |storages[d.storage]|, index);
    storages[d.storage][Address(d.view, index)]
  }

  /** Where an element of a state tensor lies. */
  lemma Placed<T>(layout: Layout, storages: Storages<T>, s: nat, index: seq<nat>)
    requires Loadable(layout, storages) && s < |layout.states| && InView(layout.states[s].view, index)
    ensures var d := layout.states[s];
      d.storage < |storages| && |d.view.strides| == |d.view.shape| &&
        0 <= Address(d.view, index) < |storages[d.storage]| &&
      Shown(layout, storages, s, index) == storages[d.storage][Address(d.view, index)]
  {
    var d := layout.states[s];
    assert StateFits(layout, storages, d);
    ViewInBounds(d.view, layout.dtypes[d.storage], |storages[d.storage]|, index);
  }

  lemma WrittenCells<T>(layout: Layout, storages: Storages<T>, w: Write<T>)
    requires Loadable(layout, storages) && w.state < |layout.states| && InView(layout.states[w.state].view, w.index)
    ensures var d := layout.states[w.state];
      d.storage < |storages| && |d.view.strides| == |d.view.shape| &&
        0 <= Address(d.view, w.index) < |storages[d.storage]| &&
      Written(layout, storages, w) == storages[d.storage := storages[d.storage][Address(d.view, w.index) := w.value]]
  {
    Placed(layout, storages, w.state, w.index);
  }

  /** A write through one state tensor shows in another exactly where the two views meet. */
  lemma WriteShows<T>(layout: Layout, storages: Storages<T>, w: Write<T>, s: nat, index: seq<nat>)
    requires Loadable(layout, storages) && s < |layout.states| && InView(layout.states[s].view, index)
    requires w.state < |layout.states| && InView(layout.states[w.state].view, w.index)
    ensures |layout.states[s].view.strides| == |layout.states[s].view.shape|
    ensures |layout.states[w.state].view.strides| == |layout.states[w.state].view.shape|
    ensures Shown(layout, Written(layout, storages, w), s, index) ==
      if Meet(layout.states[w.state], w.index, layout.states[s], index) then
        w.value else Shown(layout, storages, s, index)
  {
    Placed(layout, storages, s, index);
    Placed(layout, Written(layout, storages, w), s, index);
    WrittenCells(layout, storages, w);
  }

  /** The arrays of a model, one per storage, all different. */
  predicate Separate<T>(bases: seq<array<T>>)
  {
    forall i, j | 0 <= i < j < |bases| :: bases[i] != bases[j]
  }

  function Cells<T>(bases: seq<array<T>>): (r: Storages<T>)
    reads set i | 0 <= i < |bases| :: bases[i]
    ensures |r| == |bases| && forall i | 0 <= i < |bases| :: r[i] == bases[i][..]
  {
    seq(|bases|, i requires 0 <= i < |bases| reads set j | 0 <= j < |bases| :: bases[j] => bases[i][..])
  }

  /** The artifact's storages where no view reaches are what memory still holds. */
  ghost predicate Agree<T>(layout: Layout, artifact: Storages<T>, live: Storages<T>)
  {
    && |artifact| == |live| && (forall i | 0 <= i < |live| :: |artifact[i]| == |live[i]|)
    && forall i: nat, a: nat | i < |live| && a < |live[i]| && !Covered(layout, i, a) :: artifact[i][a] == live[i][a]
  }

  lemma WriteAgrees<T>(layout: Layout, artifact: Storages<T>, live: Storages<T>, w: Write<T>)
    requires Loadable(layout, live) && Agree(layout, artifact, live)
    ensures Agree(layout, artifact, Written(layout, live, w))
  {
    forall i: nat, a: nat | i < |live| && a < |live[i]| && !Covered(layout, i, a)
      ensures artifact[i][a] == Written(layout, live, w)[i][a]
    {
      UncoveredKept(layout, live, [w], i, a);
      assert [w][..0] == [];
    }
  }

  class LiveModel<T(==)> {
    const layout: Layout
    /** The storages the model was loaded from. */
    const artifact: Storages<T>
    const bases: seq<array<T>>

    ghost predicate Valid()
      reads this, set i | 0 <= i < |bases| :: bases[i]
    {
      Separate(bases) && Loadable(layout, Cells(bases)) && Agree(layout, artifact, Cells(bases))
    }

    /** `from_artifact`, for an artifact that passed its checks: one array per storage. */
    constructor (layout: Layout, storages: Storages<T>)
      requires Loadable(layout, storages)
      ensures Valid() && this.layout == layout && artifact == storages && Cells(bases) == storages
      ensures forall i | 0 <= i < |bases| :: fresh(bases[i])
    {
      var made: seq<array<T>> := [];
      for i := 0 to |storages|
        invariant |made| == i && Separate(made)
        invariant forall j | 0 <= j < i :: fresh(made[j]) && made[j][..] == storages[j]
      {
        var cells := new T[|storages[i]|](a requires 0 <= a < |storages[i]| => storages[i][a]);
        assert cells[..] == storages[i];
        made := made + [cells];
      }
      this.layout := layout;
      artifact := storages;
      bases := made;
      new;
      assert Cells(bases) == storages;
    }

    /** Reads an element of a state tensor. */
    method Get(s: nat, index: seq<nat>) returns (value: T)
      requires Valid() && s < |layout.states| && InView(layout.states[s].view, index)
      ensures value == Shown(layout, Cells(bases), s, index)
    {
      var d := layout.states[s];
      assert StateFits(layout, Cells(bases), d);
      ViewInBounds(d.view, layout.dtypes[d.storage], |Cells(bases)[d.storage]|, index);
      value := bases[d.storage][Address(d.view, index)];
    }

    /** Writes an element of a state tensor in place. */
    method Put(s: nat, index: seq<nat>, value: T)
      requires Valid() && s < |layout.states| && InView(layout.states[s].view, index)
      modifies set i | 0 <= i < |bases| :: bases[i]
      ensures Valid() && Cells(bases) == Written(layout, old(Cells(bases)), Write(s, index, value))
    {
      var d := layout.states[s];
      ghost var before := Cells(bases);
      ghost var w := Write(s, index, value);
      assert StateFits(layout, before, d);
      ViewInBounds(d.view, layout.dtypes[d.storage], |before[d.storage]|, index);
      bases[d.storage][Address(d.view, index)] := value;
      assert Cells(bases) == Written(layout, before, w);
      WriteAgrees(layout, artifact, before, w);
    }

    /** `snapshot`: rebuilt storage by storage from the live views, exactly what memory holds. */
    method Snapshot() returns (r: Storages<T>)
      requires Valid()
      ensures r == Cells(bases) && Loadable(layout, r)
    {
      var live := Cells(bases);
      r := [];
      for i := 0 to |live|
        invariant r == live[..i]
      {
        var cells := RebuildStorage(layout, i, artifact[i], live);
        r := r + [cells];
      }
      assert live[..|live|] == live;
    }
  }

  /** Loading a snapshot gives a separate model with the same state, element for element. Since what
      a write shows depends on the layout alone, the copy's tensors also share as the original's do. */
  method Reload<T(==)>(m: LiveModel<T>) returns (copy: LiveModel<T>)
    requires m.Valid()
    ensures fresh(copy) && copy.Valid() && copy.layout == m.layout && Cells(copy.bases) == Cells(m.bases)
    ensures forall i | 0 <= i < |copy.bases| :: fresh(copy.bases[i])
    ensures forall s: nat, index | s < |m.layout.states| && InView(m.layout.states[s].view, index) ::
      Shown(m.layout, Cells(copy.bases), s, index) == Shown(m.layout, Cells(m.bases), s, index)
  {
    var storages := m.Snapshot();
    copy := new LiveModel(m.layout, storages);
  }
}
