/** Calling trees in PT2 archives (`tree_json`, `parse_tree`, src/deployment/pt2.rs). */
module Pt2Trees {
  import opened Wrappers
  import opened Programs

  /** A decoded JSON value. Objects keep their members; keys are unique. */
  datatype Json =
    | Null
    | Flag(truth: bool)
    | Number(n: int)
    | Fraction(value: real)
    | Text(text: string)
    | Items(items: seq<Json>)
    | Object(members: seq<Member>)

  datatype Member = Member(key: string, json: Json)

  /** `value[key]`: null when the key or the object is missing. */
  function Field(j: Json, key: string): Json
  {
    if j.Object? then Find(j.members, key) else Null
  }

  function Find(members: seq<Member>, key: string): Json
  {
    if members == [] then Null else if members[0].key == key then members[0].json else Find(members[1..], key)
  }

  /** How a list of dictionary keys is written as text and read back. */
  datatype Codec = Codec(write: seq<string> -> string, read: string -> Option<seq<string>>)

  ghost predicate Faithful(c: Codec)
  {
    forall keys :: c.read(c.write(keys)) == Some(keys)
  }

  // ---- writing ----

  function TypedTree(kind: Json, context: Json, children: seq<Json>): Json
  {
    Object([Member("type", kind), Member("context", context), Member("children_spec", Items(children))])
  }

  function Keys(entries: seq<Entry>): (r: seq<string>)
    ensures |r| == |entries|
  {
    seq(|entries|, i requires 0 <= i < |entries| => entries[i].key)
  }

  function TreeJson(c: Codec, t: Tree): Json
    decreases t
  {
    match t
    case Leaf(_) => TypedTree(Null, Null, [])
    case Tuple(v) => TypedTree(Text("builtins.tuple"), Text("null"), TreesJson(c, v))
    case List(v) => TypedTree(Text("builtins.list"), Text("null"), TreesJson(c, v))
    case Dict(v) => TypedTree(Text("builtins.dict"), Text(c.write(Keys(v))), EntriesJson(c, v))
  }

  function TreesJson(c: Codec, v: seq<Tree>): (r: seq<Json>)
    ensures |r| == |v|
    decreases v
  {
    if v == [] then [] else [TreeJson(c, v[0])] + TreesJson(c, v[1..])
  }

  function EntriesJson(c: Codec, v: seq<Entry>): (r: seq<Json>)
    ensures |r| == |v|
    decreases v
  {
    if v == [] then [] else [TreeJson(c, v[0].tree)] + EntriesJson(c, v[1..])
  }

  // ---- reading ----

  /** The subtree and the names left, threading the name iterator. */
  function ParseWalk(c: Codec, j: Json, names: seq<string>, depth: nat): Option<(Tree, seq<string>)>
    decreases MAX_DEPTH + 1 - depth, 1, 0
  {
    if depth > MAX_DEPTH then None
    else
      var children, kind := Field(j, "children_spec"), Field(j, "type");
      if !children.Items? then None
      else if kind.Null? then
        if children.items != [] || names == [] then None else Some((Leaf(names[0]), names[1..]))
      else
        var parsed := ParseAll(c, children.items, names, depth);
        if parsed.None? || !kind.Text? then None
        else if kind.text == "builtins.tuple" then Some((Tuple(parsed.value.0), parsed.value.1))
        else if kind.text == "builtins.list" then Some((List(parsed.value.0), parsed.value.1))
        else if kind.text == "builtins.dict" then
          var context := Field(j, "context");
          var keys := if context.Text? then c.read(context.text) else None;
          if keys.None? || |keys.value| != |parsed.value.0| then None
          else Some((Dict(Zipped(keys.value, parsed.value.0)), parsed.value.1))
        else None
  }

  function ParseAll(c: Codec, children: seq<Json>, names: seq<string>,
                    depth: nat): (r: Option<(seq<Tree>, seq<string>)>)
    requires depth <= MAX_DEPTH
    ensures r.Some? ==> |r.value.0| == |children|
    decreases MAX_DEPTH + 1 - depth, 0, |children|
  {
    if children == [] then Some(([], names))
    else
      var first := ParseWalk(c, children[0], names, depth + 1);
      if first.None? then None
      else
        var rest := ParseAll(c, children[1..], first.value.1, depth);
        if rest.None? then None else Some(([first.value.0] + rest.value.0, rest.value.1))
  }

  function Zipped(keys: seq<string>, trees: seq<Tree>): (r: seq<Entry>)
    requires |keys| == |trees|
    ensures |r| == |keys|
  {
    seq(|keys|, i requires 0 <= i < |keys| => Entry(keys[i], trees[i]))
  }

  /** `parse_tree`, on the decoded document. */
  function ParseTree(c: Codec, root: Json, names: seq<string>): Option<Tree>
  {
    if !root.Items? || root.items == [] || root.items[0] != Number(1) then None
    else
      var walked := ParseWalk(c, if |root.items| > 1 then root.items[1] else Null, names, 0);
      if walked.None? || walked.value.1 != [] || Leaves(walked.value.0).None? then None else Some(walked.value.0)
  }

  function Document(c: Codec, t: Tree): Json
  {
    Items([Number(1), TreeJson(c, t)])
  }

  // ---- leaves ----

  function LeafNames(t: Tree): seq<string>
    decreases t
  {
    match t
    case Leaf(n) => [n]
    case Tuple(v) => AllNames(v)
    case List(v) => AllNames(v)
    case Dict(v) => EntryNames(v)
  }

  function AllNames(v: seq<Tree>): seq<string>
    decreases v
  {
    if v == [] then [] else LeafNames(v[0]) + AllNames(v[1..])
  }

  function EntryNames(v: seq<Entry>): seq<string>
    decreases v
  {
    if v == [] then [] else LeafNames(v[0].tree) + EntryNames(v[1..])
  }

  lemma {:induction false} WalkNames(t: Tree, depth: nat, found: seq<string>)
    requires Walk(t, depth, found).Some?
    ensures Walk(t, depth, found).value == found + LeafNames(t) && depth <= MAX_DEPTH
    decreases t
  {
    match t
    case Leaf(n) => assert LeafNames(t) == [n];
    case Tuple(v) =>
      WalkAllNames(v, depth + 1, found);
      assert LeafNames(t) == AllNames(v);
    case List(v) =>
      WalkAllNames(v, depth + 1, found);
      assert LeafNames(t) == AllNames(v);
    case Dict(v) =>
      WalkEntryNames(v, depth + 1, found);
      assert LeafNames(t) == EntryNames(v);
  }

  lemma {:induction false} WalkAllNames(v: seq<Tree>, depth: nat, found: seq<string>)
    requires WalkAll(v, depth, found).Some?
    ensures WalkAll(v, depth, found).value == found + AllNames(v)
    decreases v
  {
    if v != [] {
      WalkNames(v[0], depth, found);
      WalkAllNames(v[1..], depth, found + LeafNames(v[0]));
      assert found + LeafNames(v[0]) + AllNames(v[1..]) == found + (LeafNames(v[0]) + AllNames(v[1..]));
    } else {
      assert found + [] == found;
    }
  }

  lemma {:induction false} WalkEntryNames(v: seq<Entry>, depth: nat, found: seq<string>)
    requires WalkEntries(v, depth, found).Some?
    ensures WalkEntries(v, depth, found).value == found + EntryNames(v)
    decreases v
  {
    if v != [] {
      WalkNames(v[0].tree, depth, found);
      WalkEntryNames(v[1..], depth, found + LeafNames(v[0].tree));
      assert found + LeafNames(v[0].tree) + EntryNames(v[1..]) == found + (LeafNames(v[0].tree) + EntryNames(v[1..]));
    } else {
      assert found + [] == found;
    }
  }

  // ---- round trip ----

  lemma Fields(kind: Json, context: Json, children: seq<Json>)
    ensures var j := TypedTree(kind, context, children);
      Field(j, "type") == kind && Field(j, "context") == context && Field(j, "children_spec") == Items(children)
  {
    var members := TypedTree(kind, context, children).members;
    var rest := members[1..];
    assert rest == [Member("context", context), Member("children_spec", Items(children))];
    assert rest[1..] == [Member("children_spec", Items(children))];
    assert Find(members, "context") == Find(rest, "context") == context;
    assert Find(members, "children_spec") == Find(rest, "children_spec") == Find(rest[1..], "children_spec");
  }

  /** No subtree lies deeper than the limit. */
  predicate Shallow(t: Tree, depth: nat)
    decreases t
  {
    depth <= MAX_DEPTH &&
    match t
    case Leaf(_) => true
    case Tuple(v) => AllShallow(v, depth + 1)
    case List(v) => AllShallow(v, depth + 1)
    case Dict(v) => EntriesShallow(v, depth + 1)
  }

  predicate AllShallow(v: seq<Tree>, depth: nat)
    decreases v
  {
    v == [] || (Shallow(v[0], depth) && AllShallow(v[1..], depth))
  }

  predicate EntriesShallow(v: seq<Entry>, depth: nat)
    decreases v
  {
    v == [] || (Shallow(v[0].tree, depth) && EntriesShallow(v[1..], depth))
  }

  lemma {:induction false} WalkShallow(t: Tree, depth: nat, found: seq<string>)
    requires Walk(t, depth, found).Some?
    ensures Shallow(t, depth)
    decreases t
  {
    match t
    case Leaf(_) =>
    case Tuple(v) => WalkAllShallow(v, depth + 1, found);
    case List(v) => WalkAllShallow(v, depth + 1, found);
    case Dict(v) => WalkEntriesShallow(v, depth + 1, found);
  }

  lemma {:induction false} WalkAllShallow(v: seq<Tree>, depth: nat, found: seq<string>)
    requires WalkAll(v, depth, found).Some?
    ensures AllShallow(v, depth)
    decreases v
  {
    if v != [] {
      WalkShallow(v[0], depth, found);
      WalkAllShallow(v[1..], depth, Walk(v[0], depth, found).value);
    }
  }

  lemma {:induction false} WalkEntriesShallow(v: seq<Entry>, depth: nat, found: seq<string>)
    requires WalkEntries(v, depth, found).Some?
    ensures EntriesShallow(v, depth)
    decreases v
  {
    if v != [] {
      WalkShallow(v[0].tree, depth, found);
      WalkEntriesShallow(v[1..], depth, Walk(v[0].tree, depth, found).value);
    }
  }

  lemma DictRead(c: Codec, v: seq<Entry>, depth: nat, names: seq<string>, parsed: Option<(seq<Tree>, seq<string>)>)
    requires Faithful(c) && depth <= MAX_DEPTH && ParseAll(c, EntriesJson(c, v), names, depth) == parsed
    requires parsed.Some? ==> parsed.value.0 == Trees(v)
    ensures ParseWalk(c, TreeJson(c, Dict(v)), names, depth) ==
      if parsed.None? then None else Some((Dict(v), parsed.value.1))
  {
    Fields(Text("builtins.dict"), Text(c.write(Keys(v))), EntriesJson(c, v));
    assert Zipped(Keys(v), Trees(v)) == v;
  }

  /** A written tree is read back exactly when it is not too deep. */
  lemma {:induction false} ParseWritten(c: Codec, t: Tree, depth: nat, rest: seq<string>)
    requires Faithful(c)
    ensures ParseWalk(c, TreeJson(c, t), LeafNames(t) + rest, depth) ==
      if Shallow(t, depth) then Some((t, rest)) else None
    decreases t
  {
    if depth <= MAX_DEPTH {
      match t
      case Leaf(n) =>
        Fields(Null, Null, []);
        assert ([n] + rest)[1..] == rest;
      case Tuple(v) =>
        Fields(Text("builtins.tuple"), Text("null"), TreesJson(c, v));
        ParseWrittenAll(c, v, depth, rest);
      case List(v) =>
        Fields(Text("builtins.list"), Text("null"), TreesJson(c, v));
        ParseWrittenAll(c, v, depth, rest);
      case Dict(v) =>
        ParseWrittenEntries(c, v, depth, rest);
        DictRead(c, v, depth, EntryNames(v) + rest,
                 if EntriesShallow(v, depth + 1) then Some((Trees(v), rest)) else None);
    }
  }

  function Trees(v: seq<Entry>): (r: seq<Tree>)
    ensures |r| == |v|
  {
    seq(|v|, i requires 0 <= i < |v| => v[i].tree)
  }

  lemma {:induction false} ParseWrittenAll(c: Codec, v: seq<Tree>, depth: nat, rest: seq<string>)
    requires Faithful(c) && depth <= MAX_DEPTH
    ensures ParseAll(c, TreesJson(c, v), AllNames(v) + rest, depth) == if AllShallow(v, depth + 1) then
      Some((v, rest)) else None
    decreases v
  {
    if v != [] {
      ParseWritten(c, v[0], depth + 1, AllNames(v[1..]) + rest);
      ParseWrittenAll(c, v[1..], depth, rest);
      assert AllNames(v) + rest == LeafNames(v[0]) + (AllNames(v[1..]) + rest);
      assert TreesJson(c, v)[1..] == TreesJson(c, v[1..]);
      assert [v[0]] + v[1..] == v;
    } else {
      assert AllNames(v) + rest == rest;
    }
  }

  lemma {:induction false} ParseWrittenEntries(c: Codec, v: seq<Entry>, depth: nat, rest: seq<string>)
    requires Faithful(c) && depth <= MAX_DEPTH
    ensures ParseAll(c, EntriesJson(c, v), EntryNames(v) + rest, depth) ==
      if EntriesShallow(v, depth + 1) then Some((Trees(v), rest)) else None
    decreases v
  {
    if v != [] {
      ParseWritten(c, v[0].tree, depth + 1, EntryNames(v[1..]) + rest);
      ParseWrittenEntries(c, v[1..], depth, rest);
      assert EntryNames(v) + rest == LeafNames(v[0].tree) + (EntryNames(v[1..]) + rest);
      assert EntriesJson(c, v)[1..] == EntriesJson(c, v[1..]);
      assert Trees(v) == [v[0].tree] + Trees(v[1..]);
    } else {
      assert EntryNames(v) + rest == rest;
    }
  }

  /** A written tree is read back, to itself, exactly when it is within the limits
      and its dictionary keys are unique. */
  lemma TreeRoundTrip(c: Codec, t: Tree)
    requires Faithful(c)
    ensures ParseTree(c, Document(c, t), LeafNames(t)) == if Leaves(t).Some? then Some(t) else None
    ensures Leaves(t).Some? ==> Leaves(t).value == LeafNames(t)
  {
    assert LeafNames(t) + [] == LeafNames(t);
    ParseWritten(c, t, 0, []);
    if Leaves(t).Some? {
      WalkNames(t, 0, []);
      WalkShallow(t, 0, []);
      assert [] + LeafNames(t) == LeafNames(t);
    }
  }
}
