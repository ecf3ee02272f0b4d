/** Names in the lexicographic order of ordered maps. */
module Names {
  /** Strict lexicographic order. */
  predicate Less(a: string, b: string)
  {
    if b == "" then false
    else if a == "" then true
    else a[0] < b[0] || (a[0] == b[0] && Less(a[1..], b[1..]))
  }

  lemma {:induction false} LessTransitive(a: string, b: string, c: string)
    requires Less(a, b) && Less(b, c)
    ensures Less(a, c)
  {
    if a != "" && a[0] == b[0] == c[0] {
      LessTransitive(a[1..], b[1..], c[1..]);
    }
  }

  lemma {:induction false} LessIrreflexive(a: string)
    ensures !Less(a, a)
  {
    if a != "" {
      LessIrreflexive(a[1..]);
    }
  }

  lemma {:induction false} LessTotal(a: string, b: string)
    ensures a == b || Less(a, b) || Less(b, a)
  {
    if a != "" && b != "" && a[0] == b[0] {
      LessTotal(a[1..], b[1..]);
      assert a == [a[0]] + a[1..] && b == [b[0]] + b[1..];
    }
  }

  predicate IsLeast(s: set<string>, m: string)
  {
    m in s && forall x | x in s :: x == m || Less(m, x)
  }

  lemma LeastIsUnique(s: set<string>, a: string, b: string)
    requires IsLeast(s, a) && IsLeast(s, b)
    ensures a == b
  {
    if a != b {
      LessTransitive(a, b, a);
      LessIrreflexive(a);
    }
  }

  lemma LeastOfTwo(s: set<string>, x: string, m: string)
    requires x in s && IsLeast(s - {x}, m)
    ensures IsLeast(s, x) || IsLeast(s, m)
  {
    LessTotal(x, m);
    forall y | y in s && y != x
      ensures Less(x, m) ==> Less(x, y)
    {
      assert y in s - {x};
      if Less(x, m) && y != m {
        LessTransitive(x, m, y);
      }
    }
  }

  lemma {:induction false} LeastExists(s: set<string>)
    requires s != {}
    ensures exists m :: IsLeast(s, m)
  {
    var x :| x in s;
    if s == {x} {
      assert IsLeast(s, x);
    } else {
      LeastExists(s - {x});
      var m :| IsLeast(s - {x}, m);
      LeastOfTwo(s, x, m);
    }
  }

  function Least(s: set<string>): (m: string)
    requires s != {}
    ensures IsLeast(s, m)
  {
    LeastExists(s);
    assert forall a, b :: IsLeast(s, a) && IsLeast(s, b) ==> a == b by {
      forall a, b | IsLeast(s, a) && IsLeast(s, b)
        ensures a == b
      {
        LeastIsUnique(s, a, b);
      }
    }
    var m :| m in s && IsLeast(s, m);
    m
  }

  predicate Ascending(names: seq<string>)
  {
    forall i, j | 0 <= i < j < |names| :: Less(names[i], names[j])
  }

  function Members(names: seq<string>): set<string>
  {
    set n | n in names
  }

  lemma SortedCons(s: set<string>, m: string, rest: seq<string>)
    requires IsLeast(s, m) && Members(rest) == s - {m} && Ascending(rest)
    ensures Members([m] + rest) == s && Ascending([m] + rest)
  {
    var names := [m] + rest;
    forall x | x in s
      ensures x in names
    {
      if x != m {
        assert x in Members(rest);
        var i :| 0 <= i < |rest| && rest[i] == x;
        assert names[i + 1] == x;
      }
    }
    forall x | x in names
      ensures x in s
    {
      assert x == m || x in Members(rest);
    }
    forall j | 0 <= j < |rest|
      ensures Less(m, rest[j])
    {
      assert rest[j] in Members(rest);
    }
  }

  /** The names of a set in order, as iterating an ordered map yields them. */
  function Sorted(s: set<string>): (names: seq<string>)
    ensures Members(names) == s && Ascending(names)
    decreases s
  {
    if s == {} then []
    else
      var m := Least(s);
      var rest := Sorted(s - {m});
      SortedCons(s, m, rest);
      [m] + rest
  }

  lemma AscendingDistinct(names: seq<string>, i: nat, j: nat)
    requires Ascending(names) && i < j < |names|
    ensures names[i] != names[j]
  {
    LessIrreflexive(names[i]);
  }
}
