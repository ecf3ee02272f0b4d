/** Names for values an exporter introduces (`fresh` in src/deployment/onnx.rs)
    and for PT2 placeholders. */
module FreshNames {
  const DIGITS: string := "0123456789"

  function Decimal(n: nat): (r: string)
    ensures |r| >= 1 && forall c | c in r :: '0' <= c <= '9'
  {
    if n < 10 then [DIGITS[n]] else Decimal(n / 10) + [DIGITS[n % 10]]
  }

  lemma {:induction false} DecimalInjective(a: nat, b: nat)
    requires Decimal(a) == Decimal(b)
    ensures a == b
  {
    var x := Decimal(a);
    var y := Decimal(b);
    assert x[|x| - 1] == DIGITS[a % 10] && y[|y| - 1] == DIGITS[b % 10];
    assert a % 10 == b % 10;
    if a >= 10 && b >= 10 {
      assert Decimal(a / 10) == x[..|x| - 1] == y[..|y| - 1] == Decimal(b / 10);
      DecimalInjective(a / 10, b / 10);
    }
  }

  function Numbered(prefix: string, n: nat): string
  {
    prefix + Decimal(n)
  }

  lemma NumberedInjective(prefix: string, a: nat, b: nat)
    requires Numbered(prefix, a) == Numbered(prefix, b)
    ensures a == b
  {
    assert Numbered(prefix, a)[|prefix|..] == Decimal(a);
    assert Numbered(prefix, b)[|prefix|..] == Decimal(b);
    DecimalInjective(a, b);
  }

  /** The first `n` numbered names. */
  function Taken(prefix: string, n: nat): set<string>
  {
    if n == 0 then {} else Taken(prefix, n - 1) + {Numbered(prefix, n - 1)}
  }

  lemma {:induction false} NextIsNew(prefix: string, n: nat, i: nat)
    requires n <= i
    ensures Numbered(prefix, i) !in Taken(prefix, n)
  {
    if n > 0 {
      NextIsNew(prefix, n - 1, i);
      if Numbered(prefix, n - 1) == Numbered(prefix, i) {
        NumberedInjective(prefix, n - 1, i);
      }
    }
  }

  lemma {:induction false} TakenSize(prefix: string, n: nat)
    ensures |Taken(prefix, n)| == n
  {
    if n > 0 {
      TakenSize(prefix, n - 1);
      NextIsNew(prefix, n - 1, n - 1);
    }
  }

  const LOWERED: string := "rusttorch_lowered_"

  /** Passing over a reserved name leaves fewer names to pass. */
  lemma FewerLeft(reserved: set<string>, serial: nat)
    requires Numbered(LOWERED, serial) in reserved
    ensures reserved - Taken(LOWERED, serial + 1) < reserved - Taken(LOWERED, serial)
  {
    NextIsNew(LOWERED, serial, serial);
    assert Numbered(LOWERED, serial) in reserved - Taken(LOWERED, serial);
  }

  /** The first unreserved name at or after `serial`, and the next serial. */
  function Fresh(reserved: set<string>, serial: nat): (r: (string, nat))
    ensures r.0 !in reserved
    ensures r.1 > serial && r.0 == Numbered(LOWERED, r.1 - 1)
    decreases reserved - Taken(LOWERED, serial)
  {
    var name := Numbered(LOWERED, serial);
    if name in reserved then
      FewerLeft(reserved, serial);
      Fresh(reserved, serial + 1)
    else (name, serial + 1)
  }

  /** Serials never run ahead of the number of reserved names. */
  lemma {:induction false} FreshKeepsTaken(reserved: set<string>, serial: nat)
    requires Taken(LOWERED, serial) <= reserved
    ensures Taken(LOWERED, Fresh(reserved, serial).1) <= reserved + {Fresh(reserved, serial).0}
    decreases reserved - Taken(LOWERED, serial)
  {
    var name := Numbered(LOWERED, serial);
    if name in reserved {
      FewerLeft(reserved, serial);
      FreshKeepsTaken(reserved, serial + 1);
    }
  }

  lemma {:induction false} DecimalLength(n: nat, bound: nat, digits: nat)
    requires n < bound && digits >= 1 && bound <= Ten(digits)
    ensures |Decimal(n)| <= digits
  {
    if n >= 10 {
      assert digits >= 2;
      DecimalLength(n / 10, Ten(digits - 1), digits - 1);
    }
  }

  function Ten(n: nat): nat
  {
    if n == 0 then 1 else 10 * Ten(n - 1)
  }
}
