/** Small vocabulary shared by the models. */
module Prelude {
  datatype Option<+T> = None | Some(value: T)

  /** The property name that JavaScript's assignment takes for the prototype: it never becomes a property. */
  const PROTO := "__proto__"

  function LowerChar(c: char): char {
    if 'A' <= c <= 'Z' then ((c as int) + 32) as char else c
  }

  /** ASCII lower-casing. */
  function Lower(s: string): (r: string)
    ensures |r| == |s| && forall i :: 0 <= i < |s| ==> r[i] == LowerChar(s[i])
  {
    seq(|s|, i requires 0 <= i < |s| => LowerChar(s[i]))
  }

  lemma LowerIdempotent(s: string)
    ensures Lower(Lower(s)) == Lower(s)
  {
    assert forall i :: 0 <= i < |s| ==> Lower(Lower(s))[i] == Lower(s)[i];
  }

  /** The white space of Go's strings.TrimSpace. */
  predicate GoSpace(c: char) {
    || c in " \t\n\r" || c as int in {0x0B, 0x0C, 0x85, 0xA0, 0x1680, 0x2028, 0x2029, 0x202F, 0x205F, 0x3000}
    || 0x2000 <= c as int <= 0x200A
  }

  /** The white space of JavaScript's String.prototype.trim. */
  predicate JsSpace(c: char) {
    || c in " \t\n\r" || c as int in {0x0B, 0x0C, 0xA0, 0x1680, 0x2028, 0x2029, 0x202F, 0x205F, 0x3000, 0xFEFF}
    || 0x2000 <= c as int <= 0x200A
  }

  function TrimLeft(space: char -> bool, s: string): string {
    if s != [] && space(s[0]) then TrimLeft(space, s[1..]) else s
  }

  function TrimRight(space: char -> bool, s: string): string {
    if s != [] && space(s[|s| - 1]) then TrimRight(space, s[..|s| - 1]) else s
  }

  function Trim(space: char -> bool, s: string): string { TrimRight(space, TrimLeft(space, s)) }

  /** Nothing to trim. */
  predicate Bare(space: char -> bool, s: string) {
    s == [] || (!space(s[0]) && !space(s[|s| - 1]))
  }

  lemma {:induction false} TrimLeftBare(space: char -> bool, s: string)
    ensures TrimLeft(space, s) == [] || !space(TrimLeft(space, s)[0])
  {
    if s != [] && space(s[0]) { TrimLeftBare(space, s[1..]); }
  }

  lemma {:induction false} TrimRightBare(space: char -> bool, s: string)
    ensures var r := TrimRight(space, s);
            r == [] || (!space(r[|r| - 1]) && r[0] == s[0])
    ensures TrimRight(space, s) <= s
  {
    if s != [] && space(s[|s| - 1]) { TrimRightBare(space, s[..|s| - 1]); }
  }

  /** Trimming yields a bare string, and bare strings are exactly its fixed points. */
  lemma TrimIsBare(space: char -> bool, s: string)
    ensures Bare(space, Trim(space, s))
    ensures Trim(space, s) == s <==> Bare(space, s)
    ensures Trim(space, Trim(space, s)) == Trim(space, s)
  {
    TrimLeftBare(space, s);
    TrimRightBare(space, TrimLeft(space, s));
    if Bare(space, s) { assert TrimLeft(space, s) == s; }
    var t := Trim(space, s);
    assert TrimLeft(space, t) == t;
  }

  lemma {:induction false} TrimLeftStrips(space: char -> bool, a: string, t: string)
    requires forall i :: 0 <= i < |a| ==> space(a[i])
    ensures TrimLeft(space, a + t) == TrimLeft(space, t)
  {
    if a == [] {
      assert a + t == t;
    } else {
      assert (a + t)[1..] == a[1..] + t;
      TrimLeftStrips(space, a[1..], t);
    }
  }

  lemma {:induction false} TrimRightStrips(space: char -> bool, t: string, b: string)
    requires forall i :: 0 <= i < |b| ==> space(b[i])
    ensures TrimRight(space, t + b) == TrimRight(space, t)
  {
    if b == [] {
      assert t + b == t;
    } else {
      var last := b[|b| - 1];
      assert (t + b)[..|t + b| - 1] == t + b[..|b| - 1];
      assert (t + b)[|t + b| - 1] == last && last in b;
      TrimRightStrips(space, t, b[..|b| - 1]);
    }
  }

  /** Trimming takes away exactly the white space around a bare string. */
  lemma TrimStrips(space: char -> bool, a: string, t: string, b: string)
    requires forall i :: 0 <= i < |a| ==> space(a[i])
    requires forall i :: 0 <= i < |b| ==> space(b[i])
    requires Bare(space, t)
    ensures Trim(space, a + t + b) == t
  {
    assert a + t + b == a + (t + b);
    TrimLeftStrips(space, a, t + b);
    if t == [] {
      TrimLeftStrips(space, b, []);
      assert t + b == b && b + [] == b;
    } else {
      assert (t + b)[0] == t[0];
      TrimRightStrips(space, t, b);
    }
  }

  // ----- decimal numerals -----

  function Digit(d: nat): char
    requires d < 10
  {
    ('0' as int + d) as char
  }

  /** The usual numeral, without leading zeros. */
  function Decimal(n: nat): (s: string)
    ensures s != [] && forall i :: 0 <= i < |s| ==> '0' <= s[i] <= '9'
  {
    if n < 10 then [Digit(n)] else Decimal(n / 10) + [Digit(n % 10)]
  }

  /** The value of a string of digits; any other character counts as 0. */
  function Value(s: string): nat {
    if s == [] then 0
    else
      var c := s[|s| - 1];
      10 * Value(s[..|s| - 1]) + if '0' <= c <= '9' then c as int - '0' as int else 0
  }

  lemma {:induction false} ValueOfDecimal(n: nat)
    ensures Value(Decimal(n)) == n
  {
    var s := Decimal(n);
    if n < 10 {
      assert s[..0] == [];
      assert s[|s| - 1] == Digit(n);
    } else {
      ValueOfDecimal(n / 10);
      assert s[..|s| - 1] == Decimal(n / 10) && s[|s| - 1] == Digit(n % 10);
    }
  }

  lemma DecimalInjective(a: nat, b: nat)
    requires Decimal(a) == Decimal(b)
    ensures a == b
  {
    ValueOfDecimal(a);
    ValueOfDecimal(b);
  }
}
