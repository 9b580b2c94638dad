/** Integers as text: String(n) for an integer, and parseInt(text, 10). */
module Numerals {
  import opened Prelude

  function IntText(n: int): string { if n < 0 then "-" + Decimal(-n) else Decimal(n) }

  predicate IsDigit(c: char) { '0' <= c <= '9' }

  function DigitRun(s: string): (n: nat)
    ensures n <= |s|
  {
    if s != [] && IsDigit(s[0]) then 1 + DigitRun(s[1..]) else 0
  }

  function ParseDigits(s: string): Option<nat> {
    var n := DigitRun(s);
    if n == 0 then None else Some(Value(s[..n]))
  }

  /** parseInt(s, 10); None is NaN. */
  function ParseInt(s: string): Option<int> {
    var t := TrimLeft(JsSpace, s);
    if t != [] && t[0] == '-' then
      match ParseDigits(t[1..]) case None => None case Some(n) => Some(-(n as int))
    else
      match ParseDigits(if t != [] && t[0] == '+' then t[1..] else t) case None => None case Some(n) => Some(n)
  }

  lemma {:induction false} AllDigits(s: string)
    requires forall i :: 0 <= i < |s| ==> IsDigit(s[i])
    ensures DigitRun(s) == |s|
  {
    if s != [] { AllDigits(s[1..]); }
  }

  lemma ParseDecimal(n: nat)
    ensures ParseDigits(Decimal(n)) == Some(n)
  {
    var s := Decimal(n);
    AllDigits(s);
    assert s[..|s|] == s;
    ValueOfDecimal(n);
  }

  lemma {:induction false} DigitRunIs(digits: string, rest: string)
    requires (forall i :: 0 <= i < |digits| ==> IsDigit(digits[i])) && (rest == [] || !IsDigit(rest[0]))
    ensures DigitRun(digits + rest) == |digits|
  {
    if digits == [] {
      assert digits + rest == rest;
    } else {
      assert (digits + rest)[1..] == digits[1..] + rest;
      DigitRunIs(digits[1..], rest);
    }
  }

  function Zeros(k: nat): string { seq(k, _ => '0') }

  lemma {:induction false} ValueOfZeros(k: nat)
    ensures Value(Zeros(k)) == 0
  {
    if k > 0 {
      assert Zeros(k)[..k - 1] == Zeros(k - 1);
      ValueOfZeros(k - 1);
    }
  }

  lemma {:induction false} LeadingZeros(k: nat, s: string)
    ensures Value(Zeros(k) + s) == Value(s)
  {
    var t := Zeros(k) + s;
    if s == [] {
      assert t == Zeros(k);
      ValueOfZeros(k);
    } else {
      assert t[..|t| - 1] == Zeros(k) + s[..|s| - 1] && t[|t| - 1] == s[|s| - 1];
      LeadingZeros(k, s[..|s| - 1]);
    }
  }

  /** parseInt skips white space ... */
  lemma ParseIntTrims(space: string, t: string)
    requires forall i :: 0 <= i < |space| ==> JsSpace(space[i])
    ensures ParseInt(space + t) == ParseInt(t)
  {
    TrimLeftStrips(JsSpace, space, t);
  }

  /** ... takes a sign ... */
  lemma ParseIntSigned(t: string)
    requires t == [] || (!JsSpace(t[0]) && t[0] != '+' && t[0] != '-')
    ensures ParseInt(t) == match ParseDigits(t) case None => None case Some(n) => Some(n)
    ensures ParseInt(['+'] + t) == match ParseDigits(t) case None => None case Some(n) => Some(n)
    ensures ParseInt(['-'] + t) == match ParseDigits(t) case None => None case Some(n) => Some(-(n as int))
  {
    var plus, minus := ['+'] + t, ['-'] + t;
    assert plus[0] == '+' && plus[1..] == t && minus[0] == '-' && minus[1..] == t;
    assert TrimLeft(JsSpace, t) == t && TrimLeft(JsSpace, plus) == plus && TrimLeft(JsSpace, minus) == minus;
  }

  /** ... and the digits after it, leading zeros too, and ignores the rest ... */
  lemma ParseDigitsReads(k: nat, n: nat, rest: string)
    requires rest == [] || !IsDigit(rest[0])
    ensures ParseDigits(Zeros(k) + Decimal(n) + rest) == Some(n)
  {
    var digits := Zeros(k) + Decimal(n);
    DigitRunIs(digits, rest);
    assert (digits + rest)[..|digits|] == digits;
    LeadingZeros(k, Decimal(n));
    ValueOfDecimal(n);
  }

  /** ... but fails where no digit follows. */
  lemma ParseDigitsFails(rest: string)
    ensures ParseDigits(rest) == None <==> rest == [] || !IsDigit(rest[0])
  {}

  /** parseInt undoes the decimal text of every integer. */
  lemma ParseIntText(n: int)
    ensures ParseInt(IntText(n)) == Some(n)
  {
    var s := IntText(n);
    assert s[0] == '-' || IsDigit(s[0]);
    assert TrimLeft(JsSpace, s) == s;
    if n < 0 {
      assert s[1..] == Decimal(-n);
      ParseDecimal(-n);
    } else {
      ParseDecimal(n);
    }
  }
}
