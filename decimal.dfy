/**
 * Decimal rendering of integers as Rust's plain and `02` (zero-padded width 2) format specifiers
 * produce it, and the digit reader that inverts it.
 */
module Decimal {
  import opened Text

  /** Rust's `u8`. */
  type U8 = x: nat | x < 256

  predicate IsDigit(c: char)
  {
    '0' <= c <= '9'
  }

  predicate AllDigits(s: string)
  {
    forall i :: 0 <= i < |s| ==> IsDigit(s[i])
  }

  /** Digits are not line terminators. */
  lemma DigitsOnOneLine(s: string)
    requires AllDigits(s)
    ensures NoNewline(s)
  {
  }

  function DigitChar(d: nat): (c: char)
    requires d < 10
    ensures IsDigit(c) && DigitValue(c) == d
  {
    (('0' as int) + d) as char
  }

  function DigitValue(c: char): (d: nat)
    requires IsDigit(c)
    ensures d < 10
  {
    (c as int) - ('0' as int)
  }

  /** `{}` of an unsigned integer: the shortest decimal form, no sign, no
      padding, and never a leading zero. */
  function NatToString(n: nat): (s: string)
    ensures AllDigits(s) && 1 <= |s|
    ensures |s| == 1 <==> n < 10
    ensures n < 100 ==> |s| <= 2
    ensures s[0] == '0' ==> n == 0
    decreases n
  {
    if n < 10 then [DigitChar(n)] else NatToString(n / 10) + [DigitChar(n % 10)]
  }

  /** `{}` of a signed integer: a `-` in front of a negative value. */
  function IntToString(z: int): (s: string)
    ensures 1 <= |s|
    ensures s[0] == '-' <==> z < 0
    ensures z < 0 ==> AllDigits(s[1..])
    ensures 0 <= z ==> AllDigits(s)
    ensures z < 0 ==> 2 <= |s| && s[1] != '0'
    ensures s[0] == '0' ==> z == 0
  {
    if z < 0 then "-" + NatToString(-z) else NatToString(z)
  }

  /** Width-2 zero-padded form of an unsigned integer: zero-padded to at least two digits and
      never cut short. */
  function Pad2(n: nat): (s: string)
    ensures AllDigits(s) && 2 <= |s|
    ensures n < 100 ==> |s| == 2
    ensures 10 <= n ==> s == NatToString(n)
    ensures Value(s) == n
  {
    ValueOfNatToString(n);
    if n < 10 then
      ValueLeadingZero(NatToString(n));
      "0" + NatToString(n)
    else
      NatToString(n)
  }

  /** The number a string of digits spells, read most significant first. */
  function Value(s: string): nat
    requires AllDigits(s)
  {
    if s == [] then 0 else Value(s[..|s| - 1]) * 10 + DigitValue(s[|s| - 1])
  }

  lemma {:induction false} ValueOfNatToString(n: nat)
    ensures Value(NatToString(n)) == n
    decreases n
  {
    if n >= 10 {
      var s := NatToString(n);
      assert s[..|s| - 1] == NatToString(n / 10);
      ValueOfNatToString(n / 10);
    }
  }

  /** A leading zero does not change the value. */
  lemma {:induction false} ValueLeadingZero(s: string)
    requires AllDigits(s)
    ensures AllDigits("0" + s) && Value("0" + s) == Value(s)
    decreases |s|
  {
    if s != [] {
      var z := "0" + s;
      assert z[..|z| - 1] == "0" + s[..|s| - 1];
      ValueLeadingZero(s[..|s| - 1]);
    }
  }

  /** `NatToString` is one-to-one. */
  lemma NatToStringInjective(m: nat, n: nat)
    ensures NatToString(m) == NatToString(n) <==> m == n
  {
    ValueOfNatToString(m);
    ValueOfNatToString(n);
  }

  /** Number of digits at the front of `s`. */
  function LeadingDigits(s: string): (k: nat)
    ensures k <= |s|
    ensures AllDigits(s[..k])
    ensures k < |s| ==> !IsDigit(s[k])
  {
    if s == [] || !IsDigit(s[0]) then 0 else 1 + LeadingDigits(s[1..])
  }

  /** A run of digits ended by the end of the text or by a non-digit is read
      back whole. */
  lemma {:induction false} LeadingDigitsOf(d: string, t: string)
    requires AllDigits(d)
    requires t == [] || !IsDigit(t[0])
    ensures LeadingDigits(d + t) == |d|
    decreases |d|
  {
    if d != [] {
      assert (d + t)[1..] == d[1..] + t;
      LeadingDigitsOf(d[1..], t);
    } else {
      assert d + t == t;
    }
  }

  /** Reads the unsigned number at the front of `s`, and what follows it. */
  function TakeNat(s: string): (r: (bool, nat, string))
    ensures r.0 ==> |r.2| < |s| && r.2 == s[|s| - |r.2|..]
  {
    var k := LeadingDigits(s);
    if k == 0 then (false, 0, s) else (true, Value(s[..k]), s[k..])
  }

  lemma TakeNatOfDigits(d: string, t: string)
    requires AllDigits(d) && d != []
    requires t == [] || !IsDigit(t[0])
    ensures TakeNat(d + t) == (true, Value(d), t)
  {
    LeadingDigitsOf(d, t);
    assert (d + t)[..|d|] == d;
    assert (d + t)[|d|..] == t;
  }

  /** `TakeNat` inverts `NatToString` when a separator follows. */
  lemma TakeNatOf(n: nat, t: string)
    requires t == [] || !IsDigit(t[0])
    ensures TakeNat(NatToString(n) + t) == (true, n, t)
  {
    ValueOfNatToString(n);
    TakeNatOfDigits(NatToString(n), t);
  }

  /** `TakeNat` inverts `Pad2` when a separator follows. */
  lemma TakeNatOfPad2(n: nat, t: string)
    requires t == [] || !IsDigit(t[0])
    ensures TakeNat(Pad2(n) + t) == (true, n, t)
  {
    TakeNatOfDigits(Pad2(n), t);
  }

  /** Reads a signed number (optional `-`) at the front of `s`. */
  function TakeInt(s: string): (r: (bool, int, string))
  {
    if s != [] && s[0] == '-' then
      var r := TakeNat(s[1..]);
      (r.0, -(r.1 as int), r.2)
    else
      var r := TakeNat(s);
      (r.0, r.1 as int, r.2)
  }

  /** `TakeInt` inverts `IntToString` when a separator follows. */
  lemma TakeIntOf(z: int, t: string)
    requires t == [] || !IsDigit(t[0])
    ensures TakeInt(IntToString(z) + t) == (true, z, t)
  {
    if z < 0 {
      TakeNegative(-z, t);
    } else {
      var s := NatToString(z) + t;
      assert IsDigit(s[0]);
      TakeNatOf(z, t);
    }
  }

  lemma TakeNegative(n: nat, t: string)
    requires t == [] || !IsDigit(t[0])
    ensures TakeInt("-" + NatToString(n) + t) == (true, -(n as int), t)
  {
    SignThen(NatToString(n), t);
    TakeNatOf(n, t);
  }

  /** Proof step: the sign, then the digits and what follows them. */
  lemma SignThen(d: string, t: string)
    ensures ("-" + d + t)[0] == '-' && ("-" + d + t)[1..] == d + t
  {
  }
}
