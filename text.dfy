/**
 * Text helpers that stand for the parts of Go's runtime the formatters rely on:
 * the decimal rendering of `%d`, and the UTF-8 encoding behind Go's byte-counted
 * `len(s)` and byte-offset slicing of strings.
 */
module Text {

  // ---------------------------------------------------------------------------
  // Decimal rendering (the `%d` verb)
  // ---------------------------------------------------------------------------

  predicate IsDigit(c: char) { '0' <= c <= '9' }

  function Digit(d: nat): (c: char)
    requires d < 10
    ensures IsDigit(c) && (c as int) - ('0' as int) == d
  {
    (('0' as int) + d) as char
  }

  /** The decimal digits of `n`, most significant first, without leading zeros. */
  function NatToString(n: nat): (r: string)
    ensures |r| >= 1
    ensures forall i :: 0 <= i < |r| ==> IsDigit(r[i])
    ensures r[0] == '0' ==> n == 0
  {
    if n < 10 then [Digit(n)] else NatToString(n / 10) + [Digit(n % 10)]
  }

  /** The value of a string of decimal digits; the reading direction of `NatToString`. */
  function DigitsValue(s: string): nat
    requires forall i :: 0 <= i < |s| ==> IsDigit(s[i])
  {
    if s == [] then 0
    else
      var last := s[|s| - 1];
      assert IsDigit(last);
      10 * DigitsValue(s[..|s| - 1]) + ((last as int) - ('0' as int))
  }

  lemma {:induction false} DigitsValueOfNatToString(n: nat)
    ensures DigitsValue(NatToString(n)) == n
  {
    if n >= 10 {
      var r := NatToString(n);
      assert r[..|r| - 1] == NatToString(n / 10);
      DigitsValueOfNatToString(n / 10);
    }
  }

  /** Go's `%d` on an `int`: a minus sign before the digits of a negative value. */
  function IntToString(n: int): (r: string)
    ensures |r| >= 1
  {
    if n < 0 then "-" + NatToString(-n) else NatToString(n)
  }

  /**
   * What `%d` promises: a non-negative value is all digits and reads back as itself;
   * a negative one is a minus sign, then digits that read back as its magnitude.
   */
  lemma IntToStringValue(n: int)
    ensures var r := IntToString(n);
      (n >= 0 ==> (forall i :: 0 <= i < |r| ==> IsDigit(r[i])) && DigitsValue(r) == n) &&
      (n < 0 ==> r[0] == '-' && (forall i :: 1 <= i < |r| ==> IsDigit(r[i])) && DigitsValue(r[1..]) == -n)
  {
    if n < 0 {
      DigitsValueOfNatToString(-n);
      assert IntToString(n)[1..] == NatToString(-n);
    } else {
      DigitsValueOfNatToString(n);
    }
  }

  /** Distinct counts render differently. */
  lemma NatToStringInjective(m: nat, n: nat)
    requires NatToString(m) == NatToString(n)
    ensures m == n
  {
    DigitsValueOfNatToString(m);
    DigitsValueOfNatToString(n);
  }

  /** `IntToString` loses no information: distinct integers render differently. */
  lemma IntToStringInjective(m: int, n: int)
    requires IntToString(m) == IntToString(n)
    ensures m == n
  {
    if m >= 0 && n >= 0 {
      NatToStringInjective(m, n);
    } else {
      IntToStringValue(m);
      IntToStringValue(n);
    }
  }

  // ---------------------------------------------------------------------------
  // UTF-8
  // ---------------------------------------------------------------------------

  /** The number of bytes UTF-8 uses for the scalar value `c`. */
  function Utf8Width(c: char): (w: nat)
    ensures 1 <= w <= 4
  {
    if (c as int) < 0x80 then 1
    else if (c as int) < 0x800 then 2
    else if (c as int) < 0x1_0000 then 3
    else 4
  }

  /** Go's `len(s)`: the number of bytes in the UTF-8 encoding of `s`. */
  function Utf8Length(s: string): (n: nat)
    ensures n >= |s|
  {
    if s == [] then 0 else Utf8Length(s[..|s| - 1]) + Utf8Width(s[|s| - 1])
  }

  lemma {:induction false} Utf8LengthAppend(a: string, b: string)
    ensures Utf8Length(a + b) == Utf8Length(a) + Utf8Length(b)
    decreases |b|
  {
    if b != [] {
      var b' := b[..|b| - 1];
      assert (a + b)[..|a + b| - 1] == a + b';
      assert (a + b)[|a + b| - 1] == b[|b| - 1];
      Utf8LengthAppend(a, b');
      assert Utf8Length(a + b) == Utf8Length(a + b') + Utf8Width(b[|b| - 1]);
    } else {
      assert a + b == a;
    }
  }

  /** The byte length of the tail `s[k..]` is what remains after the first `k` scalar values. */
  lemma Utf8LengthSplit(s: string, k: nat)
    requires k <= |s|
    ensures Utf8Length(s[..k]) + Utf8Length(s[k..]) == Utf8Length(s)
  {
    calc {
      Utf8Length(s);
      { assert s == s[..k] + s[k..]; }
      Utf8Length(s[..k] + s[k..]);
      { Utf8LengthAppend(s[..k], s[k..]); }
      Utf8Length(s[..k]) + Utf8Length(s[k..]);
    }
  }

  /** One more scalar value adds its own width: the step of a byte-offset loop. */
  lemma Utf8LengthStep(s: string, k: nat)
    requires k < |s|
    ensures Utf8Length(s[..k + 1]) == Utf8Length(s[..k]) + Utf8Width(s[k])
  {
    assert s[..k + 1][..k] == s[..k];
  }
}
