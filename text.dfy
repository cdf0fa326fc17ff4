/** Character classes and decimal digit strings: the parts of JavaScript's
    `String.prototype.trim`, `Number.prototype.toString`, `parseInt` and
    `String.prototype.padStart` that the payslip code relies on. */
module Text {

  predicate IsDigit(c: char) { '0' <= c <= '9' }

  predicate AllDigits(s: string) { forall i :: 0 <= i < |s| ==> IsDigit(s[i]) }

  /** `\s` in a JavaScript regular expression, equivalently what `trim` removes. */
  predicate IsWhitespace(c: char) {
    var k := c as int;
    (9 <= k <= 13) || k == 32 || k == 0xA0 || k == 0x1680 || (0x2000 <= k <= 0x200A)
    || k == 0x2028 || k == 0x2029 || k == 0x202F || k == 0x205F || k == 0x3000 || k == 0xFEFF
  }

  /** `!s.trim()`: the string is empty once its surrounding white space is removed. */
  predicate Blank(s: string) { forall i :: 0 <= i < |s| ==> IsWhitespace(s[i]) }

  function DigitChar(d: nat): (c: char)
    requires d < 10
    ensures IsDigit(c)
  {
    ('0' as int + d) as char
  }

  function DigitValue(c: char): (d: nat)
    requires IsDigit(c)
    ensures d < 10 && DigitChar(d) == c
  {
    c as int - '0' as int
  }

  /** `n.toString()` for a non-negative integer: shortest decimal form. */
  function NatToString(n: nat): (s: string)
    ensures 1 <= |s| && AllDigits(s)
    ensures s[0] == '0' <==> n == 0
    ensures n < 10 <==> |s| == 1
  {
    if n < 10 then [DigitChar(n)] else NatToString(n / 10) + [DigitChar(n % 10)]
  }

  /** `parseInt(s)` for a string of decimal digits. */
  function DigitsValue(s: string): nat
    requires AllDigits(s)
  {
    if s == [] then 0 else DigitsValue(s[..|s| - 1]) * 10 + DigitValue(s[|s| - 1])
  }

  /** Reading back the decimal form of a number gives the number. */
  lemma {:induction false} DigitsValueOfNatToString(n: nat)
    ensures DigitsValue(NatToString(n)) == n
  {
    if n >= 10 {
      DigitsValueOfNatToString(n / 10);
      var s := NatToString(n);
      assert s[..|s| - 1] == NatToString(n / 10);
    }
  }

  /** `s.padStart(width, pad)` for a one-character pad. */
  function PadStart(s: string, width: nat, pad: char): (r: string)
    ensures |r| == if |s| >= width then |s| else width
    ensures r[|r| - |s|..] == s
    ensures forall i :: 0 <= i < |r| - |s| ==> r[i] == pad
  {
    if |s| >= width then s else seq(width - |s|, _ => pad) + s
  }

  lemma OneDigitCents(c: nat)
    requires c < 10
    ensures PadStart(NatToString(c), 2, '0') == ['0', DigitChar(c)]
  {
    var s := NatToString(c);
    assert s == [DigitChar(c)];
    assert seq(1, _ => '0') == ['0'];
  }

  lemma TwoDigitString(c: nat)
    requires 10 <= c < 100
    ensures NatToString(c) == [DigitChar(c / 10), DigitChar(c % 10)]
  {
    assert NatToString(c / 10) == [DigitChar(c / 10)];
  }

  /** The two decimal digits of a number below 100, a leading zero included. */
  function DigitPair(c: nat): string
    requires c < 100
  {
    [DigitChar(c / 10), DigitChar(c % 10)]
  }

  /** Two-digit cents: `c.toString().padStart(2, '0')` is the digit pair of `c`. */
  lemma TwoDigitCents(c: nat)
    requires c < 100
    ensures PadStart(NatToString(c), 2, '0') == DigitPair(c)
  {
    if c < 10 {
      OneDigitCents(c);
      assert c / 10 == 0 && c % 10 == c;
      assert DigitChar(0) == '0';
    } else {
      TwoDigitString(c);
      assert |NatToString(c)| == 2;
    }
  }

  /** The digit pair of `c` reads back as `c`. */
  lemma DigitPairValue(c: nat)
    requires c < 100
    ensures AllDigits(DigitPair(c)) && |DigitPair(c)| == 2
    ensures DigitsValue(DigitPair(c)) == c
  {
    var s := [DigitChar(c / 10), DigitChar(c % 10)];
    var t := [DigitChar(c / 10)];
    assert s[..1] == t && t[..0] == [];
    assert DigitsValue(t) == c / 10;
    assert DigitsValue(s) == (c / 10) * 10 + c % 10;
  }
}
