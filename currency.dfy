/** South African currency formatting, `formatCurrency` of lib/utils.ts:
    "R", a space, the whole rand grouped by spaces, a comma, two cent
    digits, and a leading "-" for a negative amount. The amount is given
    in whole cents, so that `Math.floor` and `Math.round` are exact. */
module Currency {
  import opened Wrappers
  import opened Text
  import opened Grouping

  function Abs(x: int): nat { if x < 0 then -x else x }

  /** `formatCurrency(amount / 100)`. */
  function FormatCurrency(amount: int): string
  {
    var absAmount := Abs(amount);
    var wholeNumber := absAmount / 100;
    var decimal := absAmount % 100;
    var formattedWhole := InsertSeparators(NatToString(wholeNumber), ' ');
    var formattedDecimal := PadStart(NatToString(decimal), 2, '0');
    var result := "R " + formattedWhole + "," + formattedDecimal;
    if amount < 0 then "-" + result else result
  }

  /** The unsigned text: "R ", the whole rand, a comma, the cents. */
  function Layout(whole: string, cents: string): string
  {
    "R " + whole + "," + cents
  }

  /** A leading "-" for a negative amount. */
  function Signed(negative: bool, u: string): string
  {
    if negative then "-" + u else u
  }

  lemma LayoutParts(whole: string, cents: string)
    requires |cents| == 2
    ensures var u := Layout(whole, cents);
      |u| == |whole| + 5 && u[0] == 'R' && u[1] == ' ' && u[|u| - 3] == ','
      && u[2..|u| - 3] == whole && u[|u| - 2..] == cents
  {
    var u := Layout(whole, cents);
    assert u == ("R " + whole) + ("," + cents);
  }

  /** The layout of the output: sign, "R ", grouped whole rand, comma, two cent digits. */
  lemma FormatCurrencyLayout(amount: int)
    ensures FormatCurrency(amount) == Signed(amount < 0,
      Layout(GroupDigits(NatToString(Abs(amount) / 100), ' '), DigitPair(Abs(amount) % 100)))
  {
    var d := NatToString(Abs(amount) / 100);
    var c := Abs(amount) % 100;
    var cd := PadStart(NatToString(c), 2, '0');
    var g := InsertSeparators(d, ' ');
    assert FormatCurrency(amount) == Signed(amount < 0, Layout(g, cd));
    assert g == GroupDigits(d, ' ') by {
      InsertSeparatorsDigits(d, ' ');
    }
    assert cd == DigitPair(c) by {
      TwoDigitCents(c);
    }
  }

  /** The part of a formatted amount after the sign: "R " + whole + "," + cents. */
  function Unsigned(s: string): string
  {
    if |s| > 0 && s[0] == '-' then s[1..] else s
  }

  lemma UnsignedSigned(negative: bool, u: string)
    requires |u| > 0 && u[0] != '-'
    ensures Unsigned(Signed(negative, u)) == u
  {
    if negative {
      assert ("-" + u)[1..] == u;
    }
  }

  /** The pieces of the unsigned text for the decimal form `d` of the rand. */
  predicate GroupedLayout(u: string, d: string, cents: string)
  {
    |u| >= 6 && u[0] == 'R' && u[1] == ' ' && u[|u| - 3] == ','
    && GroupShape(u[2..|u| - 3], ' ') && Remove(u[2..|u| - 3], ' ') == d
    && u[|u| - 2..] == cents
  }

  lemma LayoutGroups(d: string, cents: string)
    requires AllDigits(d) && d != [] && |cents| == 2
    ensures GroupedLayout(Layout(GroupDigits(d, ' '), cents), d, cents)
  {
    var g := GroupDigits(d, ' ');
    assert |g| >= 1 && GroupShape(g, ' ') by {
      GroupDigitsShape(d, ' ');
    }
    assert Remove(g, ' ') == d by {
      RemoveGroupSeparators(d, ' ');
    }
    LayoutParts(g, cents);
  }

  /** The whole-rand part of the output is a leading group of one to three
      digits followed by space-separated groups of three, and without its
      spaces it is the plain decimal form of the whole rand; the cents are
      two digits. */
  lemma FormatCurrencyGroups(amount: int)
    ensures GroupedLayout(Unsigned(FormatCurrency(amount)),
      NatToString(Abs(amount) / 100), DigitPair(Abs(amount) % 100))
  {
    var d := NatToString(Abs(amount) / 100);
    var cd := DigitPair(Abs(amount) % 100);
    var u := Layout(GroupDigits(d, ' '), cd);
    assert Unsigned(FormatCurrency(amount)) == u by {
      FormatCurrencyLayout(amount);
      LayoutParts(GroupDigits(d, ' '), cd);
      UnsignedSigned(amount < 0, u);
    }
    LayoutGroups(d, cd);
  }

  /** Sign placement: a negative amount is the positive one with "-" before the "R". */
  lemma FormatNegative(x: int)
    requires x > 0
    ensures FormatCurrency(-x) == "-" + FormatCurrency(x)
  {
  }

  /** Reads an unsigned formatted amount back into cents. */
  function ParseAmount(u: string): Option<nat>
  {
    if |u| < 6 || u[0] != 'R' || u[1] != ' ' || u[|u| - 3] != ',' then None
    else
      var whole := Remove(u[2..|u| - 3], ' ');
      var cents := u[|u| - 2..];
      if whole == [] || !AllDigits(whole) || !AllDigits(cents) then None
      else Some(DigitsValue(whole) * 100 + DigitsValue(cents))
  }

  /** Reads a formatted amount back into cents; the inverse of FormatCurrency. */
  function ParseCurrency(s: string): Option<int>
  {
    var negative := |s| > 0 && s[0] == '-';
    match ParseAmount(Unsigned(s))
    case None => None
    case Some(v) => Some(if negative then -(v as int) else v as int)
  }

  /** ParseAmount reads the pieces of a well-formed unsigned text. */
  lemma ParseAmountParts(u: string, g: string, cd: string, d: string, c: nat)
    requires |u| >= 6 && u[0] == 'R' && u[1] == ' ' && u[|u| - 3] == ','
    requires u[2..|u| - 3] == g && u[|u| - 2..] == cd
    requires Remove(g, ' ') == d && AllDigits(d) && d != []
    requires AllDigits(cd) && DigitsValue(cd) == c
    ensures ParseAmount(u) == Some(DigitsValue(d) * 100 + c)
  {
  }

  lemma ParseLayout(g: string, d: string, c: nat)
    requires |g| >= 1 && Remove(g, ' ') == d && AllDigits(d) && d != [] && c < 100
    ensures ParseAmount(Layout(g, DigitPair(c))) == Some(DigitsValue(d) * 100 + c)
  {
    var cd := DigitPair(c);
    var u := Layout(g, cd);
    assert AllDigits(cd) && DigitsValue(cd) == c by {
      DigitPairValue(c);
    }
    assert |u| >= 6 && u[0] == 'R' && u[1] == ' ' && u[|u| - 3] == ','
      && u[2..|u| - 3] == g && u[|u| - 2..] == cd by {
      LayoutParts(g, cd);
    }
    ParseAmountParts(u, g, cd, d, c);
  }

  lemma ParseSigned(u: string, amount: int)
    requires |u| > 0 && u[0] != '-' && ParseAmount(u) == Some(Abs(amount))
    ensures ParseCurrency(Signed(amount < 0, u)) == Some(amount)
  {
    UnsignedSigned(amount < 0, u);
  }

  lemma ParseSignedParts(u: string, g: string, cd: string, d: string, c: nat, amount: int)
    requires |u| >= 6 && u[0] == 'R' && u[1] == ' ' && u[|u| - 3] == ','
    requires u[2..|u| - 3] == g && u[|u| - 2..] == cd
    requires Remove(g, ' ') == d && AllDigits(d) && d != []
    requires AllDigits(cd) && DigitsValue(cd) == c && DigitsValue(d) * 100 + c == Abs(amount)
    ensures ParseCurrency(Signed(amount < 0, u)) == Some(amount)
  {
    assert ParseAmount(u) == Some(Abs(amount)) by {
      ParseAmountParts(u, g, cd, d, c);
    }
    ParseSigned(u, amount);
  }

  lemma ParseSignedLayout(g: string, d: string, c: nat, amount: int)
    requires |g| >= 1 && Remove(g, ' ') == d && AllDigits(d) && d != [] && c < 100
    requires DigitsValue(d) * 100 + c == Abs(amount)
    ensures ParseCurrency(Signed(amount < 0, Layout(g, DigitPair(c)))) == Some(amount)
  {
    var cd := DigitPair(c);
    var u := Layout(g, cd);
    assert AllDigits(cd) && DigitsValue(cd) == c by {
      DigitPairValue(c);
    }
    assert |u| >= 6 && u[0] == 'R' && u[1] == ' ' && u[|u| - 3] == ','
      && u[2..|u| - 3] == g && u[|u| - 2..] == cd by {
      LayoutParts(g, cd);
    }
    ParseSignedParts(u, g, cd, d, c, amount);
  }

  lemma ParseFormatted(s: string, g: string, d: string, c: nat, amount: int)
    requires |g| >= 1 && Remove(g, ' ') == d && AllDigits(d) && d != [] && c < 100
    requires DigitsValue(d) * 100 + c == Abs(amount)
    requires s == Signed(amount < 0, Layout(g, DigitPair(c)))
    ensures ParseCurrency(s) == Some(amount)
  {
    ParseSignedLayout(g, d, c, amount);
  }

  /** Formatting loses nothing: the amount can be read back from its text. */
  lemma ParseFormatCurrency(amount: int)
    ensures ParseCurrency(FormatCurrency(amount)) == Some(amount)
  {
    var w := Abs(amount) / 100;
    var c := Abs(amount) % 100;
    var d := NatToString(w);
    var g := GroupDigits(d, ' ');
    assert FormatCurrency(amount) == Signed(amount < 0, Layout(g, DigitPair(c))) by {
      FormatCurrencyLayout(amount);
    }
    assert |g| >= 1 by {
      GroupDigitsShape(d, ' ');
    }
    assert Remove(g, ' ') == d by {
      RemoveGroupSeparators(d, ' ');
    }
    assert DigitsValue(d) * 100 + c == Abs(amount) by {
      DigitsValueOfNatToString(w);
    }
    ParseFormatted(FormatCurrency(amount), g, d, c, amount);
  }

  /** Two different amounts never print the same. */
  lemma FormatCurrencyInjective(a: int, b: int)
    requires FormatCurrency(a) == FormatCurrency(b)
    ensures a == b
  {
    ParseFormatCurrency(a);
    ParseFormatCurrency(b);
  }

  lemma NatToStringExamples()
    ensures NatToString(0) == "0" && NatToString(1000) == "1000" && NatToString(1234) == "1234"
    ensures NatToString(1000000) == "1000000" && NatToString(999999) == "999999"
  {
    assert NatToString(1) == "1" && NatToString(12) == "12" && NatToString(99) == "99";
    assert NatToString(10) == "10" && NatToString(100) == "100" && NatToString(123) == "123";
    assert NatToString(10000) == "10000" && NatToString(100000) == "100000";
    assert NatToString(999) == "999" && NatToString(9999) == "9999" && NatToString(99999) == "99999";
  }

  lemma GroupDigitsExamples()
    ensures GroupDigits("0", ' ') == "0"
    ensures GroupDigits("1000", ' ') == "1 000" && GroupDigits("1234", ' ') == "1 234"
    ensures GroupDigits("1000000", ' ') == "1 000 000" && GroupDigits("999999", ' ') == "999 999"
  {
    assert "1000"[..1] == "1" && "1000"[1..] == "000";
    assert "1234"[..1] == "1" && "1234"[1..] == "234";
    assert "1000000"[..4] == "1000" && "1000000"[4..] == "000";
    assert "999999"[..3] == "999" && "999999"[3..] == "999";
  }

  /** FormatCurrency of an amount whose parts are known. */
  lemma FormatAt(amount: int, whole: string, cents: string)
    requires NatToString(Abs(amount) / 100) == whole
    requires DigitPair(Abs(amount) % 100) == cents
    ensures FormatCurrency(amount) == Signed(amount < 0, Layout(GroupDigits(whole, ' '), cents))
  {
    FormatCurrencyLayout(amount);
  }

  // The outputs that lib/utils.test.ts expects, one lemma each, with the
  // amount in cents.

  lemma FormatThousand()
    ensures FormatCurrency(100000) == "R 1 000,00"
  {
    assert Signed(false, Layout("1 000", "00")) == "R 1 000,00";
    assert NatToString(Abs(100000) / 100) == "1000" by {
      assert Abs(100000) / 100 == 1000;
      NatToStringExamples();
    }
    assert DigitPair(Abs(100000) % 100) == "00";
    assert GroupDigits("1000", ' ') == "1 000" by {
      GroupDigitsExamples();
    }
    FormatAt(100000, "1000", "00");
  }

  lemma FormatWithCents()
    ensures FormatCurrency(123456) == "R 1 234,56"
  {
    assert Signed(false, Layout("1 234", "56")) == "R 1 234,56";
    assert NatToString(Abs(123456) / 100) == "1234" by {
      assert Abs(123456) / 100 == 1234;
      NatToStringExamples();
    }
    assert DigitPair(Abs(123456) % 100) == "56";
    assert GroupDigits("1234", ' ') == "1 234" by {
      GroupDigitsExamples();
    }
    FormatAt(123456, "1234", "56");
  }

  lemma FormatZero()
    ensures FormatCurrency(0) == "R 0,00"
  {
    assert Signed(false, Layout("0", "00")) == "R 0,00";
    assert NatToString(Abs(0) / 100) == "0" by {
      assert Abs(0) / 100 == 0;
      NatToStringExamples();
    }
    assert DigitPair(Abs(0) % 100) == "00";
    assert GroupDigits("0", ' ') == "0" by {
      GroupDigitsExamples();
    }
    FormatAt(0, "0", "00");
  }

  lemma FormatMinusThousand()
    ensures FormatCurrency(-100000) == "-R 1 000,00"
  {
    assert Signed(true, Layout("1 000", "00")) == "-R 1 000,00";
    assert NatToString(Abs(-100000) / 100) == "1000" by {
      assert Abs(-100000) / 100 == 1000;
      NatToStringExamples();
    }
    assert DigitPair(Abs(-100000) % 100) == "00";
    assert GroupDigits("1000", ' ') == "1 000" by {
      GroupDigitsExamples();
    }
    FormatAt(-100000, "1000", "00");
  }

  lemma FormatMillion()
    ensures FormatCurrency(100000000) == "R 1 000 000,00"
  {
    assert Signed(false, Layout("1 000 000", "00")) == "R 1 000 000,00";
    assert NatToString(Abs(100000000) / 100) == "1000000" by {
      assert Abs(100000000) / 100 == 1000000;
      NatToStringExamples();
    }
    assert DigitPair(Abs(100000000) % 100) == "00";
    assert GroupDigits("1000000", ' ') == "1 000 000" by {
      GroupDigitsExamples();
    }
    FormatAt(100000000, "1000000", "00");
  }

  lemma FormatOneCent()
    ensures FormatCurrency(1) == "R 0,01"
  {
    assert Signed(false, Layout("0", "01")) == "R 0,01";
    assert NatToString(Abs(1) / 100) == "0" by {
      assert Abs(1) / 100 == 0;
      NatToStringExamples();
    }
    assert DigitPair(Abs(1) % 100) == "01";
    assert GroupDigits("0", ' ') == "0" by {
      GroupDigitsExamples();
    }
    FormatAt(1, "0", "01");
  }

  lemma FormatNearMillion()
    ensures FormatCurrency(99999999) == "R 999 999,99"
  {
    assert Signed(false, Layout("999 999", "99")) == "R 999 999,99";
    assert NatToString(Abs(99999999) / 100) == "999999" by {
      assert Abs(99999999) / 100 == 999999;
      NatToStringExamples();
    }
    assert DigitPair(Abs(99999999) % 100) == "99";
    assert GroupDigits("999999", ' ') == "999 999" by {
      GroupDigitsExamples();
    }
    FormatAt(99999999, "999999", "99");
  }
}
