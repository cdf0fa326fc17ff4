/** Thousands grouping as both currency formatters do it:
    `s.replace(/\B(?=(\d{3})+(?!\d))/g, sep)`, a global replace of a
    zero-width pattern that inserts `sep` at every position where it matches. */
module Grouping {
  import opened Text

  /** `\w` in a JavaScript regular expression. */
  predicate IsWordChar(c: char) { IsDigit(c) || 'a' <= c <= 'z' || 'A' <= c <= 'Z' || c == '_' }

  /** Length of the run of digits that starts at position p. */
  function DigitRun(s: string, p: nat): (n: nat)
    requires p <= |s|
    ensures p + n <= |s|
    decreases |s| - p
  {
    if p < |s| && IsDigit(s[p]) then 1 + DigitRun(s, p + 1) else 0
  }

  /** The pattern matches at position p: `\B` (both neighbours word
      characters, or both not) and the lookahead `(\d{3})+(?!\d)` (the
      digits from p on come in a positive multiple of three). */
  predicate SeparatorAt(s: string, p: nat)
    requires p <= |s|
  {
    0 < p < |s| && IsWordChar(s[p - 1]) == IsWordChar(s[p])
    && DigitRun(s, p) >= 3 && DigitRun(s, p) % 3 == 0
  }

  /** Output of the replace for the characters at positions [p, q). */
  function ReplaceFrom(s: string, sep: char, p: nat, q: nat): string
    requires p <= q <= |s|
    decreases q - p
  {
    if p == q then []
    else (if SeparatorAt(s, p) then [sep, s[p]] else [s[p]]) + ReplaceFrom(s, sep, p + 1, q)
  }

  function InsertSeparators(s: string, sep: char): string
  {
    ReplaceFrom(s, sep, 0, |s|)
  }

  /** Reference grouping of a digit string from the right: groups of three,
      the leftmost group holding what remains. */
  function GroupDigits(d: string, sep: char): string
    decreases |d|
  {
    if |d| <= 3 then d else GroupDigits(d[..|d| - 3], sep) + [sep] + d[|d| - 3..]
  }

  /** A leading group of one to three digits followed by groups of exactly
      three, each preceded by one separator. */
  predicate GroupShape(s: string, sep: char)
    decreases |s|
  {
    (1 <= |s| <= 3 && AllDigits(s))
    || (|s| >= 5 && s[|s| - 4] == sep && AllDigits(s[|s| - 3..]) && GroupShape(s[..|s| - 4], sep))
  }

  /** s with every occurrence of c removed. */
  function Remove(s: string, c: char): string
  {
    if s == [] then [] else (if s[0] == c then [] else [s[0]]) + Remove(s[1..], c)
  }

  lemma {:induction false} RemoveConcat(a: string, b: string, c: char)
    ensures Remove(a + b, c) == Remove(a, c) + Remove(b, c)
  {
    if a == [] {
      assert a + b == b;
    } else {
      var ab := a + b;
      assert ab[0] == a[0] && ab[1..] == a[1..] + b;
      RemoveConcat(a[1..], b, c);
      var h := if a[0] == c then [] else [a[0]];
      assert Remove(ab, c) == h + Remove(a[1..] + b, c);
      assert Remove(a, c) == h + Remove(a[1..], c);
    }
  }

  lemma {:induction false} RemoveAbsent(s: string, c: char)
    requires AllDigits(s) && !IsDigit(c)
    ensures Remove(s, c) == s
  {
    if s != [] {
      RemoveAbsent(s[1..], c);
    }
  }

  lemma {:induction false} ReplaceSplit(s: string, sep: char, p: nat, q: nat, r: nat)
    requires p <= q <= r <= |s|
    ensures ReplaceFrom(s, sep, p, r) == ReplaceFrom(s, sep, p, q) + ReplaceFrom(s, sep, q, r)
    decreases q - p
  {
    if p < q {
      ReplaceSplit(s, sep, p + 1, q, r);
    }
  }

  /** Where the pattern matches nowhere, the replace leaves the text as it is. */
  lemma {:induction false} ReplaceUntouched(s: string, sep: char, p: nat, q: nat)
    requires p <= q <= |s|
    requires forall i :: p <= i < q ==> !SeparatorAt(s, i)
    ensures ReplaceFrom(s, sep, p, q) == s[p..q]
    decreases q - p
  {
    if p < q {
      ReplaceUntouched(s, sep, p + 1, q);
      assert s[p..q] == [s[p]] + s[p + 1..q];
    }
  }

  lemma {:induction false} RunLength(s: string, i: nat, e: nat)
    requires i <= e <= |s|
    requires forall k :: i <= k < e ==> IsDigit(s[k])
    requires e == |s| || !IsDigit(s[e])
    ensures DigitRun(s, i) == e - i
    decreases e - i
  {
    if i < e {
      RunLength(s, i + 1, e);
    }
  }

  /** Strictly inside a maximal run of digits ending at e, the pattern
      matches exactly where a positive multiple of three digits follows. */
  lemma SeparatorInRun(s: string, p: nat, i: nat, e: nat)
    requires p < i < e <= |s|
    requires forall k :: p <= k < e ==> IsDigit(s[k])
    requires e == |s| || !IsDigit(s[e])
    ensures SeparatorAt(s, i) <==> (e - i) % 3 == 0
  {
    RunLength(s, i, e);
    assert IsDigit(s[i - 1]) && IsDigit(s[i]);
  }

  /** The last three digits of a group boundary come out as a separator and the three digits. */
  lemma LastGroup(s: string, sep: char, p: nat, q: nat, e: nat)
    requires p + 3 < q <= e <= |s|
    requires forall k :: p <= k < e ==> IsDigit(s[k])
    requires e == |s| || !IsDigit(s[e])
    requires (e - q) % 3 == 0
    ensures ReplaceFrom(s, sep, q - 3, q) == [sep] + s[q - 3..q]
  {
    SeparatorInRun(s, p, q - 3, e);
    SeparatorInRun(s, p, q - 2, e);
    SeparatorInRun(s, p, q - 1, e);
    assert ReplaceFrom(s, sep, q - 1, q) == [s[q - 1]];
    assert ReplaceFrom(s, sep, q - 2, q) == [s[q - 2], s[q - 1]];
  }

  lemma GroupDigitsStep(s: string, sep: char, p: nat, q: nat)
    requires p + 3 < q <= |s|
    ensures GroupDigits(s[p..q], sep) == GroupDigits(s[p..q - 3], sep) + [sep] + s[q - 3..q]
  {
    var d := s[p..q];
    assert d[..|d| - 3] == s[p..q - 3];
    assert d[|d| - 3..] == s[q - 3..q];
  }

  /** A leading group of at most three digits is left as it is. */
  lemma ShortRun(s: string, sep: char, p: nat, q: nat, e: nat)
    requires p < q <= e <= |s| && q - p <= 3
    requires forall k :: p <= k < e ==> IsDigit(s[k])
    requires e == |s| || !IsDigit(s[e])
    requires p == 0 || !IsWordChar(s[p - 1])
    requires (e - q) % 3 == 0
    ensures ReplaceFrom(s, sep, p, q) == s[p..q]
  {
    forall i | p <= i < q ensures !SeparatorAt(s, i) {
      if i > p {
        SeparatorInRun(s, p, i, e);
      } else if p > 0 {
        assert IsWordChar(s[p]);
      }
    }
    ReplaceUntouched(s, sep, p, q);
  }

  /** The replace over [p, q) from the replace over [p, q - 3) and the last group. */
  lemma CombineGroups(s: string, sep: char, p: nat, q: nat)
    requires p + 3 < q <= |s|
    requires ReplaceFrom(s, sep, p, q - 3) == GroupDigits(s[p..q - 3], sep)
    requires ReplaceFrom(s, sep, q - 3, q) == [sep] + s[q - 3..q]
    ensures ReplaceFrom(s, sep, p, q) == GroupDigits(s[p..q], sep)
  {
    var g := GroupDigits(s[p..q - 3], sep);
    var t := s[q - 3..q];
    assert GroupDigits(s[p..q], sep) == g + ([sep] + t) by {
      GroupDigitsStep(s, sep, p, q);
      assert g + [sep] + t == g + ([sep] + t);
    }
    ReplaceSplit(s, sep, p, q - 3, q);
  }

  /** Inside a maximal run of digits [p, e), the replace over [p, q) groups
      s[p..q] by threes counted from e. */
  lemma {:induction false} ReplaceDigitRun(s: string, sep: char, p: nat, q: nat, e: nat)
    requires p < q <= e <= |s|
    requires forall k :: p <= k < e ==> IsDigit(s[k])
    requires e == |s| || !IsDigit(s[e])
    requires p == 0 || !IsWordChar(s[p - 1])
    requires (e - q) % 3 == 0
    ensures ReplaceFrom(s, sep, p, q) == GroupDigits(s[p..q], sep)
    decreases q - p
  {
    if q - p <= 3 {
      ShortRun(s, sep, p, q, e);
    } else {
      assert (e - (q - 3)) % 3 == 0;
      ReplaceDigitRun(s, sep, p, q - 3, e);
      LastGroup(s, sep, p, q, e);
      CombineGroups(s, sep, p, q);
    }
  }

  /** On a digit string the pattern replace is exactly the grouping by threes. */
  lemma InsertSeparatorsDigits(d: string, sep: char)
    requires AllDigits(d) && d != []
    ensures InsertSeparators(d, sep) == GroupDigits(d, sep)
  {
    ReplaceDigitRun(d, sep, 0, |d|, |d|);
    assert d[0..|d|] == d;
  }

  /** Grouping produces the shape: a group of one to three digits, then
      groups of three. */
  lemma {:induction false} GroupDigitsShape(d: string, sep: char)
    requires AllDigits(d) && d != []
    ensures GroupShape(GroupDigits(d, sep), sep)
  {
    if |d| > 3 {
      var l := d[..|d| - 3];
      GroupDigitsShape(l, sep);
      var g := GroupDigits(d, sep);
      var gl := GroupDigits(l, sep);
      assert g == gl + [sep] + d[|d| - 3..];
      assert g[..|g| - 4] == gl;
      assert g[|g| - 3..] == d[|d| - 3..];
    }
  }

  /** Removing the separators gives back the digit string. */
  lemma {:induction false} RemoveGroupSeparators(d: string, sep: char)
    requires AllDigits(d) && !IsDigit(sep)
    ensures Remove(GroupDigits(d, sep), sep) == d
  {
    if |d| <= 3 {
      RemoveAbsent(d, sep);
    } else {
      var l := d[..|d| - 3];
      var t := d[|d| - 3..];
      var gl := GroupDigits(l, sep);
      assert GroupDigits(d, sep) == (gl + [sep]) + t;
      assert Remove(gl, sep) == l by {
        RemoveGroupSeparators(l, sep);
      }
      assert Remove(t, sep) == t by {
        RemoveAbsent(t, sep);
      }
      assert Remove([sep], sep) == [];
      assert Remove((gl + [sep]) + t, sep) == Remove(gl, sep) + Remove([sep], sep) + Remove(t, sep) by {
        RemoveConcat(gl + [sep], t, sep);
        RemoveConcat(gl, [sep], sep);
      }
      assert l + [] + t == d;
    }
  }

}
