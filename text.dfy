/** The string operations of JavaScript that the pages rely on, over `seq<char>`:
    digit extraction and decimal conversion (`replace(/[^\d]/g, '')`, `parseInt`,
    `toString`), `toLowerCase`, `includes`, `trim`, `replace` of one character and
    `split(sep)[0]`. */
module Text {
  import Seqs

  predicate IsDigit(c: char) { '0' <= c <= '9' }

  function DigitValue(c: char): (d: nat)
    requires IsDigit(c)
    ensures d < 10
  {
    (c as int) - ('0' as int)
  }

  function DigitChar(d: nat): (c: char)
    requires d < 10
    ensures IsDigit(c) && DigitValue(c) == d
  {
    (('0' as int) + d) as char
  }

  predicate AllDigits(s: string) { forall c :: c in s ==> IsDigit(c) }

  /** `s.replace(/[^\d]/g, '')`: the ASCII digits of `s`, in their original order
      (without the `u` flag, `\d` matches only `0`-`9`). That no digit is dropped is
      `DigitsKeepsEveryDigit`; `DigitsAppend`, `DigitsOfDigits` and `DigitsOfNonDigits`
      compute it piecewise. */
  function Digits(s: string): (r: string)
    ensures AllDigits(r) && |r| <= |s|
    ensures Seqs.Subsequence(r, s)
  {
    Seqs.FilterIsSubsequence(s, IsDigit);
    Seqs.Filter(s, IsDigit)
  }

  /** Every digit occurs in the digit string as often as in `s`, and nothing else does. */
  lemma DigitsKeepsEveryDigit(s: string, c: char)
    ensures multiset(Digits(s))[c] == if IsDigit(c) then multiset(s)[c] else 0
  {
    Seqs.FilterMultiplicity(s, IsDigit, c);
  }

  /** The number a non-empty or empty run of decimal digits denotes (0 for no digits). */
  function DecimalValue(ds: string): nat
    requires AllDigits(ds)
  {
    if ds == [] then 0
    else DecimalValue(ds[..|ds| - 1]) * 10 + DigitValue(ds[|ds| - 1])
  }

  /** `n.toString()` for a non-negative integer: its shortest decimal numeral. */
  function NatToString(n: nat): (r: string)
    ensures r != [] && AllDigits(r)
    ensures r[0] == '0' ==> n == 0
  {
    if n < 10 then [DigitChar(n)]
    else NatToString(n / 10) + [DigitChar(n % 10)]
  }

  /** `i.toString()` for any integer: a minus sign before the magnitude when negative. */
  function IntToString(i: int): (r: string)
    ensures i >= 0 ==> r == NatToString(i)
    ensures i < 0 ==> r == "-" + NatToString(-i)
  {
    if i < 0 then "-" + NatToString(-i) else NatToString(i)
  }

  /** `(n / unit).toFixed(1)` for a non-negative `n`: the quotient rounded to the
      nearest tenth, exact ties upward, written as whole part, point and tenths digit. */
  function Fixed1(n: nat, unit: nat): (r: string)
    requires unit > 0
    ensures |r| >= 3 && r[|r| - 2] == '.' && IsDigit(r[0])
  {
    var tenths := (10 * n + unit / 2) / unit;
    NatToString(tenths / 10) + "." + [DigitChar(tenths % 10)]
  }

  /** The digits of `Fixed1(n, unit)`, read as one number, count the tenths of
      `n / unit` to within half a tenth. */
  lemma Fixed1Tenths(n: nat, unit: nat)
    requires unit > 0 && unit % 2 == 0
    ensures var t := DecimalValue(Digits(Fixed1(n, unit)));
            unit * t - unit / 2 <= 10 * n < unit * t + unit / 2
  {
    var tenths := (10 * n + unit / 2) / unit;
    assert Fixed1(n, unit) == NatToString(tenths / 10) + "." + [DigitChar(tenths % 10)];
    TenthsNumeralValue(tenths);
    DivisionBounds(10 * n + unit / 2, unit);
  }

  /** Dropping the point of a one-decimal numeral leaves the numeral of its tenths. */
  lemma TenthsNumeralValue(t: nat)
    ensures DecimalValue(Digits(NatToString(t / 10) + "." + [DigitChar(t % 10)])) == t
  {
    var whole := NatToString(t / 10);
    var d := DigitChar(t % 10);
    assert whole + "." + [d] == whole + ("." + [d]);
    DigitsAppend(whole, "." + [d]);
    DigitsAppend(".", [d]);
    DigitsOfDigits(whole);
    DigitsOfDigits([d]);
    DigitsOfNonDigits(".");
    var ds := whole + [d];
    assert ds[..|ds| - 1] == whole;
    DecimalValueOfNatToString(t / 10);
  }

  lemma DivisionBounds(a: nat, b: nat)
    requires b > 0
    ensures b * (a / b) <= a < b * (a / b) + b
  {
  }

  /** Reading back the numeral of `n` gives `n`. */
  lemma {:induction false} DecimalValueOfNatToString(n: nat)
    ensures DecimalValue(NatToString(n)) == n
  {
    if n >= 10 {
      var front := NatToString(n / 10);
      var r := front + [DigitChar(n % 10)];
      assert r[..|r| - 1] == front;
      DecimalValueOfNatToString(n / 10);
    }
  }

  /** Extracting digits commutes with concatenation. */
  lemma DigitsAppend(a: string, b: string)
    ensures Digits(a + b) == Digits(a) + Digits(b)
  {
    Seqs.FilterAppend(a, b, IsDigit);
  }

  /** A string made only of digits is its own digit string. */
  lemma DigitsOfDigits(s: string)
    requires AllDigits(s)
    ensures Digits(s) == s
  {
    Seqs.FilterAllPass(s, IsDigit);
  }

  /** A string without digits has no digit string. */
  lemma DigitsOfNonDigits(s: string)
    requires forall i :: 0 <= i < |s| ==> !IsDigit(s[i])
    ensures Digits(s) == []
  {
    Seqs.FilterNonePass(s, IsDigit);
  }

  /** `toLowerCase` on one character: ASCII upper-case letters become lower-case. */
  function LowerChar(c: char): char
  {
    if 'A' <= c <= 'Z' then (c as int + 32) as char else c
  }

  /** `s.toLowerCase()`, character by character. */
  function Lower(s: string): string
  {
    if s == [] then [] else [LowerChar(s[0])] + Lower(s[1..])
  }

  predicate StartsWith(s: string, prefix: string)
  {
    |prefix| <= |s| && s[..|prefix|] == prefix
  }

  /** `hay.includes(needle)`: `needle` occurs somewhere in `hay`, as a contiguous run. */
  predicate Contains(hay: string, needle: string)
    decreases |hay|
  {
    StartsWith(hay, needle) || (hay != [] && Contains(hay[1..], needle))
  }

  /** `Contains` holds exactly when `needle` occurs at some offset of `hay`. */
  lemma {:induction false} ContainsIffOccurs(hay: string, needle: string)
    ensures Contains(hay, needle) <==>
            exists i :: 0 <= i <= |hay| && StartsWith(hay[i..], needle)
    decreases |hay|
  {
    if hay != [] {
      ContainsIffOccurs(hay[1..], needle);
      if exists i :: 0 <= i <= |hay| && StartsWith(hay[i..], needle) {
        var i :| 0 <= i <= |hay| && StartsWith(hay[i..], needle);
        if i > 0 {
          assert hay[1..][i - 1..] == hay[i..];
        }
      }
      if StartsWith(hay, needle) {
        assert hay[0..] == hay;
      }
      if Contains(hay[1..], needle) {
        var i :| 0 <= i <= |hay[1..]| && StartsWith(hay[1..][i..], needle);
        assert hay[i + 1..] == hay[1..][i..];
        assert StartsWith(hay[i + 1..], needle);
      }
    } else {
      assert hay[0..] == hay;
    }
  }

  /** Every string contains the empty string. */
  lemma ContainsEmpty(hay: string)
    ensures Contains(hay, "")
  {
  }

  /** The characters that `String.prototype.trim` strips: white space and line terminators. */
  predicate IsJsWhitespace(c: char)
  {
    c == ' ' || c == '\t' || c == '\n' || c == '\U{000B}' || c == '\U{000C}' || c == '\r'
    || c == '\U{00A0}' || c == '\U{1680}' || ('\U{2000}' <= c <= '\U{200A}')
    || c == '\U{2028}' || c == '\U{2029}' || c == '\U{202F}' || c == '\U{205F}'
    || c == '\U{3000}' || c == '\U{FEFF}'
  }

  predicate IsBlank(s: string)
  {
    forall i :: 0 <= i < |s| ==> IsJsWhitespace(s[i])
  }

  /** Drops leading white space; what is left is empty or starts with a visible character. */
  function TrimStart(s: string): (r: string)
    ensures r == [] || !IsJsWhitespace(r[0])
    ensures |r| <= |s| && r == s[|s| - |r|..]
  {
    if s != [] && IsJsWhitespace(s[0]) then TrimStart(s[1..]) else s
  }

  /** Drops trailing white space; what is left is empty or ends with a visible character. */
  function TrimEnd(s: string): (r: string)
    ensures r == [] || !IsJsWhitespace(r[|r| - 1])
    ensures |r| <= |s| && r == s[..|r|]
  {
    if s != [] && IsJsWhitespace(s[|s| - 1]) then TrimEnd(s[..|s| - 1]) else s
  }

  /** `s.trim()`. */
  function Trim(s: string): string
  {
    TrimEnd(TrimStart(s))
  }

  lemma {:induction false} TrimStartEmptyIffBlank(s: string)
    ensures TrimStart(s) == [] <==> IsBlank(s)
  {
    if s != [] && IsJsWhitespace(s[0]) {
      TrimStartEmptyIffBlank(s[1..]);
      assert IsBlank(s[1..]) ==> IsBlank(s) by {
        if IsBlank(s[1..]) {
          forall i | 0 <= i < |s| ensures IsJsWhitespace(s[i]) {
            if i > 0 { assert s[i] == s[1..][i - 1]; }
          }
        }
      }
    }
  }

  /** `s.trim()` is falsy (empty) exactly when every character of `s` is white space. */
  lemma TrimEmptyIffBlank(s: string)
    ensures Trim(s) == [] <==> IsBlank(s)
  {
    TrimStartEmptyIffBlank(s);
    var t := TrimStart(s);
    assert TrimEnd(t) == [] ==> t == [] by {
      if t != [] {
        assert !IsJsWhitespace(t[0]);
        assert TrimEnd(t) == t[..|TrimEnd(t)|];
        if TrimEnd(t) == [] { TrimEndOfVisibleStart(t); }
      }
    }
  }

  lemma {:induction false} TrimEndOfVisibleStart(t: string)
    requires t != [] && !IsJsWhitespace(t[0])
    ensures TrimEnd(t) != []
    decreases |t|
  {
    if IsJsWhitespace(t[|t| - 1]) {
      TrimEndOfVisibleStart(t[..|t| - 1]);
    }
  }

  /** `s.replace(c, '')` with a one-character string pattern: only the FIRST
      occurrence of `c` is removed (see `RemoveFirstAt`); a string without `c`
      is returned as it is. */
  function RemoveFirst(s: string, c: char): (r: string)
    ensures c !in s ==> r == s
    ensures c in s ==> |r| == |s| - 1
  {
    if s == [] then []
    else if s[0] == c then s[1..]
    else [s[0]] + RemoveFirst(s[1..], c)
  }

  /** When the first `c` of `s` is at index `k`, removing it leaves exactly the
      characters before and after index `k`. */
  lemma {:induction false} RemoveFirstAt(s: string, c: char, k: nat)
    requires k < |s| && s[k] == c && c !in s[..k]
    ensures RemoveFirst(s, c) == s[..k] + s[k + 1..]
  {
    if k > 0 {
      assert s[0] in s[..k];
      assert s[1..][..k - 1] == s[1..k];
      RemoveFirstAt(s[1..], c, k - 1);
      assert s[1..][k..] == s[k + 1..];
      assert s[..k] == [s[0]] + s[1..k];
    }
  }

  /** `s.split(sep)[0]`: the longest prefix of `s` that does not contain `sep`. */
  function PrefixBefore(s: string, sep: char): (r: string)
    ensures sep !in r
    ensures |r| <= |s| && r == s[..|r|]
    ensures |r| < |s| ==> s[|r|] == sep
  {
    if s == [] || s[0] == sep then []
    else [s[0]] + PrefixBefore(s[1..], sep)
  }
}
