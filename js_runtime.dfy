/**
 * The pieces of the JavaScript runtime the source leans on: numbers that
 * may be NaN, `Number.parseInt(s, 10)`, `String(n)`, `Array.prototype.slice`
 * with its relative indices, and `Array.prototype.filter`.
 */
module JsRuntime {
  import opened Strings

  /** A JavaScript number as the source uses it: an integer or NaN. */
  datatype Num = Int(i: int) | NaN

  /** `a + b`: NaN absorbs. */
  function Add(a: Num, b: Num): (r: Num)
    ensures r.Int? <==> a.Int? && b.Int?
    ensures r.Int? ==> r.i == a.i + b.i
  {
    if a.Int? && b.Int? then Int(a.i + b.i) else NaN
  }

  predicate IsDigit(c: char) {
    '0' <= c <= '9'
  }

  function DigitValue(c: char): nat
    requires IsDigit(c)
  {
    c as int - '0' as int
  }

  function DigitChar(d: nat): (c: char)
    requires d < 10
    ensures IsDigit(c) && DigitValue(c) == d
  {
    ('0' as int + d) as char
  }

  /** The longest prefix of `s` made of decimal digits. */
  function DigitPrefix(s: string): (r: string)
    decreases |s|
    ensures r <= s
    ensures forall i :: 0 <= i < |r| ==> IsDigit(s[i])
    ensures |r| < |s| ==> !IsDigit(s[|r|])
  {
    if |s| > 0 && IsDigit(s[0]) then [s[0]] + DigitPrefix(s[1..]) else ""
  }

  /** The value of a string of decimal digits, most significant first. */
  function DigitsValue(d: string): nat
    requires forall i :: 0 <= i < |d| ==> IsDigit(d[i])
    decreases |d|
  {
    if |d| == 0 then 0 else 10 * DigitsValue(d[..|d| - 1]) + DigitValue(d[|d| - 1])
  }

  /**
   * `Number.parseInt(s, 10)`: leading white space is skipped, one optional
   * sign is read, then the longest run of digits; no digit at all gives NaN.
   */
  function ParseInt(s: string): Num {
    ParseSigned(TrimStart(s))
  }

  /** `parseInt` after the leading white space: an optional sign, then digits. */
  function ParseSigned(t: string): Num {
    if |t| > 0 && t[0] == '-' then ParseDigits(t[1..], true)
    else if |t| > 0 && t[0] == '+' then ParseDigits(t[1..], false)
    else ParseDigits(t, false)
  }

  /** The value of the leading digits of `body`, or NaN when there are none. */
  function ParseDigits(body: string, negative: bool): Num {
    var digits := DigitPrefix(body);
    if |digits| == 0 then NaN
    else if negative then Int(0 - DigitsValue(digits))
    else Int(DigitsValue(digits))
  }

  /** The decimal digits of `n`, most significant first, no leading zero. */
  function NatToString(n: nat): (r: string)
    decreases n
    ensures |r| > 0
    ensures forall i :: 0 <= i < |r| ==> IsDigit(r[i])
  {
    if n < 10 then [DigitChar(n)] else NatToString(n / 10) + [DigitChar(n % 10)]
  }

  /** `String(n)` for an integer or NaN. */
  function NumToString(n: Num): string {
    match n
    case NaN => "NaN"
    case Int(i) => if i < 0 then "-" + NatToString(-i) else NatToString(i)
  }

  lemma {:induction false} DigitsValueOfNatToString(n: nat)
    ensures DigitsValue(NatToString(n)) == n
    decreases n
  {
    var r := NatToString(n);
    if n >= 10 {
      DigitsValueOfNatToString(n / 10);
      assert r[..|r| - 1] == NatToString(n / 10);
    }
  }

  lemma DigitPrefixOfDigits(s: string)
    requires forall i :: 0 <= i < |s| ==> IsDigit(s[i])
    ensures DigitPrefix(s) == s
  {
    var r := DigitPrefix(s);
    assert |r| == |s|;
  }

  lemma ParseIntOfDigits(d: string)
    requires |d| > 0 && forall i :: 0 <= i < |d| ==> IsDigit(d[i])
    ensures ParseInt(d) == Int(DigitsValue(d))
  {
    assert IsDigit(d[0]);
    assert !IsWhitespace(d[0]) && d[0] != '-' && d[0] != '+';
    assert TrimStart(d) == d;
    assert ParseSigned(d) == ParseDigits(d, false);
    ParseDigitsOfDigits(d, false);
  }

  lemma ParseIntOfNegativeDigits(d: string)
    requires |d| > 0 && forall i :: 0 <= i < |d| ==> IsDigit(d[i])
    ensures ParseInt("-" + d) == Int(0 - DigitsValue(d))
  {
    var s := "-" + d;
    assert s[0] == '-' && s[1..] == d;
    assert TrimStart(s) == s by {
      assert !IsWhitespace('-');
    }
    assert ParseSigned(s) == ParseDigits(d, true);
    DigitPrefixOfDigits(d);
    ParseDigitsOfDigits(d, true);
  }

  /** The digits of an all-digit body are the body itself. */
  lemma ParseDigitsOfDigits(d: string, negative: bool)
    requires |d| > 0 && forall i :: 0 <= i < |d| ==> IsDigit(d[i])
    ensures ParseDigits(d, negative) == if negative then Int(0 - DigitsValue(d)) else Int(DigitsValue(d))
  {
    DigitPrefixOfDigits(d);
  }

  lemma ParseIntOfNaNText()
    ensures ParseInt("NaN") == NaN
  {
    var s := "NaN";
    assert !IsWhitespace(s[0]);
    assert TrimStart(s) == s;
    assert ParseSigned(s) == ParseDigits(s, false);
    assert !IsDigit(s[0]);
  }

  /**
   * `Number.parseInt(String(n), 10)` gives `n` back, NaN included: the
   * counter values that the store writes can be read back exactly.
   */
  lemma ParseIntOfToString(n: Num)
    ensures ParseInt(NumToString(n)) == n
  {
    match n
    case NaN =>
      ParseIntOfNaNText();
    case Int(i) =>
      if i < 0 {
        var m: nat := -i;
        var d := NatToString(m);
        assert NumToString(n) == "-" + d;
        ParseIntOfNegativeDigits(d);
        DigitsValueOfNatToString(m);
      } else {
        var m: nat := i;
        var d := NatToString(m);
        assert NumToString(n) == d;
        ParseIntOfDigits(d);
        DigitsValueOfNatToString(m);
      }
  }

  /**
   * How `slice` reads a relative index `k` into a sequence of length `n`:
   * negative counts from the end, and the result is clamped to 0..n.
   */
  function RelIndex(k: int, n: nat): (r: nat)
    ensures r <= n
    ensures 0 <= k <= n ==> r == k
    ensures k < 0 && 0 <= n + k ==> r == n + k
    ensures n + k < 0 ==> r == 0
    ensures k > n ==> r == n
  {
    if k < 0 then (if n + k < 0 then 0 else n + k) else if k > n then n else k
  }

  /** A number used as an array index: NaN reads as 0. */
  function IndexOfNum(k: Num): int {
    if k.Int? then k.i else 0
  }

  /** `s.slice(start)` */
  function SliceFrom<T>(s: seq<T>, start: Num): (r: seq<T>)
    ensures |r| <= |s| && r == s[|s| - |r|..]
  {
    s[RelIndex(IndexOfNum(start), |s|)..]
  }

  /** `s.slice(start, end)` */
  function SliceRange<T>(s: seq<T>, start: Num, end: Num): (r: seq<T>)
    ensures |r| <= |s|
  {
    var a := RelIndex(IndexOfNum(start), |s|);
    var b := RelIndex(IndexOfNum(end), |s|);
    if a < b then s[a..b] else []
  }

  /** `-n` on a JavaScript number. */
  function Negate(n: Num): (r: Num)
    ensures r.Int? == n.Int?
  {
    if n.Int? then Int(-n.i) else NaN
  }

  /** `s.filter(keep)`: the elements for which `keep` holds, in their order. */
  function Filter<T>(s: seq<T>, keep: T -> bool): (r: seq<T>)
    decreases |s|
    ensures |r| <= |s|
    ensures forall i :: 0 <= i < |r| ==> r[i] in s && keep(r[i])
    ensures forall i :: 0 <= i < |s| && keep(s[i]) ==> s[i] in r
  {
    if |s| == 0 then []
    else (if keep(s[0]) then [s[0]] else []) + Filter(s[1..], keep)
  }

  /** Filtering a concatenation filters each part: the order is kept. */
  lemma {:induction false} FilterAppend<T>(a: seq<T>, b: seq<T>, keep: T -> bool)
    ensures Filter(a + b, keep) == Filter(a, keep) + Filter(b, keep)
    decreases |a|
  {
    if |a| > 0 {
      assert (a + b)[1..] == a[1..] + b;
      FilterAppend(a[1..], b, keep);
    } else {
      assert a + b == b;
    }
  }

  /** Filtering twice with the same test changes nothing the second time. */
  lemma {:induction false} FilterIdempotent<T>(s: seq<T>, keep: T -> bool)
    ensures Filter(Filter(s, keep), keep) == Filter(s, keep)
    decreases |s|
  {
    if |s| > 0 {
      FilterIdempotent(s[1..], keep);
      var head := if keep(s[0]) then [s[0]] else [];
      FilterAppend(head, Filter(s[1..], keep), keep);
      if keep(s[0]) {
        assert Filter(head, keep) == [s[0]] + Filter([], keep);
      }
    }
  }
}
