/** JavaScript's `Number.parseInt(s, 10)`, as the user service and controller
    call it to read a path identifier. The result is restricted to what
    parseInt can yield for radix 10: NaN or an integer. The steps follow
    section 19.2.5 of ECMAScript (parseInt): drop leading white space, read
    an optional sign, then the longest run of decimal digits; no digits
    gives NaN. */
module JsNumbers {

  /** A number produced by `parseInt`. */
  datatype ParsedInt = NaN | Int(value: int)

  /** ECMAScript white space and line terminators (StrWhiteSpaceChar). */
  predicate IsWhiteSpace(c: char) {
    || c == '\t' || c == '\n' || c == '\U{000B}' || c == '\U{000C}' || c == '\r'
    || c == ' ' || c == '\U{00A0}' || c == '\U{1680}'
    || ('\U{2000}' <= c <= '\U{200A}')
    || c == '\U{2028}' || c == '\U{2029}' || c == '\U{202F}' || c == '\U{205F}'
    || c == '\U{3000}' || c == '\U{FEFF}'
  }

  predicate IsDigit(c: char) {
    '0' <= c <= '9'
  }

  predicate AllDigits(d: string) {
    forall i :: 0 <= i < |d| ==> IsDigit(d[i])
  }

  predicate AllWhiteSpace(w: string) {
    forall i :: 0 <= i < |w| ==> IsWhiteSpace(w[i])
  }

  function DigitValue(c: char): (v: nat)
    requires IsDigit(c)
    ensures v < 10
  {
    (c as int) - ('0' as int)
  }

  function DigitChar(v: nat): (c: char)
    requires v < 10
    ensures IsDigit(c) && DigitValue(c) == v
  {
    (('0' as int) + v) as char
  }

  /** The input with its leading white space removed. */
  function TrimStart(s: string): (t: string)
    ensures |t| <= |s| && t == s[|s| - |t|..]
    ensures t == [] || !IsWhiteSpace(t[0])
    ensures AllWhiteSpace(s[..|s| - |t|])
  {
    if |s| > 0 && IsWhiteSpace(s[0]) then
      var t := TrimStart(s[1..]);
      assert s[..|s| - |t|] == [s[0]] + s[1..][..|s[1..]| - |t|];
      t
    else s
  }

  /** The longest prefix made of decimal digits. */
  function DigitPrefix(s: string): (d: string)
    ensures |d| <= |s| && d == s[..|d|]
    ensures AllDigits(d)
    ensures |d| == |s| || !IsDigit(s[|d|])
  {
    if |s| > 0 && IsDigit(s[0]) then [s[0]] + DigitPrefix(s[1..]) else []
  }

  /** The value of a run of decimal digits, most significant first. */
  function DigitsValue(d: string): nat
    requires AllDigits(d)
  {
    if |d| == 0 then 0 else DigitsValue(d[..|d| - 1]) * 10 + DigitValue(d[|d| - 1])
  }

  /** `Number.parseInt(s, 10)`. */
  function ParseInt(s: string): ParsedInt {
    var t := TrimStart(s);
    var negative := |t| > 0 && t[0] == '-';
    var unsigned := if |t| > 0 && (t[0] == '-' || t[0] == '+') then t[1..] else t;
    var digits := DigitPrefix(unsigned);
    if digits == [] then NaN
    else if negative then Int(0 - DigitsValue(digits))
    else Int(DigitsValue(digits))
  }

  /** The decimal rendering of a natural number, without leading zeros: the
      inverse direction of `DigitsValue`. */
  function Decimal(n: nat): (d: string)
    ensures |d| >= 1 && AllDigits(d)
    ensures DigitsValue(d) == n
    ensures |d| > 1 ==> d[0] != '0'
  {
    if n < 10 then [DigitChar(n)]
    else
      var front := Decimal(n / 10);
      var d := front + [DigitChar(n % 10)];
      assert d[..|d| - 1] == front;
      d
  }

  /** Leading white space is skipped up to the first other character. */
  lemma {:induction false} TrimStartSkips(w: string, x: string)
    requires AllWhiteSpace(w)
    requires x == [] || !IsWhiteSpace(x[0])
    ensures TrimStart(w + x) == x
    decreases |w|
  {
    if |w| > 0 {
      assert (w + x)[1..] == w[1..] + x;
      TrimStartSkips(w[1..], x);
    } else {
      assert w + x == x;
    }
  }

  /** A digit run stops exactly at the first non-digit. */
  lemma {:induction false} DigitPrefixStops(d: string, rest: string)
    requires AllDigits(d)
    requires rest == [] || !IsDigit(rest[0])
    ensures DigitPrefix(d + rest) == d
    decreases |d|
  {
    if |d| > 0 {
      assert (d + rest)[0] == d[0];
      assert (d + rest)[1..] == d[1..] + rest;
      DigitPrefixStops(d[1..], rest);
      assert [d[0]] + d[1..] == d;
    } else {
      assert d + rest == rest;
    }
  }

  /** Round trip: the decimal rendering of `n`, after any white space and
      before any tail that does not start with a digit, parses back to `n`. */
  lemma ParseIntOfDecimal(w: string, n: nat, rest: string)
    requires AllWhiteSpace(w)
    requires rest == [] || !IsDigit(rest[0])
    ensures ParseInt(w + Decimal(n) + rest) == Int(n)
  {
    var d := Decimal(n);
    var x := d + rest;
    assert x[0] == d[0] && IsDigit(x[0]);
    assert w + d + rest == w + x;
    TrimStartSkips(w, x);
    DigitPrefixStops(d, rest);
    ParseIntAfterDigit(w + x, x);
  }

  /** The same with a sign: `-` negates, `+` does not. */
  lemma ParseIntOfSignedDecimal(w: string, sign: char, n: nat, rest: string)
    requires AllWhiteSpace(w) && (sign == '-' || sign == '+')
    requires rest == [] || !IsDigit(rest[0])
    ensures ParseInt(w + [sign] + Decimal(n) + rest) == Int(if sign == '-' then 0 - n else n)
  {
    var d := Decimal(n);
    var x := d + rest;
    DigitPrefixStops(d, rest);
    var s := w + [sign] + d + rest;
    assert s == w + ([sign] + x);
    SignedSkips(w, sign, x);
    assert TrimStart(s) == [sign] + x;
    ParseIntAfterSign(s, sign, x);
    assert DigitsValue(DigitPrefix(x)) == n;
  }

  /** How `ParseInt` finishes when a sign follows the white space. */
  lemma ParseIntAfterSign(s: string, sign: char, unsigned: string)
    requires sign == '-' || sign == '+'
    requires TrimStart(s) == [sign] + unsigned
    requires DigitPrefix(unsigned) != []
    ensures var v := DigitsValue(DigitPrefix(unsigned));
            ParseInt(s) == if sign == '-' then Int(0 - v) else Int(v)
  {
    var t := TrimStart(s);
    assert t[0] == sign;
    assert t[1..] == unsigned;
  }

  /** How `ParseInt` finishes when a digit follows the white space. */
  lemma ParseIntAfterDigit(s: string, unsigned: string)
    requires TrimStart(s) == unsigned
    requires |unsigned| > 0 && IsDigit(unsigned[0])
    ensures ParseInt(s) == Int(DigitsValue(DigitPrefix(unsigned)))
  {
  }

  /** White space before a sign is skipped up to the sign. */
  lemma SignedSkips(w: string, sign: char, x: string)
    requires AllWhiteSpace(w) && (sign == '-' || sign == '+')
    ensures TrimStart(w + ([sign] + x)) == [sign] + x
  {
    TrimStartSkips(w, [sign] + x);
  }

  /** A string without any decimal digit parses to NaN. */
  lemma NoDigitIsNaN(s: string)
    requires forall i :: 0 <= i < |s| ==> !IsDigit(s[i])
    ensures ParseInt(s) == NaN
  {
    var t := TrimStart(s);
    var unsigned := if |t| > 0 && (t[0] == '-' || t[0] == '+') then t[1..] else t;
    var digits := DigitPrefix(unsigned);
    if |unsigned| > 0 {
      assert unsigned[0] == s[|s| - |unsigned|];
    }
    assert digits == [];
  }
}
