/**
 * The integer <-> text conversions the client performs: the template literal
 * `${n}` and `n.toString()`, `parseInt(text, 10)`, and `Number(text)` on a
 * stored id.
 */
module Numbers {
  import opened Common

  /** A JavaScript number restricted to the integers, plus `NaN`. */
  datatype Number = Finite(value: int) | NaN

  predicate IsDigit(c: char)
  {
    '0' <= c <= '9'
  }

  predicate AllDigits(s: string)
  {
    forall i :: 0 <= i < |s| ==> IsDigit(s[i])
  }

  function DigitChar(d: int): (c: char)
    requires 0 <= d < 10
    ensures IsDigit(c)
  {
    ('0' as int + d) as char
  }

  function DigitValue(c: char): (d: int)
    requires IsDigit(c)
    ensures 0 <= d < 10 && DigitChar(d) == c
  {
    c as int - '0' as int
  }

  /** Decimal text of a natural number, most significant digit first, no leading zeros. */
  function NatString(n: nat): (s: string)
    ensures |s| > 0 && AllDigits(s)
    ensures n > 0 ==> s[0] != '0'
    decreases n
  {
    if n < 10 then [DigitChar(n)] else NatString(n / 10) + [DigitChar(n % 10)]
  }

  /** `${n}` and `n.toString()` for an integer `n`. */
  function IntString(n: int): (s: string)
    ensures |s| > 0
    ensures s[0] == '-' <==> n < 0
  {
    if n < 0 then "-" + NatString(-n) else NatString(n)
  }

  /** Value of a string of decimal digits, most significant first. */
  function DigitsValue(s: string): nat
    requires AllDigits(s)
  {
    if s == [] then 0 else DigitsValue(s[..|s| - 1]) * 10 + DigitValue(s[|s| - 1])
  }

  /** Length of the longest prefix of `s` made of decimal digits. */
  function DigitRun(s: string): (k: nat)
    ensures k <= |s|
    ensures AllDigits(s[..k])
    ensures k < |s| ==> !IsDigit(s[k])
  {
    if s == [] || !IsDigit(s[0]) then 0
    else
      var k := 1 + DigitRun(s[1..]);
      assert s[..k] == [s[0]] + s[1..][..k - 1];
      k
  }

  /** The white space `parseInt` skips before the number (ASCII subset). */
  predicate IsSpace(c: char)
  {
    c == ' ' || c == '\t' || c == '\n' || c == '\r' || c == '\U{0B}' || c == '\U{0C}'
  }

  function TrimStart(s: string): (t: string)
    ensures |t| <= |s|
  {
    if s != [] && IsSpace(s[0]) then TrimStart(s[1..]) else s
  }

  /**
   * `parseInt(s, 10)`: skip leading white space, read an optional sign, then
   * the longest run of decimal digits; no digit at all gives `NaN`, and
   * whatever follows the digits is ignored.
   */
  function ParseInt(s: string): (r: Number)
    ensures s == "" ==> r == NaN
    ensures s != "" && IsDigit(s[0]) ==> r.Finite? && r.value >= 0
  {
    var t := TrimStart(s);
    var body := Unsigned(t);
    var k := DigitRun(body);
    if k == 0 then NaN
    else
      var v: int := DigitsValue(body[..k]);
      Finite(if t != [] && t[0] == '-' then -v else v)
  }

  /** The text after an optional leading `+` or `-`. */
  function Unsigned(t: string): (b: string)
    ensures b == t || (t != [] && (t[0] == '+' || t[0] == '-') && b == t[1..])
  {
    if t != [] && (t[0] == '+' || t[0] == '-') then t[1..] else t
  }

  /**
   * `Number(v)` for a stored value: `null` and `''` give 0, a run of digits
   * with an optional leading `+` or `-` gives its value, and anything else
   * is `NaN`.
   */
  function ToNumber(v: Option<string>): (r: Number)
    ensures v.None? || v == Some("") ==> r == Finite(0)
    ensures v.Some? && AllDigits(v.value) && v.value != [] ==> r == Finite(DigitsValue(v.value))
    ensures forall d :: d != [] && AllDigits(d) && v == Some("+" + d) ==> r == Finite(DigitsValue(d))
    ensures forall d :: d != [] && AllDigits(d) && v == Some("-" + d) ==> r == Finite(-(DigitsValue(d) as int))
    ensures v.Some? && v.value != [] && !IsDigit(v.value[0]) && v.value[0] != '+' && v.value[0] != '-' ==> r == NaN
  {
    match v
    case None => Finite(0)
    case Some(s) =>
      if s == "" then Finite(0)
      else if s[0] == '-' && |s| > 1 && AllDigits(s[1..]) then Finite(-(DigitsValue(s[1..]) as int))
      else if s[0] == '+' && |s| > 1 && AllDigits(s[1..]) then Finite(DigitsValue(s[1..]))
      else if AllDigits(s) then Finite(DigitsValue(s))
      else NaN
  }

  lemma {:induction false} NatStringValue(n: nat)
    ensures DigitsValue(NatString(n)) == n
    decreases n
  {
    var s := NatString(n);
    if n >= 10 {
      NatStringValue(n / 10);
      assert s[..|s| - 1] == NatString(n / 10);
      assert DigitValue(s[|s| - 1]) == n % 10;
    }
  }

  /** `parseInt` reads a whole run of digits. */
  lemma ParseIntOfDigits(d: string)
    requires d != [] && AllDigits(d)
    ensures ParseInt(d) == Finite(DigitsValue(d))
  {
    assert !IsSpace(d[0]);
    assert TrimStart(d) == d;
    assert Unsigned(d) == d;
    assert DigitRun(d) == |d|;
    assert d[..|d|] == d;
  }

  /** `parseInt` reads a minus sign followed by a whole run of digits. */
  lemma ParseIntOfNegativeDigits(d: string)
    requires d != [] && AllDigits(d)
    ensures ParseInt("-" + d) == Finite(-(DigitsValue(d) as int))
  {
    var m := "-" + d;
    assert !IsSpace(m[0]);
    assert TrimStart(m) == m;
    assert Unsigned(m) == d;
    assert DigitRun(d) == |d|;
    assert d[..|d|] == d;
  }

  /** The text `${n}` reads back as `n` through `parseInt(text, 10)`. */
  lemma {:induction false} ParseIntOfIntString(n: int)
    ensures ParseInt(IntString(n)) == Finite(n)
  {
    var m: nat := if n < 0 then -n else n;
    NatStringValue(m);
    if n < 0 {
      ParseIntOfNegativeDigits(NatString(m));
    } else {
      ParseIntOfDigits(NatString(m));
    }
  }

  /** The text `${n}` reads back as `n` through `Number(text)`. */
  lemma {:induction false} ToNumberOfIntString(n: int)
    ensures ToNumber(Some(IntString(n))) == Finite(n)
  {
    var m: nat := if n < 0 then -n else n;
    NatStringValue(m);
    if n < 0 {
      assert IntString(n)[1..] == NatString(m);
    }
  }
}
