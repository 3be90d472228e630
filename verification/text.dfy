/**
 * The few JavaScript string operations the league filter relies on:
 * `name.split(" ").pop()`, `parseInt(token, 10)`, and the decimal text of a
 * non-negative integer (how a league number is written inside its name).
 */
module JsText {
  import opened Wrappers

  predicate IsDigit(c: char) {
    '0' <= c <= '9'
  }

  predicate AllDigits(s: string) {
    forall i :: 0 <= i < |s| ==> IsDigit(s[i])
  }

  predicate NoSpace(s: string) {
    forall i :: 0 <= i < |s| ==> s[i] != ' '
  }

  function DigitChar(d: nat): (c: char)
    requires d < 10
    ensures IsDigit(c) && c as int - '0' as int == d
  {
    ('0' as int + d) as char
  }

  /** The decimal text of `n`, most significant digit first, no leading zeros. */
  function Decimal(n: nat): (s: string)
    ensures |s| > 0 && AllDigits(s)
    ensures |s| > 1 ==> s[0] != '0'
  {
    if n < 10 then [DigitChar(n)] else Decimal(n / 10) + [DigitChar(n % 10)]
  }

  /** The value of a string of decimal digits. */
  function DigitsValue(s: string): nat
    requires AllDigits(s)
  {
    if s == [] then 0 else DigitsValue(s[..|s| - 1]) * 10 + (s[|s| - 1] as int - '0' as int)
  }

  /** How many decimal digits `s` starts with. */
  function LeadingDigits(s: string): (k: nat)
    ensures k <= |s| && AllDigits(s[..k])
    ensures k < |s| ==> !IsDigit(s[k])
  {
    if s == [] || !IsDigit(s[0]) then 0 else 1 + LeadingDigits(s[1..])
  }

  /**
   * `parseInt(s, 10)` for a string that carries no sign and no leading blank:
   * the value of the leading digits, or NaN (`None`) when there are none.
   */
  function ParseInt(s: string): (r: Option<nat>)
    ensures r.None? <==> s == [] || !IsDigit(s[0])
    ensures r.Some? ==> r.value == DigitsValue(s[..LeadingDigits(s)])
  {
    var k := LeadingDigits(s);
    if k == 0 then None else Some(DigitsValue(s[..k]))
  }

  /**
   * `s.split(" ").pop()`: the text after the last blank of `s`, or all of `s`
   * when it holds no blank.
   */
  function LastToken(s: string): (t: string)
    ensures |t| <= |s| && t == s[|s| - |t|..]
    ensures NoSpace(t)
    ensures |t| < |s| ==> s[|s| - |t| - 1] == ' '
  {
    if s == [] || s[|s| - 1] == ' ' then [] else LastToken(s[..|s| - 1]) + [s[|s| - 1]]
  }

  lemma {:induction false} LeadingDigitsOfDigits(s: string)
    requires AllDigits(s)
    ensures LeadingDigits(s) == |s|
  {
    if s != [] {
      LeadingDigitsOfDigits(s[1..]);
    }
  }

  lemma {:induction false} DigitsValueOfDecimal(n: nat)
    ensures DigitsValue(Decimal(n)) == n
  {
    if n >= 10 {
      var s := Decimal(n);
      assert s[..|s| - 1] == Decimal(n / 10);
      DigitsValueOfDecimal(n / 10);
    }
  }

  /** Reading back the decimal text of a number gives the number. */
  lemma ParseIntOfDecimal(n: nat)
    ensures ParseInt(Decimal(n)) == Some(n)
  {
    var s := Decimal(n);
    LeadingDigitsOfDigits(s);
    assert s[..|s|] == s;
    DigitsValueOfDecimal(n);
  }

  /** The last blank-separated token of `a + " " + b` is `b` when `b` has no blank. */
  lemma {:induction false} LastTokenAfterBlank(a: string, b: string)
    requires NoSpace(b)
    ensures LastToken(a + " " + b) == b
  {
    if b != [] {
      var b' := b[..|b| - 1];
      assert (a + " " + b)[..|a + " " + b| - 1] == a + " " + b';
      LastTokenAfterBlank(a, b');
      assert b' + [b[|b| - 1]] == b;
    }
  }
}
