/** JavaScript values that the session store and the fetch wrapper depend on:
    nullable strings and their truthiness, numbers that may be NaN, and the
    decimal text form that `Number.prototype.toString` writes and the
    one-argument `parseInt` reads back. */
module JsValues {

  /** A value that may be `null`/`undefined` (None) or present (Some). */
  datatype Option<+T> = None | Some(value: T)

  /** A JavaScript number as far as this model needs one: an integer or NaN. */
  datatype Number = Int(n: int) | NaN

  /** `!!v` for a value that is a string or null: null and "" are falsy. */
  predicate Truthy(v: Option<string>) {
    v.Some? && v.value != ""
  }

  /** `a > b` on numbers: every comparison with NaN is false. */
  predicate Greater(a: int, b: Number) {
    b.Int? && a > b.n
  }

  predicate IsDigit(c: char) {
    '0' <= c <= '9'
  }

  predicate AllDigits(s: string) {
    forall i :: 0 <= i < |s| ==> IsDigit(s[i])
  }

  function DigitChar(d: nat): (c: char)
    requires d < 10
    ensures IsDigit(c) && c as int - '0' as int == d
  {
    (d + '0' as int) as char
  }

  /** Value of a string of decimal digits, most significant first. */
  function DigitsValue(s: string): (v: nat)
    requires AllDigits(s)
  {
    if s == [] then 0
    else DigitsValue(s[..|s| - 1]) * 10 + (s[|s| - 1] as int - '0' as int)
  }

  /** The longest prefix of `s` made of decimal digits. */
  function LeadingDigits(s: string): (p: string)
    ensures AllDigits(p) && p <= s
    ensures |p| < |s| ==> !IsDigit(s[|p|])
  {
    if s == [] || !IsDigit(s[0]) then [] else [s[0]] + LeadingDigits(s[1..])
  }

  /** Decimal digits of a non-negative integer, with no leading zero. */
  function NatToDigits(n: nat): (s: string)
    ensures AllDigits(s) && |s| > 0
    ensures |s| > 1 ==> s[0] != '0'
    ensures n > 0 ==> s[0] != '0'
  {
    if n < 10 then [DigitChar(n)] else NatToDigits(n / 10) + [DigitChar(n % 10)]
  }

  /** `n.toString()` for an integer-valued number (plain decimal notation). */
  function IntToString(n: int): (s: string)
    ensures s != ""
    ensures n >= 0 ==> AllDigits(s) && DigitsValue(s) == n
    ensures n < 0 ==> s[0] == '-' && AllDigits(s[1..]) && DigitsValue(s[1..]) == -n
    ensures |s| > 1 && s[0] != '-' ==> s[0] != '0'
    ensures n < 0 ==> s[1] != '0'
  {
    DigitsValueOfNat(if n < 0 then -n else n);
    if n < 0 then
      var digits := NatToDigits(-n);
      assert ("-" + digits)[1..] == digits;
      "-" + digits
    else NatToDigits(n)
  }

  /** `parseInt(s)` with the default radix: an optional sign, then the
      longest run of decimal digits; NaN when there is no digit. */
  function ParseInt(s: string): (r: Number)
    ensures s == [] || !(IsDigit(s[0]) || s[0] in "+-") ==> r == NaN
    ensures AllDigits(s) && s != [] ==> r == Int(DigitsValue(s))
  {
    LeadingDigitsOfDigits(s);
    var negative := |s| > 0 && s[0] == '-';
    var body := if |s| > 0 && s[0] in "+-" then s[1..] else s;
    var digits := LeadingDigits(body);
    if digits == [] then NaN
    else if negative then Int(-(DigitsValue(digits) as int))
    else Int(DigitsValue(digits))
  }

  lemma {:induction false} LeadingDigitsOfDigits(s: string)
    ensures AllDigits(s) ==> LeadingDigits(s) == s
  {
    if s != [] && AllDigits(s) {
      LeadingDigitsOfDigits(s[1..]);
    }
  }

  lemma {:induction false} DigitsValueOfNat(n: nat)
    ensures DigitsValue(NatToDigits(n)) == n
  {
    if n >= 10 {
      DigitsValueOfNat(n / 10);
      var s := NatToDigits(n);
      assert s[..|s| - 1] == NatToDigits(n / 10);
    }
  }

  /** Reading back what `toString` wrote gives the same integer: the stored
      expiry timestamp survives the round trip through storage. */
  lemma ParseIntOfIntToString(n: int)
    ensures ParseInt(IntToString(n)) == Int(n)
  {
    var s := IntToString(n);
    var m: nat := if n < 0 then -n else n;
    var digits := NatToDigits(m);
    var body := if |s| > 0 && s[0] in "+-" then s[1..] else s;
    assert digits[0] in "0123456789";
    if n < 0 {
      assert body == digits;
    } else {
      assert s == digits;
      assert body == digits;
    }
    LeadingDigitsOfDigits(digits);
    DigitsValueOfNat(m);
  }
}
