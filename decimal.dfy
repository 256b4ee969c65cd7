/**
 * Decimal text for 32-bit integers: C#'s `int.Parse` (default
 * `NumberStyles.Integer`, invariant culture) and `int.ToString()`, also used
 * for Python's `str(n)` of a non-negative count.
 */
module Decimal {
  import opened Common
  import Text

  /** Characters `NumberStyles.AllowLeadingWhite`/`AllowTrailingWhite` skip: U+0009 to U+000D and U+0020. */
  const NumberWhite: set<char> := {'\t', '\n', '\U{000B}', '\U{000C}', '\r', ' '}

  /** The two exceptions `int.Parse` throws on text. */
  datatype ParseError = FormatError | OverflowError {
    /** The exception's `Message`, as the Mono runtime words it. */
    function Message(): string
    {
      match this
      case FormatError => "Input string was not in a correct format."
      case OverflowError => "Value was either too large or too small for an Int32."
    }
  }

  predicate IsDigit(c: char) { '0' <= c <= '9' }

  predicate AllDigits(s: string) { forall k :: 0 <= k < |s| ==> IsDigit(s[k]) }

  function DigitValue(c: char): nat
    requires IsDigit(c)
  {
    (c as int) - ('0' as int)
  }

  function DigitChar(d: nat): (c: char)
    requires d < 10
    ensures IsDigit(c) && DigitValue(c) == d
  {
    (('0' as int) + d) as char
  }

  /** The value of a string of decimal digits, most significant first. */
  function DigitsValue(s: string): nat
    requires AllDigits(s)
  {
    if |s| == 0 then 0 else DigitsValue(s[..|s| - 1]) * 10 + DigitValue(s[|s| - 1])
  }

  /** The shortest decimal digits of `n` (no leading zero except for 0 itself). */
  function NatDigits(n: nat): (s: string)
    ensures |s| >= 1 && AllDigits(s)
    ensures |s| > 1 ==> s[0] != '0'
  {
    if n < 10 then [DigitChar(n)] else NatDigits(n / 10) + [DigitChar(n % 10)]
  }

  /** `n.ToString()`: a minus sign for negative values, then the digits of the magnitude. */
  function ToDecimal(n: int): string
  {
    if n < 0 then "-" + NatDigits(-n) else NatDigits(n)
  }

  /** `int.Parse(s)`: surrounding number whitespace is skipped, one optional sign, then at least one digit; the value must fit in 32 bits. */
  function ParseInt(s: string): Result<int, ParseError>
  {
    var t := Text.Trim(s, NumberWhite);
    var negative := |t| > 0 && t[0] == '-';
    var body := if |t| > 0 && (t[0] == '-' || t[0] == '+') then t[1..] else t;
    if |body| == 0 || !AllDigits(body) then Err(FormatError)
    else
      var v: int := if negative then 0 - DigitsValue(body) as int else DigitsValue(body);
      if IsInt32(v) then Ok(v) else Err(OverflowError)
  }

  lemma {:induction false} DigitsOfNat(n: nat)
    ensures DigitsValue(NatDigits(n)) == n
  {
    if n >= 10 {
      var s := NatDigits(n);
      DigitsOfNat(n / 10);
      assert s[..|s| - 1] == NatDigits(n / 10);
    }
  }

  /** `int.Parse(n.ToString()) == n` for every 32-bit `n`. */
  lemma ParseOfDecimal(n: int)
    requires IsInt32(n)
    ensures ParseInt(ToDecimal(n)) == Ok(n)
  {
    var s := ToDecimal(n);
    var m: nat := if n < 0 then -n else n;
    var d := NatDigits(m);
    assert s[|s| - 1] == d[|d| - 1];
    Text.TrimIdentity(s, NumberWhite);
    DigitsOfNat(m);
    if n < 0 {
      assert s[1..] == d;
    }
  }

  /** The empty text, and text with nothing but a sign, are format errors. */
  lemma ParseEmptyFails()
    ensures ParseInt("") == Err(FormatError)
    ensures ParseInt("-") == Err(FormatError)
  {
    assert Text.TrimStart("", NumberWhite) == "";
    assert '-' !in NumberWhite;
    assert Text.TrimStart("-", NumberWhite) == "-";
    assert Text.TrimEnd("-", NumberWhite) == "-";
  }

  /** A successful parse always yields a 32-bit value. */
  lemma ParseInRange(s: string)
    ensures ParseInt(s).Ok? ==> IsInt32(ParseInt(s).value)
  {
  }

  /** Text that begins with anything other than number whitespace, a sign or a digit is a format error. */
  lemma ParseRejectsNonNumericStart(s: string)
    requires |s| > 0 && s[0] !in NumberWhite && s[0] != '-' && s[0] != '+' && !IsDigit(s[0])
    ensures ParseInt(s) == Err(FormatError)
  {
    assert Text.TrimStart(s, NumberWhite) == s;
    var t := Text.Trim(s, NumberWhite);
    Text.TrimEndFacts(s, NumberWhite);
    if |t| > 0 {
      assert t[0] == s[0];
    }
  }

  /**
   * The shape of `n.ToString()`: non-empty, an optional leading minus sign,
   * digits everywhere else, and a digit at the end.
   */
  lemma DecimalShape(n: int)
    ensures var s := ToDecimal(n);
      && |s| >= 1 && IsDigit(s[|s| - 1])
      && (s[0] == '-' || IsDigit(s[0]))
      && (forall k :: 1 <= k < |s| ==> IsDigit(s[k]))
  {
    var m: nat := if n < 0 then -n else n;
    var d := NatDigits(m);
    if n < 0 {
      assert forall k :: 1 <= k < |ToDecimal(n)| ==> ToDecimal(n)[k] == d[k - 1];
    }
  }
}
