/** How the chart writer turns numbers into attribute and element text:
    `str(n)` for integers, `safe_string` (`"%.15g" % x`) and `str(float(x))`. */
module NumberText {
  import opened Results

  const Pow15: int := 1_000_000_000_000_000

  /** The integers that `"%.15g"` prints in plain decimal notation. */
  type Int15 = n: int | -Pow15 < n < Pow15

  /** A number as the writer meets it. An integer below 10^15 in magnitude is
      rendered by the model itself. Any other number (a non-integral float, a
      larger integer) carries its two renderings as given: `g15` is
      `"%.15g" % x` and `asFloat` is `str(float(x))`; floating-point
      formatting is not part of this model. */
  datatype Number = Int(value: Int15) | Formatted(g15: string, asFloat: string)

  predicate IsDigit(c: char)
  {
    '0' <= c <= '9'
  }

  predicate AllDigits(s: string)
  {
    forall i :: 0 <= i < |s| ==> IsDigit(s[i])
  }

  function DigitChar(d: nat): (c: char)
    requires d < 10
    ensures IsDigit(c) && c as int - '0' as int == d
  {
    ('0' as int + d) as char
  }

  /** `str(n)` for a non-negative integer: its decimal digits, most
      significant first, without leading zeros. */
  function NatText(n: nat): (s: string)
    ensures |s| > 0 && AllDigits(s)
    ensures s[0] == '0' ==> n == 0
    decreases n
  {
    if n < 10 then [DigitChar(n)] else NatText(n / 10) + [DigitChar(n % 10)]
  }

  /** `str(n)` for any integer. */
  function IntText(n: int): string
  {
    if n < 0 then "-" + NatText(-n) else NatText(n)
  }

  /** The value of a string of decimal digits. */
  function ParseNat(s: string): nat
    requires AllDigits(s)
    decreases |s|
  {
    if s == [] then 0 else 10 * ParseNat(s[..|s| - 1]) + (s[|s| - 1] as int - '0' as int)
  }

  /** `int(s)` for the texts `str` gives an integer: an optional minus sign,
      then at least one digit. */
  function ParseInt(s: string): Option<int>
  {
    if |s| > 1 && s[0] == '-' && AllDigits(s[1..]) then Some(-(ParseNat(s[1..]) as int))
    else if |s| > 0 && AllDigits(s) then Some(ParseNat(s))
    else None
  }

  lemma {:induction false} NatTextRoundTrip(n: nat)
    ensures ParseNat(NatText(n)) == n
    decreases n
  {
    if n >= 10 {
      var s := NatText(n);
      NatTextRoundTrip(n / 10);
      assert s[..|s| - 1] == NatText(n / 10);
    }
  }

  /** Reading back `str(n)` gives `n`. */
  lemma IntTextRoundTrip(n: int)
    ensures ParseInt(IntText(n)) == Some(n)
  {
    if n < 0 {
      NatTextRoundTrip(-n);
      assert IntText(n)[1..] == NatText(-n);
    } else {
      NatTextRoundTrip(n);
    }
  }

  /** Distinct integers get distinct texts. */
  lemma IntTextInjective(a: int, b: int)
    ensures IntText(a) == IntText(b) <==> a == b
  {
    IntTextRoundTrip(a);
    IntTextRoundTrip(b);
  }

  /** `safe_string(x)` for a number `x`: `"%.15g" % x`, which is the plain
      decimal form for an integer below 10^15 in magnitude. */
  function SafeString(x: Number): string
  {
    match x
    case Int(n) => IntText(n)
    case Formatted(g15, _) => g15
  }

  /** The text `safe_string` gives an integer reads back as that integer. */
  lemma SafeStringReadBack(x: Number)
    requires x.Int?
    ensures ParseInt(SafeString(x)) == Some(x.value)
  {
    IntTextRoundTrip(x.value);
  }

  /** `str(float(x))` as Python 3 renders it: an integer below 10^15 in
      magnitude is shown in decimal with a trailing ".0". */
  function FloatText(x: Number): string
  {
    match x
    case Int(n) => IntText(n) + ".0"
    case Formatted(_, asFloat) => asFloat
  }

  /** The text `str(float(n))` gives an integer is its decimal text followed
      by ".0". */
  lemma FloatTextReadBack(x: Number)
    requires x.Int?
    ensures var s := FloatText(x);
      |s| > 2 && s[|s| - 2..] == ".0" && ParseInt(s[..|s| - 2]) == Some(x.value)
  {
    var t := IntText(x.value);
    IntTextRoundTrip(x.value);
    assert |t| > 0;
    assert (t + ".0")[..|t|] == t;
  }
}
