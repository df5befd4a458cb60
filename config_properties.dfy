/**
 * What the configuration loader of src/config.c promises, proved about the
 * functions of ConfigSpec (and so, through the methods' postconditions, about
 * the class of ConfigLoader).
 */
module ConfigProperties {

  import opened Wrappers
  import opened Text
  import opened ConfigSpec

  /** The record the table's defaults produce. */
  const DefaultSettings: Settings :=
    Settings(0, 0, 1920, 1080, 30, 30, 70, "~/Videos/ReplaySorcery_%F_%H-%M-%S.mp4")

  // ---------------------------------------------------------------------------
  // The integer setter, `configInt`
  // ---------------------------------------------------------------------------

  datatype Sign = NoSign | Plus | Minus

  function SignText(sign: Sign): string {
    match sign
    case NoSign => ""
    case Plus => "+"
    case Minus => "-"
  }

  /** A run of digits followed by a non-digit (or the end) is read whole. */
  lemma {:induction false} DigitRunOf(digits: string, rest: string)
    requires AllDigits(digits)
    requires rest == [] || !IsDigit(rest[0])
    ensures DigitRun(digits + rest) == |digits|
  {
    if digits != [] {
      assert (digits + rest)[0] == digits[0];
      assert (digits + rest)[1..] == digits[1..] + rest;
      DigitRunOf(digits[1..], rest);
    } else {
      assert digits + rest == rest;
    }
  }

  /**
   * `strtol` on whitespace, an optional sign, digits and then anything that does
   * not start with a digit: it reads the digits, saturates to `long`, and stops
   * right after them.
   */
  lemma StrToLOf(ws: string, sign: Sign, digits: string, rest: string)
    requires AllSpace(ws) && AllDigits(digits) && |digits| > 0
    requires rest == [] || !IsDigit(rest[0])
    ensures StrToL(ws + (SignText(sign) + (digits + rest))).0
      == ClampLong(WithSign(sign == Minus, DigitsValue(digits)))
    ensures StrToL(ws + (SignText(sign) + (digits + rest))).1 == |ws| + |SignText(sign)| + |digits|
  {
    var s := ws + (SignText(sign) + (digits + rest));
    SignSkipped(ws, sign, digits + rest);
    StrToLAt(s, |ws| + |SignText(sign)|, digits, rest, sign == Minus);
  }

  /** After whitespace and a sign, `strtol` looks for digits at the text that follows. */
  lemma SignSkipped(ws: string, sign: Sign, u: string)
    requires AllSpace(ws)
    requires u != [] && !IsSpace(u[0]) && u[0] != '+' && u[0] != '-'
    ensures var s := ws + (SignText(sign) + u);
      var j := |ws| + |SignText(sign)|;
      DigitsStart(s) == j && j <= |s| && s[j..] == u && (MinusSign(s) <==> sign == Minus)
  {
    var t := SignText(sign) + u;
    var s := ws + t;
    var i := |ws|;
    assert t[0] == if sign == NoSign then u[0] else SignText(sign)[0];
    LeadingSpacesOf(ws, t);
    assert s[i] == t[0];
    DropPast(ws, t, |SignText(sign)|);
    assert t[|SignText(sign)|..] == u;
  }

  /** `strtol` once it is known where the digits of `s` start and what follows them. */
  lemma StrToLAt(s: string, j: nat, digits: string, rest: string, negative: bool)
    requires AllDigits(digits) && |digits| > 0
    requires rest == [] || !IsDigit(rest[0])
    requires DigitsStart(s) == j && j <= |s| && s[j..] == digits + rest
    requires MinusSign(s) == negative
    ensures StrToL(s).0 == ClampLong(WithSign(negative, DigitsValue(digits)))
    ensures StrToL(s).1 == j + |digits|
  {
    DigitRunOf(digits, rest);
    AppendTake(digits, rest);
  }

  lemma AppendTake(a: string, b: string)
    ensures (a + b)[..|a|] == a
  {
  }

  lemma DropPast(a: string, b: string, k: nat)
    requires k <= |b|
    ensures (a + b)[|a| + k..] == b[k..]
  {
  }

  /** An empty value parses to 0. */
  lemma ConfigIntEmpty()
    ensures ConfigInt("") == Ok(0)
  {
  }

  /** Optional whitespace, an optional sign and digits whose value fits an `int` are accepted. */
  lemma ConfigIntAccepts(ws: string, sign: Sign, digits: string)
    requires AllSpace(ws) && AllDigits(digits) && |digits| > 0
    requires INT_MIN <= WithSign(sign == Minus, DigitsValue(digits)) <= INT_MAX
    ensures ConfigInt(ws + (SignText(sign) + digits)) == Ok(WithSign(sign == Minus, DigitsValue(digits)) as int32)
  {
    StrToLOf(ws, sign, digits, []);
    assert digits + [] == digits;
  }

  /** Anything left after the digits, a trailing space included, is fatal. */
  lemma ConfigIntRejectsTrailing(ws: string, sign: Sign, digits: string, rest: string)
    requires AllSpace(ws) && AllDigits(digits) && |digits| > 0
    requires rest != [] && !IsDigit(rest[0])
    ensures ConfigInt(ws + (SignText(sign) + (digits + rest)))
      == Err(BadInteger(ws + (SignText(sign) + (digits + rest))))
  {
    StrToLOf(ws, sign, digits, rest);
  }

  /** A number outside the range of `int` is fatal, even beyond the range of `long`. */
  lemma ConfigIntRejectsOutOfRange(ws: string, sign: Sign, digits: string)
    requires AllSpace(ws) && AllDigits(digits) && |digits| > 0
    requires WithSign(sign == Minus, DigitsValue(digits)) < INT_MIN || WithSign(sign == Minus, DigitsValue(digits)) > INT_MAX
    ensures ConfigInt(ws + (SignText(sign) + digits)) == Err(BadInteger(ws + (SignText(sign) + digits)))
  {
    StrToLOf(ws, sign, digits, []);
    assert digits + [] == digits;
  }

  /**
   * A non-empty value with no digit right after its leading whitespace and one
   * sign is fatal: `strtol` consumes nothing (`"x1"`, `"--5"`, `"- 5"`, `"px"`).
   */
  lemma ConfigIntRejectsNoDigits(value: string)
    requires value != []
    requires DigitRun(value[DigitsStart(value)..]) == 0
    ensures ConfigInt(value) == Err(BadInteger(value))
  {
  }

  /** In particular a value with no digit anywhere is fatal. */
  lemma ConfigIntRejectsDigitFree(value: string)
    requires value != []
    requires forall i :: 0 <= i < |value| ==> !IsDigit(value[i])
    ensures ConfigInt(value) == Err(BadInteger(value))
  {
    var j := DigitsStart(value);
    assert j < |value| ==> value[j..][0] == value[j];
    ConfigIntRejectsNoDigits(value);
  }

  /** The decimal spelling of an integer, with a '-' when it is negative. */
  function IntText(n: int): string {
    if n < 0 then "-" + NatToDigits(-n) else NatToDigits(n)
  }

  /** Every `int` written in decimal is read back as itself. */
  lemma ConfigIntRoundTrip(n: int32)
    ensures ConfigInt(IntText(n as int)) == Ok(n)
  {
    if n < 0 {
      var m: nat := -(n as int);
      DigitsRoundTrip(m);
      ConfigIntAccepts("", Minus, NatToDigits(m));
      assert "" + (SignText(Minus) + NatToDigits(m)) == IntText(n as int);
    } else {
      var m: nat := n as int;
      DigitsRoundTrip(m);
      ConfigIntAccepts("", NoSign, NatToDigits(m));
      assert "" + (SignText(NoSign) + NatToDigits(m)) == IntText(n as int);
    }
  }
}
