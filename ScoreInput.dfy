/**
 * Reading numbers typed by the user: JavaScript's `parseInt(s, 10)`, the
 * round-score coercion `raw === '' ? 0 : parseInt(raw, 10) || 0` applied to
 * each trimmed score field, and the player-count guard of the set-names
 * handler. Numbers are unbounded integers here.
 */
module ScoreInput {
  import opened Wrappers
  import opened Text

  /** Bounds of the player-count field. */
  const MinPlayers := 1
  const MaxPlayers := 12

  predicate IsDigit(c: char) {
    '0' <= c <= '9'
  }

  predicate AllDigits(d: string) {
    forall i :: 0 <= i < |d| ==> IsDigit(d[i])
  }

  function DigitValue(c: char): (v: nat)
    requires IsDigit(c)
    ensures v < 10
  {
    c as int - '0' as int
  }

  function DigitChar(v: nat): (c: char)
    requires v < 10
    ensures IsDigit(c) && DigitValue(c) == v
  {
    ('0' as int + v) as char
  }

  /** The run of decimal digits at the start of `s`. */
  function LeadingDigits(s: string): (d: string)
    ensures |d| <= |s| && AllDigits(d)
  {
    if s != [] && IsDigit(s[0]) then [s[0]] + LeadingDigits(s[1..]) else []
  }

  /** `LeadingDigits` is the longest prefix of `s` made of digits. */
  lemma {:induction false} LeadingDigitsSpec(s: string)
    ensures var d := LeadingDigits(s);
            d == s[..|d|] && (|d| < |s| ==> !IsDigit(s[|d|]))
  {
    if s != [] && IsDigit(s[0]) {
      LeadingDigitsSpec(s[1..]);
    }
  }

  /** The value of a string of decimal digits, most significant first. */
  function DigitsValue(d: string): nat
    requires AllDigits(d)
  {
    if d == [] then 0 else DigitsValue(d[..|d| - 1]) * 10 + DigitValue(d[|d| - 1])
  }

  /** `t` does not begin with a digit, nor with a sign followed by a digit. */
  predicate NoLeadingInteger(t: string) {
    && (t == [] || !IsDigit(t[0]))
    && (|t| >= 2 && (t[0] == '-' || t[0] == '+') ==> !IsDigit(t[1]))
  }

  /**
   * `parseInt(s, 10)`: skip leading whitespace, take an optional sign, then
   * the longest run of decimal digits; `None` stands for NaN (no digits).
   */
  function ParseInt(s: string): (r: Option<int>)
    ensures r.None? <==> NoLeadingInteger(TrimStart(s))
  {
    ParseSigned(TrimStart(s))
  }

  /** `parseInt` after its whitespace strip: an optional sign, then the leading digits. */
  function ParseSigned(t: string): (r: Option<int>)
    ensures r.None? <==> NoLeadingInteger(t)
    ensures r.Some? && r.value < 0 ==> t[0] == '-'
  {
    if t != [] && t[0] == '-' then Negate(ParseDigits(t[1..]))
    else if t != [] && t[0] == '+' then ParseDigits(t[1..])
    else ParseDigits(t)
  }

  /** The value of the leading digits of `t`, or `None` when `t` does not start with a digit. */
  function ParseDigits(t: string): (r: Option<int>)
    ensures r.None? <==> t == [] || !IsDigit(t[0])
    ensures r.Some? ==> r.value >= 0
  {
    var digits := LeadingDigits(t);
    if digits == [] then None else Some(DigitsValue(digits))
  }

  function Negate(r: Option<int>): Option<int> {
    match r
    case Some(v) => Some(-v)
    case None => None
  }

  /**
   * The score recorded for one raw round input. Blank input and input with
   * no leading integer both give 0; NaN and -0 are falsy, so `|| 0` maps
   * them to 0 and leaves every other integer alone.
   */
  function CoerceScore(raw: string): (score: int)
    ensures ParseInt(Trim(raw)).Some? ==> score == ParseInt(Trim(raw)).value
    ensures ParseInt(Trim(raw)).None? ==> score == 0
  {
    var t := Trim(raw);
    if t == [] then 0 else ParseInt(t).GetOr(0)
  }

  /** `inputs.map(...)` over the round form: one coerced score per field, in order. */
  function CoerceAll(inputs: seq<string>): (scores: seq<int>)
    ensures |scores| == |inputs|
    ensures forall i :: 0 <= i < |inputs| ==> scores[i] == CoerceScore(inputs[i])
  {
    seq(|inputs|, i requires 0 <= i < |inputs| => CoerceScore(inputs[i]))
  }

  /**
   * The guard of the set-names handler: the parsed count is accepted only
   * when it is an integer between 1 and 12.
   */
  function CheckPlayerCount(raw: string): (count: Option<nat>)
    ensures count.Some? ==> MinPlayers <= count.value <= MaxPlayers
    ensures count.Some? <==> ParseInt(raw).Some? && MinPlayers <= ParseInt(raw).value <= MaxPlayers
    ensures count.Some? ==> count.value == ParseInt(raw).value
  {
    match ParseInt(raw)
    case Some(n) => if MinPlayers <= n <= MaxPlayers then Some(n) else None
    case None => None
  }

  // ---------------------------------------------------------------------------
  // Decimal rendering: the reference against which parsing is checked.

  /** The decimal digits of `n`, without leading zeros. */
  function NatDigits(n: nat): (d: string)
    ensures d != [] && AllDigits(d)
    decreases n
  {
    if n < 10 then [DigitChar(n)] else NatDigits(n / 10) + [DigitChar(n % 10)]
  }

  /** How an integer is written: an optional minus sign and its digits. */
  function DecimalString(n: int): (s: string)
    ensures s != [] && IsTrimmed(s)
  {
    if n < 0 then ['-'] + NatDigits(-n) else NatDigits(n)
  }

  lemma {:induction false} DigitsValueOfNatDigits(n: nat)
    ensures DigitsValue(NatDigits(n)) == n
    decreases n
  {
    if n >= 10 {
      var d := NatDigits(n);
      assert d[..|d| - 1] == NatDigits(n / 10);
      DigitsValueOfNatDigits(n / 10);
    }
  }

  lemma {:induction false} LeadingDigitsOfDigits(d: string, rest: string)
    requires AllDigits(d)
    requires rest == [] || !IsDigit(rest[0])
    ensures LeadingDigits(d + rest) == d
  {
    if d != [] {
      assert (d + rest)[1..] == d[1..] + rest;
      LeadingDigitsOfDigits(d[1..], rest);
    }
  }

  /** The leading-digit run of a digit string followed by a non-digit is that digit string. */
  lemma ParseDigitsOfDigits(d: string, rest: string)
    requires d != [] && AllDigits(d)
    requires rest == [] || !IsDigit(rest[0])
    ensures ParseDigits(d + rest) == Some(DigitsValue(d))
  {
    LeadingDigitsOfDigits(d, rest);
  }

  /** With no leading whitespace, `parseInt` goes straight to the sign. */
  lemma ParseIntOfUnpadded(s: string)
    requires s == [] || !IsWhitespace(s[0])
    ensures ParseInt(s) == ParseSigned(s)
  {
    TrimStartOfUnpadded(s);
  }

  /** `parseInt` reads a run of digits, whatever non-digit text follows it. */
  lemma ParseIntOfDigits(d: string, rest: string, s: string)
    requires d != [] && AllDigits(d)
    requires rest == [] || !IsDigit(rest[0])
    requires s == d + rest
    ensures ParseInt(s) == Some(DigitsValue(d))
  {
    assert s[0] == d[0];
    ParseIntOfUnpadded(s);
    ParseDigitsOfDigits(d, rest);
  }

  /** `parseInt` reads a minus sign and a run of digits, whatever non-digit text follows them. */
  lemma ParseIntOfNegativeDigits(d: string, rest: string, s: string)
    requires d != [] && AllDigits(d)
    requires rest == [] || !IsDigit(rest[0])
    requires s == ['-'] + (d + rest)
    ensures ParseInt(s) == Some(-(DigitsValue(d) as int))
  {
    assert s[0] == '-' && s[1..] == d + rest;
    ParseIntOfUnpadded(s);
    ParseDigitsOfDigits(d, rest);
  }

  /** `parseInt` reads a plus sign and a run of digits, whatever non-digit text follows them. */
  lemma ParseIntOfPlusDigits(d: string, rest: string, s: string)
    requires d != [] && AllDigits(d)
    requires rest == [] || !IsDigit(rest[0])
    requires s == ['+'] + (d + rest)
    ensures ParseInt(s) == Some(DigitsValue(d) as int)
  {
    assert s[0] == '+' && s[1..] == d + rest;
    ParseIntOfUnpadded(s);
    ParseDigitsOfDigits(d, rest);
  }

  /**
   * `parseInt` reads back any integer written in decimal, whatever
   * non-digit text follows it.
   */
  lemma ParseIntOfDecimal(n: int, rest: string)
    requires rest == [] || !IsDigit(rest[0])
    ensures ParseInt(DecimalString(n) + rest) == Some(n)
  {
    if n < 0 {
      var m: nat := -n;
      var written := DecimalString(n);
      assert written == ['-'] + NatDigits(m);
      var s := written + rest;
      assert s == ['-'] + (NatDigits(m) + rest);
      ParseIntOfNegativeNatDigits(m, rest, s);
    } else {
      ParseIntOfNonNegativeDecimal(n, rest);
    }
  }

  lemma ParseIntOfNegativeNatDigits(m: nat, rest: string, s: string)
    requires rest == [] || !IsDigit(rest[0])
    requires s == ['-'] + (NatDigits(m) + rest)
    ensures ParseInt(s) == Some(-(m as int))
  {
    ParseIntOfNegativeDigits(NatDigits(m), rest, s);
    DigitsValueOfNatDigits(m);
  }

  lemma ParseIntOfNonNegativeDecimal(n: int, rest: string)
    requires n >= 0
    requires rest == [] || !IsDigit(rest[0])
    ensures ParseInt(DecimalString(n) + rest) == Some(n)
  {
    var s := DecimalString(n) + rest;
    assert s == NatDigits(n) + rest;
    ParseIntOfDigits(NatDigits(n), rest, s);
    DigitsValueOfNatDigits(n);
  }

  /**
   * Round trip: a score field holding a written integer, with any
   * surrounding whitespace, is recorded as that integer.
   */
  lemma CoerceScoreOfDecimal(w1: string, n: int, w2: string)
    requires AllWhitespace(w1) && AllWhitespace(w2)
    ensures CoerceScore(w1 + DecimalString(n) + w2) == n
  {
    TrimOfPadded(w1, DecimalString(n), w2);
    ParseIntOfDecimal(n, []);
    assert DecimalString(n) + [] == DecimalString(n);
  }

  /**
   * A field whose trimmed text is an optional sign, a run of digits (leading
   * zeros allowed) and any text not starting with a digit is recorded as
   * the signed value of those digits: the decimal point of "3.5" or the
   * exponent of "1e3" ends the number.
   */
  lemma CoerceScoreOfLeadingInteger(raw: string, sign: string, d: string, rest: string)
    requires sign == [] || sign == ['-'] || sign == ['+']
    requires d != [] && AllDigits(d)
    requires rest == [] || !IsDigit(rest[0])
    requires Trim(raw) == sign + (d + rest)
    ensures CoerceScore(raw) == if sign == ['-'] then -(DigitsValue(d) as int) else DigitsValue(d)
  {
    var t := Trim(raw);
    if sign == [] {
      assert t == d + rest;
      ParseIntOfDigits(d, rest, t);
    } else if sign == ['-'] {
      ParseIntOfNegativeDigits(d, rest, t);
    } else {
      ParseIntOfPlusDigits(d, rest, t);
    }
  }

  /** Blank input is recorded as 0. */
  lemma CoerceScoreOfBlank(raw: string)
    requires AllWhitespace(raw)
    ensures CoerceScore(raw) == 0
  {
    TrimSpec(raw);
  }

  /** Input with no integer at its start, once trimmed, is recorded as 0. */
  lemma CoerceScoreWithoutDigits(raw: string)
    requires NoLeadingInteger(Trim(raw))
    ensures CoerceScore(raw) == 0
  {
    var t := Trim(raw);
    TrimSpec(raw);
    TrimStartOfUnpadded(t);
  }

  /** The count guard accepts exactly the counts 1 through 12. */
  lemma CheckPlayerCountOfDecimal(n: int)
    ensures CheckPlayerCount(DecimalString(n)) == if MinPlayers <= n <= MaxPlayers then Some(n) else None
  {
    ParseIntOfDecimal(n, []);
    assert DecimalString(n) + [] == DecimalString(n);
  }

  /** Blank score fields are recorded as 0. */
  lemma CoercionExamplesBlank()
    ensures CoerceScore("") == 0 && CoerceScore("  ") == 0
  {
    CoerceScoreOfBlank("  ");
  }

  /** A non-numeric score field is recorded as 0. */
  lemma CoercionExampleLetters()
    ensures CoerceScore("abc") == 0
  {
    TrimOfTrimmed("abc");
    CoerceScoreWithoutDigits("abc");
  }

  /** A written positive integer is recorded as itself. */
  lemma CoercionExamplePositive()
    ensures CoerceScore("5") == 5
  {
    TrimOfTrimmed("5");
    ParseIntOfDigits("5", [], "5");
  }

  /**
   * The count field as the set-names handler reads it: leading whitespace,
   * a run of digits (leading zeros allowed) and any text not starting with
   * a digit, such as the fraction of "5.5" or the exponent of "1e1". The
   * count is the value of those digits, accepted only from 1 to 12.
   */
  lemma CheckPlayerCountOfLeadingDigits(raw: string, w: string, d: string, rest: string)
    requires AllWhitespace(w)
    requires d != [] && AllDigits(d)
    requires rest == [] || !IsDigit(rest[0])
    requires raw == w + (d + rest)
    ensures CheckPlayerCount(raw) == if MinPlayers <= DigitsValue(d) <= MaxPlayers then Some(DigitsValue(d)) else None
  {
    TrimStartOfPadded(w, d + rest);
    ParseDigitsOfDigits(d, rest);
  }

  /** `"07"` asks for seven players. */
  lemma CheckPlayerCountExampleLeadingZero()
    ensures CheckPlayerCount("07") == Some(7)
  {
    CheckPlayerCountOfLeadingDigits("07", "", "07", "");
    assert "07"[..1] == "0" && "0"[..0] == [];
  }

  /** `"+5"` is recorded as 5. */
  lemma CoercionExamplePlus()
    ensures CoerceScore("+5") == 5
  {
    TrimOfTrimmed("+5");
    CoerceScoreOfLeadingInteger("+5", "+", "5", "");
  }

  /** Leading zeros do not change the value: `"007"` is recorded as 7. */
  lemma CoercionExampleLeadingZeros()
    ensures CoerceScore("007") == 7
  {
    TrimOfTrimmed("007");
    CoerceScoreOfLeadingInteger("007", "", "007", "");
    assert "007"[..2] == "00" && "00"[..1] == "0" && "0"[..0] == [];
  }

  /** Text after the digits is ignored: `"12abc"` is recorded as 12. */
  lemma CoercionExampleTrailingText()
    ensures CoerceScore("12abc") == 12
  {
    TrimOfTrimmed("12abc");
    CoerceScoreOfLeadingInteger("12abc", "", "12", "abc");
  }

  /** A fraction is cut at the point: `"3.5"` is recorded as 3. */
  lemma CoercionExampleFraction()
    ensures CoerceScore("3.5") == 3
  {
    TrimOfTrimmed("3.5");
    CoerceScoreOfLeadingInteger("3.5", "", "3", ".5");
  }

  /** An exponent is not read: `"1e3"` is recorded as 1. */
  lemma CoercionExampleExponent()
    ensures CoerceScore("1e3") == 1
  {
    TrimOfTrimmed("1e3");
    CoerceScoreOfLeadingInteger("1e3", "", "1", "e3");
  }

  /** A single written digit is recorded as its value. */
  lemma CoerceScoreOfDigit(c: char, s: string)
    requires IsDigit(c) && s == [c]
    ensures CoerceScore(s) == DigitValue(c)
  {
    TrimOfTrimmed(s);
    ParseIntOfDigits(s, [], s);
  }

  /** A written negative integer is recorded as itself. */
  lemma CoercionExampleNegative()
    ensures CoerceScore("-3") == -3
  {
    TrimOfTrimmed("-3");
    ParseIntOfNegativeDigits("3", [], "-3");
  }
}
