/**
 * Numeric text as the bot reads it from JSON: balances, token counts and
 * command arguments arrive as strings and are converted with Python's int()
 * (and, in one place, int(float())).
 */
module Numerals {
  import opened Wrappers

  /**
   * What the conversions make of one numeric text field.
   * IntText: int(s) succeeds with `value`.
   * FloatText: int(s) raises but int(float(s)) succeeds ("12.7" gives 12).
   * NotNumber: both raise (including "inf" and "nan", where int(float(s)) raises).
   * A field that is missing is read with the default "0" and is IntText(0).
   */
  datatype Numeric = IntText(value: int) | FloatText(truncated: int) | NotNumber

  predicate IsDigit(c: char) {
    '0' <= c <= '9'
  }

  predicate AllDigits(s: string) {
    forall i :: 0 <= i < |s| ==> IsDigit(s[i])
  }

  /** The value of a non-empty run of decimal digits, most significant first. */
  function DigitsValue(s: string): nat
    requires AllDigits(s)
  {
    if s == [] then 0
    else DigitsValue(s[..|s| - 1]) * 10 + (s[|s| - 1] as int - '0' as int)
  }

  /** Decimal integer text: an optional sign followed by at least one digit. */
  predicate IsIntegerText(s: string) {
    || (|s| > 0 && AllDigits(s))
    || (|s| > 1 && (s[0] == '-' || s[0] == '+') && AllDigits(s[1..]))
  }

  /** int(s) on decimal integer text; None where int() raises ValueError. */
  function ParseInt(s: string): (r: Option<int>)
    ensures r.Some? <==> IsIntegerText(s)
    ensures r.Some? && |s| > 0 && AllDigits(s) ==> r.value == DigitsValue(s)
    ensures r.Some? && s[0] == '-' ==> r.value == -(DigitsValue(s[1..]) as int)
    ensures r.Some? && |s| > 1 && s[0] == '+' ==> r.value == DigitsValue(s[1..])
  {
    if |s| > 0 && AllDigits(s) then Some(DigitsValue(s))
    else if |s| > 1 && (s[0] == '-' || s[0] == '+') && AllDigits(s[1..]) then
      Some(if s[0] == '-' then -(DigitsValue(s[1..]) as int) else DigitsValue(s[1..]))
    else None
  }

  function DigitChar(d: nat): (c: char)
    requires d < 10
    ensures IsDigit(c) && c as int - '0' as int == d
  {
    ('0' as int + d) as char
  }

  /** str(n) for a natural number. */
  function ShowNat(n: nat): (s: string)
    ensures |s| > 0 && AllDigits(s)
  {
    if n < 10 then [DigitChar(n)] else ShowNat(n / 10) + [DigitChar(n % 10)]
  }

  /** str(n) for any integer. */
  function ShowInt(n: int): (s: string)
    ensures IsIntegerText(s)
  {
    if n < 0 then "-" + ShowNat(-n) else ShowNat(n)
  }

  lemma {:induction false} DigitsValueOfShowNat(n: nat)
    ensures DigitsValue(ShowNat(n)) == n
  {
    if n >= 10 {
      var s := ShowNat(n);
      assert s[..|s| - 1] == ShowNat(n / 10);
      DigitsValueOfShowNat(n / 10);
    }
  }

  /** int(str(n)) == n. */
  lemma ParseShowInt(n: int)
    ensures ParseInt(ShowInt(n)) == Some(n)
  {
    if n < 0 {
      var s := ShowInt(n);
      assert s[1..] == ShowNat(-n);
      assert !AllDigits(s) by { assert !IsDigit(s[0]); }
      DigitsValueOfShowNat(-n);
    } else {
      DigitsValueOfShowNat(n);
    }
  }

  /** str.endswith(suffix). */
  predicate EndsWith(s: string, suffix: string) {
    |suffix| <= |s| && s[|s| - |suffix|..] == suffix
  }

  /** str.replace(pat, ""): every non-overlapping occurrence, scanned left to right, removed. */
  function RemoveAll(s: string, pat: string): (r: string)
    requires pat != []
    ensures |r| <= |s|
    decreases |s|
  {
    if |s| >= |pat| && s[..|pat|] == pat then RemoveAll(s[|pat|..], pat)
    else if s == [] then []
    else [s[0]] + RemoveAll(s[1..], pat)
  }

  const Denom: string := "uheli"

  /**
   * A transfer amount "<n>uheli": only values ending in "uheli" are read, every
   * "uheli" in them is deleted and the rest goes through int(); None where the
   * value is not read or int() raises.
   */
  function ParseUheli(v: string): (r: Option<int>)
    ensures r.Some? ==> EndsWith(v, Denom)
  {
    if EndsWith(v, Denom) then ParseInt(RemoveAll(v, Denom)) else None
  }

  lemma {:induction false} RemoveDenomAfterDigits(s: string)
    requires AllDigits(s)
    ensures RemoveAll(s + Denom, Denom) == s
  {
    if s == [] {
      assert ([] + Denom)[..|Denom|] == Denom;
      assert ([] + Denom)[|Denom|..] == [];
    } else {
      var t := s + Denom;
      assert t[0] == s[0] && IsDigit(s[0]);
      assert t[..|Denom|] != Denom by { assert t[..|Denom|][0] == t[0]; }
      assert t[1..] == s[1..] + Denom;
      RemoveDenomAfterDigits(s[1..]);
      assert [s[0]] + s[1..] == s;
    }
  }

  /** Reading back an amount the chain prints as "<n>uheli" gives n. */
  lemma ParseUheliRoundTrip(n: nat)
    ensures ParseUheli(ShowNat(n) + Denom) == Some(n)
  {
    var s := ShowNat(n);
    assert (s + Denom)[|s + Denom| - |Denom|..] == Denom;
    RemoveDenomAfterDigits(s);
    DigitsValueOfShowNat(n);
  }

  /** A value with another denomination, or several coins ending in another one, is not read. */
  lemma ParseUheliNeedsSuffix(n: nat, other: string)
    requires |other| == |Denom| && other != Denom
    ensures ParseUheli(ShowNat(n) + other) == None
  {
    var v := ShowNat(n) + other;
    assert v[|v| - |Denom|..] == other;
  }
}
