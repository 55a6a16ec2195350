/**
 * The text stored in the settings slot: what `JSON.stringify` produces for
 * a settings record (`Encode`), and the reading of such a text back into a
 * record (`Decode`). Decode recognises exactly the texts Encode produces.
 */
module SettingsJson {
  import opened Wrappers
  import opened AccessibilitySettings

  predicate IsDigit(c: char) {
    '0' <= c <= '9'
  }

  predicate AllDigits(d: string) {
    forall i :: 0 <= i < |d| ==> IsDigit(d[i])
  }

  function DigitChar(n: nat): (c: char)
    requires n < 10
    ensures IsDigit(c) && (c == '0' <==> n == 0)
  {
    (48 + n) as char
  }

  function DigitValue(c: char): (n: nat)
    requires IsDigit(c)
    ensures n < 10 && DigitChar(n) == c
  {
    (c as int) - 48
  }

  /** The decimal digits of `n`, with no leading zero. */
  function NatText(n: nat): (r: string)
    ensures |r| >= 1 && AllDigits(r)
    ensures r[0] == '0' <==> n == 0
    ensures n == 0 ==> r == "0"
    decreases n
  {
    if n < 10 then [DigitChar(n)] else NatText(n / 10) + [DigitChar(n % 10)]
  }

  /** The number a string of digits denotes. */
  function DigitsValue(d: string): nat
    requires AllDigits(d)
    decreases |d|
  {
    if d == [] then 0 else 10 * DigitsValue(d[..|d| - 1]) + DigitValue(d[|d| - 1])
  }

  lemma {:induction false} DigitsValueOfNatText(n: nat)
    ensures DigitsValue(NatText(n)) == n
    decreases n
  {
    if n >= 10 {
      var t := NatText(n);
      assert t[..|t| - 1] == NatText(n / 10);
      DigitsValueOfNatText(n / 10);
    }
  }

  /** A digit string that does not start with '0' denotes a positive number. */
  lemma {:induction false} DigitsValuePositive(d: string)
    requires |d| >= 1 && AllDigits(d) && d[0] != '0'
    ensures DigitsValue(d) >= 1
    decreases |d|
  {
    if |d| > 1 {
      DigitsValuePositive(d[..|d| - 1]);
    }
  }

  /** A digit string with no leading zero is the text of the number it denotes. */
  lemma {:induction false} NatTextOfDigits(d: string)
    requires |d| >= 1 && AllDigits(d)
    requires |d| == 1 || d[0] != '0'
    ensures NatText(DigitsValue(d)) == d
    decreases |d|
  {
    if |d| > 1 {
      var front := d[..|d| - 1];
      DigitsValuePositive(front);
      NatTextOfDigits(front);
      var n := DigitsValue(d);
      assert n / 10 == DigitsValue(front) && n % 10 == DigitValue(d[|d| - 1]);
      assert d == front + [d[|d| - 1]];
    }
  }

  /** How many digits `t` starts with. */
  function DigitRun(t: string): (k: nat)
    ensures k <= |t| && AllDigits(t[..k])
    ensures k < |t| ==> !IsDigit(t[k])
    decreases |t|
  {
    if t != [] && IsDigit(t[0]) then 1 + DigitRun(t[1..]) else 0
  }

  /** `Number.prototype.toString` of an integer, as `JSON.stringify` writes it. */
  function IntText(n: int): (r: string)
    ensures |r| >= 1
  {
    if n < 0 then "-" + NatText(-n) else NatText(n)
  }

  function BoolText(b: bool): string {
    if b then "true" else "false"
  }

  function ThemeText(t: ColorTheme): string {
    "\"" + ThemeName(t) + "\""
  }

  /** The rest of `t` after the literal `lit`, if `t` starts with it. */
  function Literal(lit: string, t: string): (r: Option<string>)
    ensures r.Some? <==> |lit| <= |t| && t[..|lit|] == lit
    ensures r.Some? ==> t == lit + r.value
  {
    if |lit| <= |t| && t[..|lit|] == lit then Some(t[|lit|..]) else None
  }

  lemma LiteralOf(lit: string, rest: string)
    ensures Literal(lit, lit + rest) == Some(rest)
  {
    assert (lit + rest)[..|lit|] == lit;
    assert (lit + rest)[|lit|..] == rest;
  }

  function BoolToken(t: string): (r: Option<(bool, string)>)
    ensures r.Some? ==> t == BoolText(r.value.0) + r.value.1
  {
    if Literal("true", t).Some? then Some((true, t[4..]))
    else if Literal("false", t).Some? then Some((false, t[5..]))
    else None
  }

  lemma BoolTokenOf(b: bool, rest: string)
    ensures BoolToken(BoolText(b) + rest) == Some((b, rest))
  {
    LiteralOf(BoolText(b), rest);
    if !b {
      assert ("false" + rest)[0] == 'f';
    }
  }

  function ThemeToken(t: string): (r: Option<(ColorTheme, string)>)
    ensures r.Some? ==> t == ThemeText(r.value.0) + r.value.1
  {
    if Literal(ThemeText(Default), t).Some? then Some((Default, t[|ThemeText(Default)|..]))
    else if Literal(ThemeText(Monochrome), t).Some? then Some((Monochrome, t[|ThemeText(Monochrome)|..]))
    else if Literal(ThemeText(HighContrast), t).Some? then Some((HighContrast, t[|ThemeText(HighContrast)|..]))
    else None
  }

  lemma ThemeTokenOf(c: ColorTheme, rest: string)
    ensures ThemeToken(ThemeText(c) + rest) == Some((c, rest))
  {
    LiteralOf(ThemeText(c), rest);
    var t := ThemeText(c) + rest;
    assert t[1] == ThemeName(c)[0];
  }

  /** The digit run of a digit string followed by a non-digit is that string. */
  lemma {:induction false} DigitRunOf(d: string, rest: string)
    requires AllDigits(d)
    requires rest == [] || !IsDigit(rest[0])
    ensures DigitRun(d + rest) == |d|
    decreases |d|
  {
    if d != [] {
      assert (d + rest)[1..] == d[1..] + rest;
      DigitRunOf(d[1..], rest);
    }
  }

  /** A run of digits with no leading zero, read as a number. */
  function NatToken(u: string): (r: Option<(nat, string)>)
    ensures r.Some? ==> u == NatText(r.value.0) + r.value.1
  {
    var k := DigitRun(u);
    if k == 0 || (k > 1 && u[0] == '0') then None
    else
      var d := u[..k];
      NatTextOfDigits(d);
      assert u == d + u[k..];
      Some((DigitsValue(d), u[k..]))
  }

  lemma NatTokenOf(m: nat, rest: string)
    requires rest == [] || !IsDigit(rest[0])
    ensures NatToken(NatText(m) + rest) == Some((m, rest))
  {
    var d := NatText(m);
    var u := d + rest;
    DigitsValueOfNatText(m);
    DigitRunOf(d, rest);
    assert u[..|d|] == d && u[|d|..] == rest;
    assert u[0] == d[0];
  }

  /** A JSON number that is a whole number in canonical form: no leading zero, no "-0". */
  function IntToken(t: string): (r: Option<(int, string)>)
    ensures r.Some? ==> t == IntText(r.value.0) + r.value.1
  {
    if |t| > 0 && t[0] == '-' then
      var p :- NatToken(t[1..]);
      if p.0 == 0 then None
      else
        var v: int := -(p.0 as int);
        assert IntText(v) == "-" + NatText(p.0);
        assert t == "-" + (NatText(p.0) + p.1);
        Some((v, p.1))
    else
      var p :- NatToken(t);
      Some((p.0 as int, p.1))
  }

  lemma IntTokenOf(n: int, rest: string)
    requires rest == [] || !IsDigit(rest[0])
    ensures IntToken(IntText(n) + rest) == Some((n, rest))
  {
    if n < 0 {
      NegativeTokenOf(-n, rest);
    } else {
      var t := NatText(n) + rest;
      assert t[0] == NatText(n)[0];
      NatTokenOf(n, rest);
    }
  }

  lemma NegativeTokenOf(m: nat, rest: string)
    requires m > 0
    requires rest == [] || !IsDigit(rest[0])
    ensures IntToken("-" + (NatText(m) + rest)) == Some((-(m as int), rest))
  {
    var u := NatText(m) + rest;
    var t := "-" + u;
    assert |t| > 0 && t[0] == '-';
    assert t[1..] == u;
    NatTokenOf(m, rest);
    assert NatToken(t[1..]) == Some((m, rest));
  }

  /** The text `JSON.stringify(settings)` produces: the keys in the order of the defaults. */
  function Encode(s: Settings): (t: string)
    ensures t != ""
  {
    "{\"highContrast\":" + (BoolText(s.highContrast) +
    (",\"reduceMotion\":" + (BoolText(s.reduceMotion) +
    (",\"fontSize\":" + (IntText(s.fontSize) +
    (",\"colorTheme\":" + (ThemeText(s.colorTheme) +
    (",\"soundFeedback\":" + (BoolText(s.soundFeedback) +
    (",\"keyboardNavigation\":" + (BoolText(s.keyboardNavigation) +
    "}")))))))))))
  }

  /** A member `lit` followed by a boolean. */
  function FlagField(lit: string, t: string): (r: Option<(bool, string)>)
    ensures r.Some? ==> t == lit + (BoolText(r.value.0) + r.value.1)
  {
    var rest :- Literal(lit, t);
    BoolToken(rest)
  }

  /** A member `lit` followed by a whole number. */
  function NumberField(lit: string, t: string): (r: Option<(int, string)>)
    ensures r.Some? ==> t == lit + (IntText(r.value.0) + r.value.1)
  {
    var rest :- Literal(lit, t);
    IntToken(rest)
  }

  /** A member `lit` followed by a theme name in quotes. */
  function ThemeField(lit: string, t: string): (r: Option<(ColorTheme, string)>)
    ensures r.Some? ==> t == lit + (ThemeText(r.value.0) + r.value.1)
  {
    var rest :- Literal(lit, t);
    ThemeToken(rest)
  }

  /**
   * The record a stored text denotes, if it is a text that Encode
   * produces; None for every other text.
   */
  function Decode(t: string): (r: Option<Settings>)
    ensures r.Some? ==> Encode(r.value) == t
  {
    var hc :- FlagField("{\"highContrast\":", t);
    var rm :- FlagField(",\"reduceMotion\":", hc.1);
    var fs :- NumberField(",\"fontSize\":", rm.1);
    var ct :- ThemeField(",\"colorTheme\":", fs.1);
    var sf :- FlagField(",\"soundFeedback\":", ct.1);
    var kn :- FlagField(",\"keyboardNavigation\":", sf.1);
    if kn.1 == "}" then Some(Settings(hc.0, rm.0, fs.0, ct.0, sf.0, kn.0)) else None
  }

  lemma FlagFieldOf(lit: string, b: bool, rest: string)
    ensures FlagField(lit, lit + (BoolText(b) + rest)) == Some((b, rest))
  {
    LiteralOf(lit, BoolText(b) + rest);
    BoolTokenOf(b, rest);
  }

  lemma NumberFieldOf(lit: string, n: int, rest: string)
    requires rest == [] || !IsDigit(rest[0])
    ensures NumberField(lit, lit + (IntText(n) + rest)) == Some((n, rest))
  {
    LiteralOf(lit, IntText(n) + rest);
    IntTokenOf(n, rest);
  }

  lemma ThemeFieldOf(lit: string, c: ColorTheme, rest: string)
    ensures ThemeField(lit, lit + (ThemeText(c) + rest)) == Some((c, rest))
  {
    LiteralOf(lit, ThemeText(c) + rest);
    ThemeTokenOf(c, rest);
  }

  /** Reading back what was written gives the record back. */
  lemma DecodeEncode(s: Settings)
    ensures Decode(Encode(s)) == Some(s)
  {
    var tail6 := "}";
    var tail5 := ",\"keyboardNavigation\":" + (BoolText(s.keyboardNavigation) + tail6);
    var tail4 := ",\"soundFeedback\":" + (BoolText(s.soundFeedback) + tail5);
    var tail3 := ",\"colorTheme\":" + (ThemeText(s.colorTheme) + tail4);
    var tail2 := ",\"fontSize\":" + (IntText(s.fontSize) + tail3);
    var tail1 := ",\"reduceMotion\":" + (BoolText(s.reduceMotion) + tail2);
    assert Encode(s) == "{\"highContrast\":" + (BoolText(s.highContrast) + tail1);
    FlagFieldOf("{\"highContrast\":", s.highContrast, tail1);
    FlagFieldOf(",\"reduceMotion\":", s.reduceMotion, tail2);
    NumberFieldOf(",\"fontSize\":", s.fontSize, tail3);
    ThemeFieldOf(",\"colorTheme\":", s.colorTheme, tail4);
    FlagFieldOf(",\"soundFeedback\":", s.soundFeedback, tail5);
    FlagFieldOf(",\"keyboardNavigation\":", s.keyboardNavigation, tail6);
  }

  /** Decode recognises exactly the texts of records, and the record is the one encoded. */
  lemma DecodeExactlyEncodings(t: string, s: Settings)
    ensures Decode(t) == Some(s) <==> t == Encode(s)
  {
    if t == Encode(s) {
      DecodeEncode(s);
    }
  }

  /** Two records with the same text are the same record. */
  lemma EncodeInjective(a: Settings, b: Settings)
    requires Encode(a) == Encode(b)
    ensures a == b
  {
    DecodeEncode(a);
    DecodeEncode(b);
  }
}
