/**
 * JavaScript's global `parseInt(string)` called without a radix, restricted to
 * decimal: leading white space is skipped, an optional sign is read, and then
 * the longest run of decimal digits. No digit at all gives NaN, written `None`.
 */
module JsParseInt {
  import opened Wrappers

  /** The white space and line terminator code points that `parseInt` skips. */
  predicate IsWhite(c: char) {
    || c == '\t' || c == '\n' || c == '\U{000B}' || c == '\U{000C}' || c == '\r' || c == ' '
    || c == '\U{00A0}' || c == '\U{1680}' || ('\U{2000}' <= c <= '\U{200A}')
    || c == '\U{2028}' || c == '\U{2029}' || c == '\U{202F}' || c == '\U{205F}'
    || c == '\U{3000}' || c == '\U{FEFF}'
  }

  predicate IsDigit(c: char) {
    '0' <= c <= '9'
  }

  predicate AllDigits(s: string) {
    forall i :: 0 <= i < |s| ==> IsDigit(s[i])
  }

  /** The value of a decimal digit (0 for any other character). */
  function DigitValue(c: char): (d: nat) {
    if IsDigit(c) then (c as int) - ('0' as int) else 0
  }

  function DigitChar(d: nat): (c: char)
    requires d < 10
    ensures IsDigit(c) && DigitValue(c) == d
  {
    ('0' as int + d) as char
  }

  /** What is left of `s` once its leading white space is dropped. */
  function TrimStart(s: string): (t: string) {
    if |s| > 0 && IsWhite(s[0]) then TrimStart(s[1..]) else s
  }

  /** `t` without its leading `+` or `-`, if it has one. */
  function Unsigned(t: string): (u: string) {
    if |t| > 0 && (t[0] == '+' || t[0] == '-') then t[1..] else t
  }

  /** The run of decimal digits at the start of `s`. */
  function DigitPrefix(s: string): (ds: string) {
    if |s| > 0 && IsDigit(s[0]) then [s[0]] + DigitPrefix(s[1..]) else []
  }

  /** The number a run of decimal digits denotes, most significant first. */
  function DigitsValue(ds: string): (v: nat) {
    if ds == [] then 0 else DigitsValue(ds[..|ds| - 1]) * 10 + DigitValue(ds[|ds| - 1])
  }

  /**
   * `parseInt(s)`: NaN (`None`) exactly when the first character after the
   * white space and the sign is missing or is not a digit.
   */
  function ParseInt(s: string): (r: Option<int>)
    ensures r.None? <==> var u := Unsigned(TrimStart(s)); u == [] || !IsDigit(u[0])
  {
    ParseTrimmed(TrimStart(s))
  }

  /** `parseInt` of a text that has no leading white space. */
  function ParseTrimmed(t: string): (r: Option<int>)
    ensures r.None? <==> var u := Unsigned(t); u == [] || !IsDigit(u[0])
    ensures r.Some? && r.value < 0 ==> t[0] == '-'
  {
    var ds := DigitPrefix(Unsigned(t));
    if ds == [] then None
    else
      var v: int := DigitsValue(ds);
      if t[0] == '-' then Some(-v) else Some(v)
  }

  /** The decimal digits of `n`, without leading zeros (what `String(n)` gives). */
  function NatDigits(n: nat): (ds: string)
    decreases n
  {
    if n < 10 then [DigitChar(n)] else NatDigits(n / 10) + [DigitChar(n % 10)]
  }

  /** The decimal text of an integer, with a `-` when it is negative. */
  function Decimal(n: int): (text: string) {
    if n < 0 then "-" + NatDigits(-n) else NatDigits(n)
  }

  /**
   * Trimming keeps a suffix of the text, drops only white space, and stops at
   * the first character that is not white space.
   */
  lemma {:induction false} TrimStartSpec(s: string)
    ensures var t := TrimStart(s);
      && |t| <= |s| && t == s[|s| - |t|..]
      && (forall i :: 0 <= i < |s| - |t| ==> IsWhite(s[i]))
      && (t == [] || !IsWhite(t[0]))
  {
    if |s| > 0 && IsWhite(s[0]) {
      var rest := s[1..];
      TrimStartSpec(rest);
      var t := TrimStart(rest);
      assert TrimStart(s) == t;
      forall i | 0 <= i < |s| - |t|
        ensures IsWhite(s[i])
      {
        if i > 0 {
          assert s[i] == rest[i - 1];
        }
      }
    }
  }

  /** The digit run is the longest prefix of `s` made of decimal digits. */
  lemma {:induction false} DigitPrefixSpec(s: string)
    ensures var ds := DigitPrefix(s);
      && |ds| <= |s| && ds == s[..|ds|]
      && AllDigits(ds)
      && (|ds| == |s| || !IsDigit(s[|ds|]))
  {
    if |s| > 0 && IsDigit(s[0]) {
      DigitPrefixSpec(s[1..]);
    }
  }

  /** The decimal text of a number is a non-empty run of digits. */
  lemma {:induction false} NatDigitsAreDigits(n: nat)
    ensures |NatDigits(n)| > 0 && AllDigits(NatDigits(n))
    decreases n
  {
    if n >= 10 {
      NatDigitsAreDigits(n / 10);
    }
  }

  lemma {:induction false} DigitsValueOfNatDigits(n: nat)
    ensures DigitsValue(NatDigits(n)) == n
    decreases n
  {
    var s := NatDigits(n);
    if n < 10 {
      assert s[..|s| - 1] == [];
    } else {
      assert s[..|s| - 1] == NatDigits(n / 10);
      DigitsValueOfNatDigits(n / 10);
    }
  }

  /** Different numbers have different decimal digits. */
  lemma NatDigitsInjective(a: nat, b: nat)
    requires NatDigits(a) == NatDigits(b)
    ensures a == b
  {
    DigitsValueOfNatDigits(a);
    DigitsValueOfNatDigits(b);
  }

  lemma {:induction false} DigitPrefixOfDigits(ds: string, rest: string)
    requires AllDigits(ds)
    requires rest == [] || !IsDigit(rest[0])
    ensures DigitPrefix(ds + rest) == ds
  {
    if ds != [] {
      assert (ds + rest)[1..] == ds[1..] + rest;
      DigitPrefixOfDigits(ds[1..], rest);
    }
  }

  /** A text that starts with a sign or a digit is not trimmed. */
  lemma TrimStartOfNonWhite(s: string)
    requires |s| > 0 && (s[0] == '-' || s[0] == '+' || IsDigit(s[0]))
    ensures TrimStart(s) == s
  {
    assert !IsWhite(s[0]);
  }

  lemma ParseTrimmedOfDigits(m: nat, rest: string)
    requires rest == [] || !IsDigit(rest[0])
    ensures ParseTrimmed(NatDigits(m) + rest) == Some(m)
  {
    NatDigitsAreDigits(m);
    var t := NatDigits(m) + rest;
    assert t[0] == NatDigits(m)[0];
    assert Unsigned(t) == t;
    DigitPrefixOfDigits(NatDigits(m), rest);
    DigitsValueOfNatDigits(m);
  }

  lemma ParseTrimmedOfNegated(m: nat, rest: string)
    requires rest == [] || !IsDigit(rest[0])
    ensures ParseTrimmed("-" + NatDigits(m) + rest) == Some(0 - m)
  {
    NatDigitsAreDigits(m);
    var body := NatDigits(m) + rest;
    var t := "-" + NatDigits(m) + rest;
    assert t == "-" + body;
    assert t[0] == '-' && Unsigned(t) == body;
    DigitPrefixOfDigits(NatDigits(m), rest);
    DigitsValueOfNatDigits(m);
  }

  /**
   * Parsing the decimal text of any integer, followed by anything that does not
   * continue the digits, gives that integer back.
   */
  lemma ParseIntOfDecimal(n: int, rest: string)
    requires rest == [] || !IsDigit(rest[0])
    ensures ParseInt(Decimal(n) + rest) == Some(n)
  {
    var s := Decimal(n) + rest;
    NatDigitsAreDigits(if n < 0 then -n else n);
    if n < 0 {
      assert s == "-" + NatDigits(-n) + rest;
      TrimStartOfNonWhite(s);
      ParseTrimmedOfNegated(-n, rest);
    } else {
      assert s == NatDigits(n) + rest;
      assert s[0] == NatDigits(n)[0];
      TrimStartOfNonWhite(s);
      ParseTrimmedOfDigits(n, rest);
    }
  }

  /** An explicit `+` in front of a number's decimal text reads that number. */
  lemma ParseIntOfPlus(m: nat, rest: string)
    requires rest == [] || !IsDigit(rest[0])
    ensures ParseInt("+" + NatDigits(m) + rest) == Some(m)
  {
    NatDigitsAreDigits(m);
    var body := NatDigits(m) + rest;
    var t := "+" + NatDigits(m) + rest;
    assert t == "+" + body;
    assert t[0] == '+' && Unsigned(t) == body;
    TrimStartOfNonWhite(t);
    DigitPrefixOfDigits(NatDigits(m), rest);
    DigitsValueOfNatDigits(m);
  }

  /** A leading zero adds nothing to the value of a run of digits. */
  lemma {:induction false} DigitsValueLeadingZero(ds: string)
    ensures DigitsValue("0" + ds) == DigitsValue(ds)
  {
    var z := "0" + ds;
    if ds == [] {
      assert z[..|z| - 1] == [];
    } else {
      var init := ds[..|ds| - 1];
      assert z[..|z| - 1] == "0" + init;
      assert z[|z| - 1] == ds[|ds| - 1];
      DigitsValueLeadingZero(init);
    }
  }

  /** Leading zeros are read and ignored: `parseInt("007") == parseInt("07") == 7`. */
  lemma ParseIntLeadingZero(s: string)
    requires |s| > 0 && IsDigit(s[0])
    ensures ParseInt("0" + s) == ParseInt(s)
  {
    var z := "0" + s;
    assert z[0] == '0' && z[1..] == s;
    TrimStartOfNonWhite(z);
    TrimStartOfNonWhite(s);
    assert Unsigned(z) == z && Unsigned(s) == s;
    assert DigitPrefix(z) == "0" + DigitPrefix(s);
    DigitsValueLeadingZero(DigitPrefix(s));
  }

  /** Leading white space never changes what `parseInt` reads. */
  lemma {:induction false} ParseIntSkipsWhite(w: string, s: string)
    requires forall i :: 0 <= i < |w| ==> IsWhite(w[i])
    ensures ParseInt(w + s) == ParseInt(s)
  {
    TrimStartSkipsWhite(w, s);
  }

  lemma {:induction false} TrimStartSkipsWhite(w: string, s: string)
    requires forall i :: 0 <= i < |w| ==> IsWhite(w[i])
    ensures TrimStart(w + s) == TrimStart(s)
  {
    if w == [] {
      assert w + s == s;
    } else {
      assert (w + s)[0] == w[0] && (w + s)[1..] == w[1..] + s;
      TrimStartSkipsWhite(w[1..], s);
    }
  }

  /** A text without any decimal digit is NaN: the empty text, `"abc"`, `" - "`. */
  lemma ParseIntWithoutDigits(s: string)
    requires forall i :: 0 <= i < |s| ==> !IsDigit(s[i])
    ensures ParseInt(s) == None
  {
    TrimStartSpec(s);
    var t := TrimStart(s);
    var u := Unsigned(t);
    if u != [] {
      assert u[0] == s[|s| - |u|];
    }
  }
}
