/** The JavaScript built-ins the handlers rely on, over strings as
    sequences of characters: parseInt with radix 10, the decimal rendering of
    a non-negative integer (toString), strict decimal parsing (BigInt and
    ethers numeric strings), trim and toLowerCase. */
module Js {
  import opened Common

  predicate IsDigit(c: char)
  {
    '0' <= c <= '9'
  }

  predicate AllDigits(s: string)
  {
    forall i :: 0 <= i < |s| ==> IsDigit(s[i])
  }

  function DigitVal(c: char): nat
    requires IsDigit(c)
  {
    (c - '0') as nat
  }

  function Digit(d: nat): (c: char)
    requires d < 10
    ensures IsDigit(c) && DigitVal(c) == d
  {
    (d as char) + '0'
  }

  /** (n).toString(): base-10 digits, most significant first, no leading zeros. */
  function Show(n: nat): (s: string)
    ensures 0 < |s| && AllDigits(s)
    ensures |s| > 1 ==> s[0] != '0'
  {
    if n < 10 then [Digit(n)] else Show(n / 10) + [Digit(n % 10)]
  }

  /** The number a string of decimal digits denotes. */
  function Value(ds: string): nat
    requires AllDigits(ds)
  {
    if ds == [] then 0 else 10 * Value(ds[..|ds| - 1]) + DigitVal(ds[|ds| - 1])
  }

  /** The longest prefix of s made of decimal digits. */
  function DigitPrefix(s: string): (z: string)
    ensures AllDigits(z) && z <= s
    ensures z == s || !IsDigit(s[|z|])
  {
    if s != [] && IsDigit(s[0]) then [s[0]] + DigitPrefix(s[1..]) else []
  }

  /** WhiteSpace and LineTerminator code points of ECMAScript, the characters
      trim and parseInt skip. */
  predicate IsJsSpace(c: char)
  {
    c == ' ' || c == '\t' || c == '\n' || c == '\r' || c == '\U{0B}' || c == '\U{0C}'
    || c == '\U{A0}' || c == '\U{1680}' || ('\U{2000}' <= c <= '\U{200A}')
    || c == '\U{2028}' || c == '\U{2029}' || c == '\U{202F}' || c == '\U{205F}'
    || c == '\U{3000}' || c == '\U{FEFF}'
  }

  /** Every character of s is white space. */
  predicate AllSpace(s: string)
  {
    forall i :: 0 <= i < |s| ==> IsJsSpace(s[i])
  }

  /** The input without its leading white space. */
  function TrimStart(s: string): (t: string)
    ensures t == [] || !IsJsSpace(t[0])
    ensures |t| <= |s| && t == s[|s| - |t|..]
  {
    if s != [] && IsJsSpace(s[0]) then TrimStart(s[1..]) else s
  }

  /** The input without its trailing white space. */
  function TrimEnd(s: string): (t: string)
    ensures t == [] || !IsJsSpace(t[|t| - 1])
    ensures t <= s
  {
    if s != [] && IsJsSpace(s[|s| - 1]) then TrimEnd(s[..|s| - 1]) else s
  }

  /** TrimStart removes white space and nothing else. */
  lemma {:induction false} TrimStartRemovesSpace(s: string)
    ensures AllSpace(s[..|s| - |TrimStart(s)|])
  {
    if s != [] && IsJsSpace(s[0]) {
      TrimStartRemovesSpace(s[1..]);
      assert s[..|s| - |TrimStart(s)|] == [s[0]] + s[1..][..|s[1..]| - |TrimStart(s[1..])|];
    }
  }

  /** TrimEnd removes white space and nothing else. */
  lemma {:induction false} TrimEndRemovesSpace(s: string)
    ensures AllSpace(s[|TrimEnd(s)|..])
  {
    if s != [] && IsJsSpace(s[|s| - 1]) {
      var init := s[..|s| - 1];
      TrimEndRemovesSpace(init);
      assert s[|TrimEnd(s)|..] == init[|TrimEnd(init)|..] + [s[|s| - 1]];
    }
  }

  /** String.prototype.trim. */
  function Trim(s: string): string
  {
    TrimEnd(TrimStart(s))
  }

  /** parseInt(s, 10): skip leading white space, take an optional sign, then the
      longest run of decimal digits; no digit at all gives NaN, here None.
      The unbounded result ignores the loss of precision past 2^53. */
  function ParseInt(s: string): (r: Option<int>)
    ensures r.None? <==> DigitPrefix(Unsigned(TrimStart(s))) == []
  {
    ParseSigned(TrimStart(s))
  }

  /** parseInt once the leading white space is skipped. */
  function ParseSigned(t: string): Option<int>
  {
    var z := DigitPrefix(Unsigned(t));
    if z == [] then None
    else if t[0] == '-' then Some(0 - Value(z))
    else Some(Value(z))
  }

  function Unsigned(t: string): string
  {
    if t != [] && (t[0] == '-' || t[0] == '+') then t[1..] else t
  }

  /** A string that is nothing but decimal digits, as BigInt(s) and the
      contract encoder accept it for an unsigned integer. */
  function ParseDecimal(s: string): (r: Option<nat>)
    ensures r.Some? <==> s != [] && AllDigits(s)
  {
    if s != [] && AllDigits(s) then Some(Value(s)) else None
  }

  /** String.prototype.toLowerCase on the ASCII letters. */
  function ToLower(s: string): (t: string)
    ensures |t| == |s|
  {
    seq(|s|, i requires 0 <= i < |s| => if 'A' <= s[i] <= 'Z' then s[i] - 'A' + 'a' else s[i])
  }

  // ---------------------------------------------------------------------------
  // Properties

  /** Reading the digits toString writes gives the number back. */
  lemma {:induction false} ValueShow(n: nat)
    ensures Value(Show(n)) == n
  {
    if n >= 10 {
      var s := Show(n);
      assert s[..|s| - 1] == Show(n / 10);
      ValueShow(n / 10);
    }
  }

  /** Distinct numbers have distinct decimal renderings, so they make distinct
      keys in a JSON object. */
  lemma {:induction false} ShowInjective(a: nat, b: nat)
    ensures Show(a) == Show(b) ==> a == b
  {
    ValueShow(a);
    ValueShow(b);
  }

  lemma {:induction false} ParseDecimalShow(n: nat)
    ensures ParseDecimal(Show(n)) == Some(n)
  {
    ValueShow(n);
  }

  lemma {:induction false} DigitPrefixStops(ds: string, rest: string)
    requires AllDigits(ds)
    requires rest == [] || !IsDigit(rest[0])
    ensures DigitPrefix(ds + rest) == ds
  {
    if ds != [] {
      assert (ds + rest)[1..] == ds[1..] + rest;
      DigitPrefixStops(ds[1..], rest);
    }
  }

  /** trim and parseInt skip nothing in front of a digit or a minus sign. */
  lemma {:induction false} NoLeadingSpace(s: string)
    requires s != [] && (IsDigit(s[0]) || s[0] == '-')
    ensures TrimStart(s) == s
  {
    assert !IsJsSpace(s[0]);
  }

  /** parseInt on a run of digits followed by anything that does not start
      with a digit. */
  lemma {:induction false} ParseIntDigits(ds: string, rest: string)
    requires ds != [] && AllDigits(ds)
    requires rest == [] || !IsDigit(rest[0])
    ensures ParseInt(ds + rest) == Some(Value(ds))
  {
    var s := ds + rest;
    assert s[0] == ds[0];
    NoLeadingSpace(s);
    assert ParseInt(s) == ParseSigned(s);
    assert Unsigned(s) == s;
    DigitPrefixStops(ds, rest);
  }

  /** A minus sign followed by a run of digits parses as the negative of
      their value. */
  lemma {:induction false} ParseIntMinusDigits(ds: string)
    requires ds != [] && AllDigits(ds)
    ensures ParseInt("-" + ds) == Some(0 - Value(ds))
  {
    var s := "-" + ds;
    NoLeadingSpace(s);
    assert ParseInt(s) == ParseSigned(s);
    assert Unsigned(s) == ds;
    DigitPrefixStops(ds, []);
    assert ds + [] == ds;
  }

  /** parseInt accepts a decimal prefix: the digits of n followed by anything
      that does not start with a digit parse as n. */
  lemma {:induction false} ParseIntShowPrefix(n: nat, rest: string)
    requires rest == [] || !IsDigit(rest[0])
    ensures ParseInt(Show(n) + rest) == Some(n)
  {
    ParseIntDigits(Show(n), rest);
    ValueShow(n);
  }

  /** A string of white space only trims to the empty string. */
  lemma {:induction false} TrimBlank(s: string)
    requires AllSpace(s)
    ensures Trim(s) == []
  {
    if s != [] {
      TrimBlank(s[1..]);
    }
  }
}
