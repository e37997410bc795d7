/**
 * The few pieces of JavaScript's string and number handling that the editor relies on:
 * writing an integer as decimal text (template literals and JSX children), `parseInt`
 * without a radix argument, and `String.prototype.replace` with a one-character pattern.
 */
module Text {
  import opened Wrappers

  predicate IsDigit(c: char) {
    '0' <= c <= '9'
  }

  predicate AllDigits(s: string) {
    forall i :: 0 <= i < |s| ==> IsDigit(s[i])
  }

  function DigitValue(c: char): (d: nat)
    requires IsDigit(c)
    ensures d < 10
  {
    (c as int) - ('0' as int)
  }

  function DigitChar(d: nat): (c: char)
    requires d < 10
    ensures IsDigit(c) && DigitValue(c) == d
  {
    (('0' as int) + d) as char
  }

  /**
   * The decimal text of `n` without leading zeros, as `String(n)` writes a non-negative
   * integer below 10^21 (larger numbers are written in exponent form).
   */
  function NatToString(n: nat): (s: string)
    ensures |s| >= 1 && AllDigits(s)
    ensures |s| > 1 ==> s[0] != '0'
    ensures (n == 0) <==> (s == "0")
  {
    if n < 10 then [DigitChar(n)] else NatToString(n / 10) + [DigitChar(n % 10)]
  }

  /** The decimal text of an integer, with a leading `-` when it is negative. */
  function IntToString(i: int): (s: string)
    ensures |s| >= 1
    ensures i < 0 ==> s[0] == '-' && AllDigits(s[1..])
    ensures i >= 0 ==> AllDigits(s)
  {
    if i < 0 then "-" + NatToString(-i) else NatToString(i)
  }

  /** The value of a string of decimal digits, read most significant digit first. */
  function DigitsValue(s: string): nat
    requires AllDigits(s)
  {
    if s == [] then 0 else DigitsValue(s[..|s| - 1]) * 10 + DigitValue(s[|s| - 1])
  }

  /** The longest prefix of `s` made of decimal digits. */
  function LeadingDigits(s: string): (d: string)
    ensures AllDigits(d) && d <= s
    ensures |d| < |s| ==> !IsDigit(s[|d|])
  {
    if s == [] || !IsDigit(s[0]) then [] else [s[0]] + LeadingDigits(s[1..])
  }

  predicate IsHexDigit(c: char) {
    IsDigit(c) || 'a' <= c <= 'f' || 'A' <= c <= 'F'
  }

  predicate AllHexDigits(s: string) {
    forall i :: 0 <= i < |s| ==> IsHexDigit(s[i])
  }

  function HexDigitValue(c: char): (d: nat)
    requires IsHexDigit(c)
    ensures d < 16
    ensures IsDigit(c) ==> d == DigitValue(c)
  {
    if IsDigit(c) then DigitValue(c)
    else if 'a' <= c <= 'f' then (c as int) - ('a' as int) + 10
    else (c as int) - ('A' as int) + 10
  }

  /** The value of a string of hexadecimal digits, read most significant digit first. */
  function HexDigitsValue(s: string): nat
    requires AllHexDigits(s)
  {
    if s == [] then 0 else HexDigitsValue(s[..|s| - 1]) * 16 + HexDigitValue(s[|s| - 1])
  }

  /** The longest prefix of `s` made of hexadecimal digits. */
  function LeadingHexDigits(s: string): (d: string)
    ensures AllHexDigits(d) && d <= s
    ensures |d| < |s| ==> !IsHexDigit(s[|d|])
  {
    if s == [] || !IsHexDigit(s[0]) then [] else [s[0]] + LeadingHexDigits(s[1..])
  }

  /** `0x` or `0X`: without a radix argument `parseInt` then reads the rest in base 16. */
  predicate HasHexPrefix(u: string) {
    |u| >= 2 && u[0] == '0' && (u[1] == 'x' || u[1] == 'X')
  }

  /** No digit follows the prefix, in the base the prefix chooses. */
  predicate NoDigits(u: string) {
    if HasHexPrefix(u) then LeadingHexDigits(u[2..]) == [] else LeadingDigits(u) == []
  }

  /**
   * The characters `parseInt` skips: JavaScript's white space (tab, vertical tab, form
   * feed, space, no-break space, the byte-order mark and the Unicode space separators of
   * Unicode 15) and its line terminators (line feed, carriage return, U+2028, U+2029).
   */
  predicate IsWhiteSpace(c: char) {
    c == ' ' || c == '\t' || c == '\n' || c == '\r' || c == '\U{000B}' || c == '\U{000C}'
    || c == '\U{00A0}' || c == '\U{FEFF}' || c == '\U{1680}' || '\U{2000}' <= c <= '\U{200A}'
    || c == '\U{2028}' || c == '\U{2029}' || c == '\U{202F}' || c == '\U{205F}' || c == '\U{3000}'
  }

  function TrimStart(s: string): (t: string)
    ensures |t| <= |s|
    ensures t == [] || !IsWhiteSpace(t[0])
  {
    if s != [] && IsWhiteSpace(s[0]) then TrimStart(s[1..]) else s
  }

  /**
   * `parseInt(s)` without a radix: leading white space is skipped and one optional sign is
   * read; then a `0x` or `0X` prefix selects base 16, and otherwise base 10 applies; then
   * the longest run of digits in that base is read. No digits at all gives `NaN`, written
   * `None` here.
   */
  function ParseInt(s: string): (r: Option<int>)
    ensures r.None? <==> NoDigits(SignedPart(TrimStart(s)))
  {
    ParseSigned(TrimStart(s))
  }

  /** What follows the optional sign of `t`. */
  function SignedPart(t: string): (u: string)
    ensures u == t || (t != [] && (t[0] == '-' || t[0] == '+') && u == t[1..])
  {
    if |t| > 0 && (t[0] == '-' || t[0] == '+') then t[1..] else t
  }

  function ParseSigned(t: string): (r: Option<int>)
    ensures r.None? <==> NoDigits(SignedPart(t))
  {
    var u := ParseUnsigned(SignedPart(t));
    if |t| > 0 && t[0] == '-' && u.Some? then Some(-u.value) else u
  }

  function ParseUnsigned(u: string): (r: Option<int>)
    ensures r.None? <==> NoDigits(u)
    ensures !HasHexPrefix(u) && r.Some? ==> r.value == DigitsValue(LeadingDigits(u))
    ensures HasHexPrefix(u) && r.Some? ==> r.value == HexDigitsValue(LeadingHexDigits(u[2..]))
  {
    if HasHexPrefix(u) then
      var h := LeadingHexDigits(u[2..]);
      if h == [] then None else Some(HexDigitsValue(h))
    else
      var d := LeadingDigits(u);
      if d == [] then None else Some(DigitsValue(d))
  }

  lemma {:induction false} DigitsValueOfNatToString(n: nat)
    ensures DigitsValue(NatToString(n)) == n
  {
    var s := NatToString(n);
    if n < 10 {
      assert s[..|s| - 1] == [];
    } else {
      var prefix := NatToString(n / 10);
      assert s[..|s| - 1] == prefix;
      DigitsValueOfNatToString(n / 10);
    }
  }

  lemma {:induction false} LeadingDigitsOfDigits(d: string, rest: string)
    requires AllDigits(d)
    requires rest == [] || !IsDigit(rest[0])
    ensures LeadingDigits(d + rest) == d
  {
    if d == [] {
      assert d + rest == rest;
    } else {
      assert (d + rest)[1..] == d[1..] + rest;
      LeadingDigitsOfDigits(d[1..], rest);
    }
  }

  lemma {:induction false} ParseIntOfDigits(d: string, rest: string)
    requires d != [] && AllDigits(d)
    requires rest == [] || !IsDigit(rest[0])
    requires !HasHexPrefix(d + rest)
    ensures ParseInt(d + rest) == Some(DigitsValue(d))
  {
    var s := d + rest;
    assert s[0] == d[0];
    assert TrimStart(s) == s;
    assert SignedPart(s) == s;
    LeadingDigitsOfDigits(d, rest);
    assert ParseUnsigned(s) == Some(DigitsValue(d));
  }

  lemma {:induction false} ParseIntOfNegativeDigits(d: string, rest: string)
    requires d != [] && AllDigits(d)
    requires rest == [] || !IsDigit(rest[0])
    requires !HasHexPrefix(d + rest)
    ensures ParseInt("-" + (d + rest)) == Some(-(DigitsValue(d) as int))
  {
    var s := "-" + (d + rest);
    assert s[0] == '-' && s[1..] == d + rest;
    assert TrimStart(s) == s;
    assert SignedPart(s) == d + rest;
    LeadingDigitsOfDigits(d, rest);
    assert ParseUnsigned(d + rest) == Some(DigitsValue(d));
    assert ParseSigned(s) == Some(-(DigitsValue(d) as int));
    assert ParseInt(s) == ParseSigned(s);
  }

  /**
   * What may follow the decimal text of `i` without changing what `parseInt` reads: no
   * digit, and after a lone `0` no `x` or `X`, which would make it a base-16 prefix.
   */
  predicate EndsNumber(i: int, rest: string) {
    rest == [] || (!IsDigit(rest[0]) && (i != 0 || (rest[0] != 'x' && rest[0] != 'X')))
  }

  /** The decimal text of `n` followed by `rest` does not look like a base-16 prefix. */
  lemma NatToStringNoHexPrefix(n: nat, rest: string)
    requires EndsNumber(n, rest)
    ensures !HasHexPrefix(NatToString(n) + rest)
  {
    var d := NatToString(n);
    var s := d + rest;
    if |s| >= 2 {
      if |d| >= 2 {
        assert s[1] == d[1] && IsDigit(d[1]);
      } else {
        assert s[1] == rest[0];
        if d[0] == '0' {
          assert d == "0";
        }
      }
    }
  }

  lemma {:induction false} ParseIntOfNatToString(n: nat, rest: string)
    requires EndsNumber(n, rest)
    ensures ParseInt(NatToString(n) + rest) == Some(n)
    ensures ParseInt("-" + (NatToString(n) + rest)) == Some(-(n as int))
  {
    var d := NatToString(n);
    DigitsValueOfNatToString(n);
    NatToStringNoHexPrefix(n, rest);
    ParseIntOfDigits(d, rest);
    ParseIntOfNegativeDigits(d, rest);
  }

  /** `parseInt` reads back what `String` wrote, whatever non-digit text follows it (such as `px` or `%`). */
  lemma {:induction false} ParseIntOfIntToString(i: int, rest: string)
    requires EndsNumber(i, rest)
    ensures ParseInt(IntToString(i) + rest) == Some(i)
  {
    if i < 0 {
      var n: nat := -i;
      assert EndsNumber(n, rest);
      var d := NatToString(n);
      assert IntToString(i) == "-" + d;
      assert ("-" + d) + rest == "-" + (d + rest);
      ParseIntOfNatToString(n, rest);
    } else {
      assert IntToString(i) == NatToString(i);
      ParseIntOfNatToString(i, rest);
    }
  }

  /** The value of a run of hexadecimal digits. */
  lemma HexDigitsExamples()
    ensures HexDigitsValue("10") == 16 && HexDigitsValue("1f") == 31
  {
    assert "10"[..1] == "1" && "1f"[..1] == "1" && "1"[..0] == [];
  }

  /** A `0x` prefix is read in base 16. */
  lemma HexPrefixReadsBase16()
    ensures ParseInt("0x10") == Some(16)
  {
    var u := "0x10";
    assert TrimStart(u) == u && SignedPart(u) == u && HasHexPrefix(u);
    assert u[2..] == "10";
    assert LeadingHexDigits("10") == "10" by {
      assert LeadingHexDigits("0") == "0";
    }
    HexDigitsExamples();
  }

  /** A sign before the prefix applies to the base-16 value, and `0X` works like `0x`. */
  lemma SignedHexPrefix()
    ensures ParseInt("-0X1f") == Some(-31)
  {
    var t := "-0X1f";
    var u := "0X1f";
    assert TrimStart(t) == t && SignedPart(t) == u && HasHexPrefix(u);
    assert u[2..] == "1f";
    assert LeadingHexDigits("1f") == "1f" by {
      assert LeadingHexDigits("f") == "f";
    }
    HexDigitsExamples();
  }

  /** Line terminators count as leading white space. */
  lemma LineSeparatorSkipped()
    ensures ParseInt("\U{2028}5") == Some(5) && ParseInt("\U{2029}-5") == Some(-5)
  {
    assert "\U{2028}5"[1..] == "5";
    assert "\U{2029}-5"[1..] == "-5" && "-5"[1..] == "5";
    assert LeadingDigits("5") == "5";
    assert "5"[..0] == [];
  }

  /** After a `0x` prefix at least one hexadecimal digit is needed; a lone `0` is still 0. */
  lemma HexPrefixNeedsDigits()
    ensures ParseInt("0x") == None && ParseInt("0xg") == None
    ensures ParseInt("0") == Some(0)
  {
    assert "0x"[2..] == [];
    assert "0xg"[2..] == "g";
    assert LeadingDigits("0") == "0";
  }

  /** `s.replace(c, '')` for a one-character pattern: only the first occurrence of `c` is removed. */
  function RemoveFirst(s: string, c: char): (r: string)
    ensures c !in s ==> r == s
    ensures c in s ==> |r| == |s| - 1 && multiset(r) == multiset(s) - multiset{c}
    ensures s != [] && s[0] == c ==> r == s[1..]
  {
    if s == [] then []
    else if s[0] == c then (assert s == [s[0]] + s[1..]; s[1..])
    else (assert s == [s[0]] + s[1..]; [s[0]] + RemoveFirst(s[1..], c))
  }

  /** Splitting `s` around index `k` after taking off its first character. */
  lemma SplitAfterHead(s: string, k: nat)
    requires 0 < k < |s|
    ensures s[..k] + s[k + 1..] == [s[0]] + (s[1..][..k - 1] + s[1..][k..])
  {
    assert s[..k] == [s[0]] + s[1..][..k - 1];
    assert s[k + 1..] == s[1..][k..];
  }

  /** The occurrence removed is the first one: everything before it and after it is kept. */
  lemma {:induction false} RemoveFirstRemovesFirst(s: string, c: char, k: nat)
    requires k < |s| && s[k] == c
    requires forall j :: 0 <= j < k ==> s[j] != c
    ensures RemoveFirst(s, c) == s[..k] + s[k + 1..]
  {
    if k == 0 {
      assert s[..0] + s[1..] == s[1..];
    } else {
      assert s[0] != c;
      RemoveFirstRemovesFirst(s[1..], c, k - 1);
      SplitAfterHead(s, k);
    }
  }


}
