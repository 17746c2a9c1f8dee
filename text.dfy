/**
 * The JavaScript string and number built-ins the application leans on:
 * `String.prototype.trim`, `toLowerCase`, `includes`, `Number.prototype.toString`
 * on integers, and `parseInt` / `parseFloat` on decimal integer text.
 */
module Text {
  import opened Wrappers

  /** JavaScript's WhiteSpace and LineTerminator code points: what `\s` matches and `trim` removes. */
  predicate IsWhitespace(c: char) {
    ('\t' <= c <= '\r') || c == ' ' || c == '\U{00A0}' || c == '\U{1680}'
    || ('\U{2000}' <= c <= '\U{200A}') || c == '\U{2028}' || c == '\U{2029}'
    || c == '\U{202F}' || c == '\U{205F}' || c == '\U{3000}' || c == '\U{FEFF}'
  }

  /** `s.trim() === ""`: every character is whitespace. */
  predicate IsBlank(s: string) {
    forall i :: 0 <= i < |s| ==> IsWhitespace(s[i])
  }

  /** `String.prototype.trimStart`: drops the longest all-whitespace prefix. */
  function TrimStart(s: string): (r: string)
    ensures |r| <= |s| && r == s[|s| - |r|..]
    ensures IsBlank(s[..|s| - |r|])
    ensures r == [] || !IsWhitespace(r[0])
  {
    if s != [] && IsWhitespace(s[0]) then
      var t := s[1..];
      var r := TrimStart(t);
      assert t[|t| - |r|..] == s[|s| - |r|..];
      assert forall i :: 0 <= i < |t| - |r| ==> IsWhitespace(t[i]) by {
        forall i | 0 <= i < |t| - |r| ensures IsWhitespace(t[i]) {
          assert t[..|t| - |r|][i] == t[i];
        }
      }
      r
    else s
  }

  /** `String.prototype.trimEnd`: drops the longest all-whitespace suffix. */
  function TrimEnd(s: string): (r: string)
    ensures |r| <= |s| && r == s[..|r|]
    ensures IsBlank(s[|r|..])
    ensures r == [] || !IsWhitespace(r[|r| - 1])
  {
    if s != [] && IsWhitespace(s[|s| - 1]) then
      var t := s[..|s| - 1];
      var r := TrimEnd(t);
      assert t[..|r|] == s[..|r|];
      assert forall i :: |r| <= i < |t| ==> IsWhitespace(t[i]) by {
        forall i | |r| <= i < |t| ensures IsWhitespace(t[i]) {
          assert t[|r|..][i - |r|] == t[i];
        }
      }
      r
    else s
  }

  /** `String.prototype.trim`. */
  function Trim(s: string): string {
    TrimEnd(TrimStart(s))
  }

  /** A trimmed string is empty exactly when the original was all whitespace. */
  lemma TrimEmptyIffBlank(s: string)
    ensures Trim(s) == [] <==> IsBlank(s)
  {
    var t := TrimStart(s);
    var k := |s| - |t|;
    if Trim(s) == [] {
      assert IsBlank(t) by { assert t[0..] == t; }
      assert s == s[..k];
    }
  }

  lemma TrimEmpty()
    ensures Trim([]) == []
  {
  }

  /** A trimmed string that is not empty starts and ends with a non-whitespace character. */
  lemma TrimEnds(s: string)
    ensures Trim(s) == [] || (!IsWhitespace(Trim(s)[0]) && !IsWhitespace(Trim(s)[|Trim(s)| - 1]))
  {
    var t := TrimStart(s);
    if Trim(s) != [] {
      assert Trim(s)[0] == t[0];
    }
  }

  /** Trimming twice trims nothing more. */
  lemma TrimIdempotent(s: string)
    ensures Trim(Trim(s)) == Trim(s)
  {
    var u := TrimStart(s);
    var t := TrimEnd(u);
    if t != [] {
      assert t[0] == u[0];
      assert TrimStart(t) == t;
    }
  }

  /** `toLowerCase` on one character: Latin capitals and the Russian Cyrillic capitals. */
  function LowerChar(c: char): char {
    if 'A' <= c <= 'Z' then (c as int + 32) as char
    else if '\U{0410}' <= c <= '\U{042F}' then (c as int + 0x20) as char
    else if '\U{0400}' <= c <= '\U{040F}' then (c as int + 0x50) as char
    else c
  }

  /** `String.prototype.toLowerCase`, character by character. */
  function ToLower(s: string): (r: string)
    ensures |r| == |s|
  {
    seq(|s|, i requires 0 <= i < |s| => LowerChar(s[i]))
  }

  /** `part` occurs in `s` starting at offset `i`. */
  predicate OccursAt(s: string, part: string, i: int) {
    0 <= i <= |s| - |part| && s[i..i + |part|] == part
  }

  /** `s.includes(part)`: `part` occurs in `s` at some offset. */
  predicate Contains(s: string, part: string) {
    exists i | 0 <= i <= |s| - |part| :: OccursAt(s, part, i)
  }

  predicate IsDigit(c: char) {
    '0' <= c <= '9'
  }

  function DigitChar(d: int): (c: char)
    requires 0 <= d < 10
    ensures IsDigit(c)
  {
    ('0' as int + d) as char
  }

  function DigitValue(c: char): (d: int)
    requires IsDigit(c)
    ensures 0 <= d < 10
  {
    c as int - '0' as int
  }

  predicate AllDigits(s: string) {
    forall i :: 0 <= i < |s| ==> IsDigit(s[i])
  }

  /** Decimal numeral of a natural number, no leading zeros. */
  function NatToString(n: nat): (r: string)
    ensures |r| >= 1 && AllDigits(r)
    ensures r[0] == '0' ==> r == "0"
  {
    if n < 10 then [DigitChar(n)] else NatToString(n / 10) + [DigitChar(n % 10)]
  }

  /** `Number.prototype.toString` on an integer. */
  function IntToString(n: int): (r: string)
    ensures r != [] && (r[0] == '-' || IsDigit(r[0]))
  {
    if n < 0 then "-" + NatToString(-n) else NatToString(n)
  }

  /** The longest prefix of decimal digits. */
  function DigitPrefix(s: string): (r: string)
    ensures |r| <= |s| && r == s[..|r|]
    ensures AllDigits(r)
    ensures |r| == |s| || !IsDigit(s[|r|])
  {
    if s != [] && IsDigit(s[0]) then [s[0]] + DigitPrefix(s[1..]) else []
  }

  /** The value of a decimal numeral, most significant digit first. */
  function DigitsValue(ds: string): nat
    requires AllDigits(ds)
  {
    if ds == [] then 0 else DigitsValue(ds[..|ds| - 1]) * 10 + DigitValue(ds[|ds| - 1])
  }

  /**
   * `parseInt(s)` / `parseFloat(s)` on decimal integer text: skip leading whitespace,
   * take an optional sign and the longest run of digits after it; `NaN` (here `None`)
   * when there is no digit.
   */
  function ParseNumber(s: string): Option<int> {
    var t := TrimStart(s);
    var negative := |t| > 0 && t[0] == '-';
    var unsigned := if |t| > 0 && (t[0] == '-' || t[0] == '+') then t[1..] else t;
    var ds := DigitPrefix(unsigned);
    var value: int := if ds == [] then 0 else DigitsValue(ds);
    if ds == [] then None
    else if negative then Some(-value)
    else Some(value)
  }

  lemma {:induction false} DigitsValueOfNatToString(n: nat)
    ensures DigitsValue(NatToString(n)) == n
  {
    var s := NatToString(n);
    if n >= 10 {
      assert s[..|s| - 1] == NatToString(n / 10);
      DigitsValueOfNatToString(n / 10);
    }
  }

  lemma {:induction false} DigitPrefixOfDigits(s: string)
    requires AllDigits(s)
    ensures DigitPrefix(s) == s
  {
    if s != [] {
      DigitPrefixOfDigits(s[1..]);
    }
  }

  /** A numeral, signed or not, parses to its value. */
  lemma ParseNumeral(ds: string)
    requires ds != [] && AllDigits(ds)
    ensures ParseNumber(ds) == Some(DigitsValue(ds))
    ensures ParseNumber("-" + ds) == Some(0 - DigitsValue(ds) as int)
  {
    DigitPrefixOfDigits(ds);
    assert TrimStart(ds) == ds by { assert !IsWhitespace(ds[0]); }
    var neg := "-" + ds;
    assert TrimStart(neg) == neg by { assert !IsWhitespace(neg[0]); }
    assert neg[1..] == ds;
  }

  /** Parsing what `toString` printed gives the number back. */
  lemma ParseIntToString(n: int)
    ensures ParseNumber(IntToString(n)) == Some(n)
  {
    var m: nat := if n < 0 then -n else n;
    ParseNumeral(NatToString(m));
    DigitsValueOfNatToString(m);
  }

  /** Text without any digit (the empty string, blank text, words) parses to `NaN`. */
  lemma ParseWithoutDigits(s: string)
    requires forall i :: 0 <= i < |s| ==> !IsDigit(s[i])
    ensures ParseNumber(s) == None
  {
    var t := TrimStart(s);
    var unsigned := if |t| > 0 && (t[0] == '-' || t[0] == '+') then t[1..] else t;
    if unsigned != [] {
      assert unsigned[0] == s[|s| - |unsigned|];
    }
  }
}
