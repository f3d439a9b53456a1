/**
 * The few pieces of JavaScript semantics the webhook handlers rely on:
 * destructuring a field out of a parsed request body, truthiness of a
 * string field, `String.prototype.toUpperCase`, `String.prototype.includes`,
 * the global `parseInt` and `Array.prototype.slice(0, end)`.
 */
module Js {
  import opened Wrappers

  /** One own property of a parsed JSON request body. */
  datatype Entry = Entry(key: string, value: string)

  /** A parsed request body: its properties in `Object.keys` order (keys are distinct). */
  type Body = seq<Entry>

  /** `body[key]`: the value of the property, or `undefined` when there is none. */
  function Field(body: Body, key: string): (r: Option<string>)
    ensures r.Some? <==> exists i :: 0 <= i < |body| && body[i].key == key
    ensures r.Some? ==> exists i :: 0 <= i < |body| && body[i] == Entry(key, r.value)
  {
    if body == [] then None
    else if body[0].key == key then Some(body[0].value)
    else Field(body[1..], key)
  }

  /** `Object.keys(body)`. */
  function Keys(body: Body): seq<string>
  {
    seq(|body|, i requires 0 <= i < |body| => body[i].key)
  }

  /** A string-or-undefined value is truthy when it is present and not the empty string. */
  predicate Truthy(v: Option<string>)
  {
    v.Some? && v.value != ""
  }

  /** `v || fallback` for a string-or-undefined value. */
  function OrElse(v: Option<string>, fallback: string): string
  {
    if Truthy(v) then v.value else fallback
  }

  // ---------------------------------------------------------------------------
  // toUpperCase (ASCII letters only)

  function UpperChar(c: char): char
  {
    if 'a' <= c <= 'z' then (c as int - 32) as char else c
  }

  predicate IsLowerAscii(c: char) { 'a' <= c <= 'z' }

  /** No character of `s` is a lower-case ASCII letter. */
  predicate IsUpper(s: string)
  {
    forall i :: 0 <= i < |s| ==> !IsLowerAscii(s[i])
  }

  /** `s.toUpperCase()`: maps each lower-case ASCII letter to its capital, every other character to itself. */
  function Upper(s: string): (r: string)
    ensures |r| == |s| && IsUpper(r)
    ensures forall i :: 0 <= i < |s| ==>
      if IsLowerAscii(s[i]) then r[i] as int == s[i] as int - 32 else r[i] == s[i]
  {
    seq(|s|, i requires 0 <= i < |s| => UpperChar(s[i]))
  }

  /** `c` and `d` are the same character, or the same ASCII letter in the two cases. */
  predicate SameIgnoringCase(c: char, d: char)
  {
    c == d || (IsLowerAscii(c) && d as int == c as int - 32) || (IsLowerAscii(d) && c as int == d as int - 32)
  }

  /** Two strings have the same upper-case form exactly when they differ only in the case of ASCII letters. */
  lemma UpperIgnoresCase(a: string, b: string)
    ensures Upper(a) == Upper(b) <==> |a| == |b| && forall i :: 0 <= i < |a| ==> SameIgnoringCase(a[i], b[i])
  {
    if |a| == |b| && forall i :: 0 <= i < |a| ==> SameIgnoringCase(a[i], b[i]) {
      forall i | 0 <= i < |a| ensures Upper(a)[i] == Upper(b)[i] {
        assert SameIgnoringCase(a[i], b[i]);
      }
    }
  }

  /** A string with no lower-case letter is its own upper-case form. */
  lemma UpperOfUpperIsIdentity(s: string)
    requires IsUpper(s)
    ensures Upper(s) == s
  {
    assert forall i :: 0 <= i < |s| ==> Upper(s)[i] == s[i];
  }

  // ---------------------------------------------------------------------------
  // includes

  /** `sub` occurs in `s` starting at position `i`. */
  predicate OccursAt(s: string, sub: string, i: nat)
  {
    i + |sub| <= |s| && s[i..i + |sub|] == sub
  }

  /** `s.includes(sub)`: `sub` occurs in `s` at some position. */
  function Contains(s: string, sub: string): (r: bool)
    ensures r <==> exists i: nat :: OccursAt(s, sub, i)
    decreases |s|
  {
    if |sub| > |s| then false
    else if s[..|sub|] == sub then assert OccursAt(s, sub, 0); true
    else
      var r := Contains(s[1..], sub);
      assert r ==> exists i: nat :: OccursAt(s, sub, i) by {
        if r {
          var j: nat :| OccursAt(s[1..], sub, j);
          assert s[j + 1..j + 1 + |sub|] == s[1..][j..j + |sub|];
          assert OccursAt(s, sub, j + 1);
        }
      }
      assert (exists i: nat :: OccursAt(s, sub, i)) ==> r by {
        if i: nat :| OccursAt(s, sub, i) {
          assert i != 0;
          assert s[1..][i - 1..i - 1 + |sub|] == s[i..i + |sub|];
          assert OccursAt(s[1..], sub, i - 1);
        }
      }
      r
  }

  /** A string cannot contain a piece that has a character it lacks. */
  lemma MissingCharNotContained(s: string, sub: string, c: char)
    requires c in sub && c !in s
    ensures !Contains(s, sub)
  {
  }

  // ---------------------------------------------------------------------------
  // parseInt(s) without a radix

  /** The StrWhiteSpaceChar set of ECMAScript: WhiteSpace and LineTerminator code points. */
  predicate IsWhiteSpace(c: char)
  {
    c == '\t' || c == '\n' || c == '\U{B}' || c == '\U{C}' || c == '\r' || c == ' '
    || c == '\U{A0}' || c == '\U{1680}' || ('\U{2000}' <= c <= '\U{200A}')
    || c == '\U{2028}' || c == '\U{2029}' || c == '\U{202F}' || c == '\U{205F}'
    || c == '\U{3000}' || c == '\U{FEFF}'
  }

  /** Drops the leading white space. */
  function TrimStart(s: string): (r: string)
    ensures |r| <= |s| && r == s[|s| - |r|..]
    ensures forall i :: 0 <= i < |s| - |r| ==> IsWhiteSpace(s[i])
    ensures r != [] ==> !IsWhiteSpace(r[0])
  {
    if s != [] && IsWhiteSpace(s[0]) then
      var r := TrimStart(s[1..]);
      assert forall i :: 1 <= i < |s| - |r| ==> s[i] == s[1..][i - 1];
      r
    else s
  }

  /** The value of `c` as a digit in bases up to 36, or 36 when it is not one. */
  function DigitValue(c: char): (d: nat)
    ensures d <= 36
  {
    if '0' <= c <= '9' then c as int - '0' as int
    else if 'a' <= c <= 'z' then c as int - 'a' as int + 10
    else if 'A' <= c <= 'Z' then c as int - 'A' as int + 10
    else 36
  }

  /** The longest prefix of `s` made of digits of the given radix. */
  function DigitPrefix(s: string, radix: nat): (z: string)
    ensures z <= s
    ensures forall i :: 0 <= i < |z| ==> DigitValue(z[i]) < radix
    ensures |z| < |s| ==> DigitValue(s[|z|]) >= radix
  {
    if s != [] && DigitValue(s[0]) < radix then [s[0]] + DigitPrefix(s[1..], radix) else []
  }

  /** The number a string of digits denotes in the given radix. */
  function DigitsValue(z: string, radix: nat): nat
    requires forall i :: 0 <= i < |z| ==> DigitValue(z[i]) < radix
  {
    if z == [] then 0 else DigitsValue(z[..|z| - 1], radix) * radix + DigitValue(z[|z| - 1])
  }

  /** The sign and the digits `parseInt` reads after leading white space, and their radix. */
  function SignedDigits(s: string): (bool, string, nat)
  {
    ReadSign(TrimStart(s))
  }

  /** The sign, the digits and their radix at the start of `t`, which has no leading white space. */
  function ReadSign(t: string): (bool, string, nat)
  {
    var negative := t != [] && t[0] == '-';
    var u := if t != [] && (t[0] == '-' || t[0] == '+') then t[1..] else t;
    if |u| >= 2 && u[0] == '0' && (u[1] == 'x' || u[1] == 'X') then (negative, u[2..], 16)
    else (negative, u, 10)
  }

  /**
   * `parseInt(s)`: `None` stands for `NaN`. Leading white space is skipped, one sign is read,
   * a `0x`/`0X` prefix switches to base 16, and the longest run of digits that follows is read.
   * `-0` is the same integer as `0`.
   */
  function ParseInt(s: string): (r: Option<int>)
    ensures var t := TrimStart(s);
      (t == [] || !(t[0] == '+' || t[0] == '-' || '0' <= t[0] <= '9')) ==> r.None?
    ensures var t := TrimStart(s);
      t != [] && '1' <= t[0] <= '9' ==> r.Some? && r.value > 0
  {
    var sd := SignedDigits(s);
    var z := DigitPrefix(sd.1, sd.2);
    if z == [] then None
    else
      var n: int := DigitsValue(z, sd.2);
      LeadingDigitBound(z, sd.2);
      Some(if sd.0 then -n else n)
  }

  /** A run of digits is worth at least its leading digit. */
  lemma {:induction false} LeadingDigitBound(z: string, radix: nat)
    requires z != [] && forall i :: 0 <= i < |z| ==> DigitValue(z[i]) < radix
    ensures DigitsValue(z, radix) >= DigitValue(z[0])
  {
    if |z| > 1 {
      var p := z[..|z| - 1];
      assert p[0] == z[0];
      assert forall i :: 0 <= i < |p| ==> DigitValue(p[i]) < radix;
      LeadingDigitBound(p, radix);
      AtLeastOnce(DigitsValue(p, radix), radix);
    }
  }

  lemma AtLeastOnce(v: nat, radix: nat)
    requires radix >= 1
    ensures v * radix >= v
  {
    var k := radix - 1;
    assert v * radix == v + v * k;
  }

  /** The decimal numeral of `n`, as `String(n)` writes it. */
  function DecimalString(n: nat): (s: string)
    ensures s != []
    ensures forall i :: 0 <= i < |s| ==> '0' <= s[i] <= '9'
    ensures |s| > 1 ==> s[0] != '0'
  {
    var d := [('0' as int + n % 10) as char];
    if n < 10 then d else DecimalString(n / 10) + d
  }

  lemma {:induction false} DecimalDigitsValue(n: nat)
    ensures forall i :: 0 <= i < |DecimalString(n)| ==> DigitValue(DecimalString(n)[i]) < 10
    ensures DigitsValue(DecimalString(n), 10) == n
  {
    var s := DecimalString(n);
    if n >= 10 {
      DecimalDigitsValue(n / 10);
      assert s[..|s| - 1] == DecimalString(n / 10);
    }
  }

  /** The digit prefix of `d + rest` is `d` when `d` is all digits and `rest` does not start with one. */
  lemma DigitPrefixOfConcat(d: string, rest: string, radix: nat)
    requires forall i :: 0 <= i < |d| ==> DigitValue(d[i]) < radix
    requires rest == [] || DigitValue(rest[0]) >= radix
    ensures DigitPrefix(d + rest, radix) == d
  {
    if d != [] {
      assert (d + rest)[1..] == d[1..] + rest;
      DigitPrefixOfConcat(d[1..], rest, radix);
    } else {
      assert d + rest == rest;
    }
  }

  /**
   * `parseInt(String(n) + rest)` gives `n` back when `rest` starts with no digit (nor with the
   * `x` of a hexadecimal prefix): numerals are read exactly, and trailing garbage is ignored.
   */
  lemma ParseDecimal(n: nat, rest: string)
    requires rest == [] || (DigitValue(rest[0]) >= 10 && rest[0] != 'x' && rest[0] != 'X')
    ensures ParseInt(DecimalString(n) + rest) == Some(n)
  {
    var s := DecimalString(n);
    DecimalDigitsValue(n);
    DigitPrefixOfConcat(s, rest, 10);
    SignedDecimal(n, rest);
    ParseIntOf(s + rest, false, s + rest, 10, s);
  }

  /** `parseInt("-" + String(n))` gives `-n`. */
  lemma ParseNegativeDecimal(n: nat)
    ensures ParseInt("-" + DecimalString(n)) == Some(-(n as int))
  {
    var s := DecimalString(n);
    DecimalDigitsValue(n);
    DigitPrefixOfConcat(s, [], 10);
    assert s + [] == s;
    SignedNegativeDecimal(n);
    ParseNegated("-" + s, s, n);
  }

  lemma ParseNegated(m: string, s: string, n: nat)
    requires SignedDigits(m) == (true, s, 10)
    requires forall i :: 0 <= i < |s| ==> DigitValue(s[i]) < 10
    requires DigitPrefix(s, 10) == s != []
    requires DigitsValue(s, 10) == n
    ensures ParseInt(m) == Some(-(n as int))
  {
    ParseIntOf(m, true, s, 10, s);
  }

  /** Unfolds `ParseInt` once the sign, the digits, their radix and the digit prefix are known. */
  lemma ParseIntOf(s: string, negative: bool, u: string, radix: nat, z: string)
    requires SignedDigits(s) == (negative, u, radix)
    requires DigitPrefix(u, radix) == z != []
    ensures ParseInt(s) == Some(if negative then -(DigitsValue(z, radix) as int) else DigitsValue(z, radix))
  {
    var sd := SignedDigits(s);
    assert sd.0 == negative && sd.1 == u && sd.2 == radix;
  }

  lemma SignedDecimal(n: nat, rest: string)
    requires rest == [] || (rest[0] != 'x' && rest[0] != 'X')
    ensures SignedDigits(DecimalString(n) + rest) == (false, DecimalString(n) + rest, 10)
  {
    var s := DecimalString(n);
    var p := s + rest;
    assert p[0] == s[0] && '0' <= s[0] <= '9';
    assert !IsWhiteSpace(p[0]);
    assert |p| >= 2 ==> p[1] != 'x' && p[1] != 'X' by {
      if |p| >= 2 {
        if |s| >= 2 { assert p[1] == s[1] && '0' <= s[1] <= '9'; }
        else { assert p[1] == rest[0]; }
      }
    }
    Unsigned(p);
  }

  /** A string with no leading white space, sign or hexadecimal prefix is read as it stands, in base 10. */
  lemma Unsigned(p: string)
    requires p != [] && !IsWhiteSpace(p[0]) && p[0] != '-' && p[0] != '+'
    requires !(|p| >= 2 && p[0] == '0' && (p[1] == 'x' || p[1] == 'X'))
    ensures SignedDigits(p) == (false, p, 10)
  {
    assert TrimStart(p) == p;
  }

  lemma SignedNegativeDecimal(n: nat)
    ensures SignedDigits("-" + DecimalString(n)) == (true, DecimalString(n), 10)
  {
    var s := DecimalString(n);
    var m := "-" + s;
    assert m[0] == '-' && !IsWhiteSpace(m[0]);
    assert TrimStart(m) == m;
    assert m[1..] == s;
    assert |s| >= 2 ==> s[1] != 'x' && s[1] != 'X' by {
      if |s| >= 2 { assert '0' <= s[1] <= '9'; }
    }
  }

  /** `parseInt` skips leading white space. */
  lemma ParseIntSkipsWhiteSpace(c: char, s: string)
    requires IsWhiteSpace(c)
    ensures ParseInt([c] + s) == ParseInt(s)
  {
    assert ([c] + s)[1..] == s;
    assert TrimStart([c] + s) == TrimStart(s);
    SameDigitsSameValue([c] + s, s);
  }

  /** `parseInt` looks only at the sign, the digits and the radix it reads. */
  lemma SameDigitsSameValue(a: string, b: string)
    requires SignedDigits(a) == SignedDigits(b)
    ensures ParseInt(a) == ParseInt(b)
  {
  }

  // ---------------------------------------------------------------------------
  // Array.prototype.slice(0, end)

  /** `s.slice(0, end)`: a non-negative end keeps the first `end` items, a negative one drops the last `-end`. */
  function SliceTo<T>(s: seq<T>, end: int): (r: seq<T>)
    ensures r <= s
    ensures end >= 0 ==> |r| == Min(end, |s|)
    ensures end < 0 ==> |r| == Max(|s| + end, 0)
  {
    if end >= 0 then s[..Min(end, |s|)] else s[..Max(|s| + end, 0)]
  }
}
