/**
 * The part of Python's `str` surface the ingestion path relies on: the
 * decimal conversions `str(n)` (document-store ids), `int(s)` and `float(s)`,
 * together with the string utilities they need or sit beside, `s.strip()`,
 * `s.split('.')` and `'.'.join(parts)` (dotted IP addresses).
 */
module Decimal {

  import opened Wrappers

  predicate IsDigit(c: char) {
    '0' <= c <= '9'
  }

  function DigitValue(c: char): (d: nat)
    requires IsDigit(c)
    ensures d < 10
  {
    (c as int - '0' as int) as nat
  }

  function DigitChar(d: nat): (c: char)
    requires d < 10
    ensures IsDigit(c) && DigitValue(c) == d
  {
    (d + '0' as int) as char
  }

  /** Python's `str(n)` for a non-negative int: no sign, no leading zero. */
  function NatToString(n: nat): (s: string)
    ensures |s| >= 1
    ensures forall i :: 0 <= i < |s| ==> IsDigit(s[i])
    ensures |s| > 1 ==> s[0] != '0'
  {
    if n < 10 then [DigitChar(n)] else NatToString(n / 10) + [DigitChar(n % 10)]
  }

  /** Python's `str(i)` for any int. */
  function IntToString(i: int): (s: string)
    ensures |s| >= 1
  {
    if i < 0 then "-" + NatToString(-i) else NatToString(i)
  }

  /** The characters `str.strip()` and `int()` treat as white space (`str.isspace`). */
  predicate IsSpace(c: char) {
    || c == ' ' || '\t' <= c <= '\r' || '\U{1C}' <= c <= '\U{1F}'
    || c == '\U{85}' || c == '\U{A0}' || c == '\U{1680}' || '\U{2000}' <= c <= '\U{200A}'
    || c == '\U{2028}' || c == '\U{2029}' || c == '\U{202F}' || c == '\U{205F}' || c == '\U{3000}'
  }

  function TrimLeft(s: string): (t: string)
    ensures |t| <= |s| && t == s[|s| - |t|..]
    ensures forall i :: 0 <= i < |s| - |t| ==> IsSpace(s[i])
    ensures |t| > 0 ==> !IsSpace(t[0])
  {
    if |s| > 0 && IsSpace(s[0]) then TrimLeft(s[1..]) else s
  }

  function TrimRight(s: string): (t: string)
    ensures |t| <= |s| && t == s[..|t|]
    ensures forall i :: |t| <= i < |s| ==> IsSpace(s[i])
    ensures |t| > 0 ==> !IsSpace(t[|t| - 1])
  {
    if |s| > 0 && IsSpace(s[|s| - 1]) then TrimRight(s[..|s| - 1]) else s
  }

  /** Python's `s.strip()`. */
  function Strip(s: string): string {
    TrimRight(TrimLeft(s))
  }

  /** Every character `strip()` removes is white space; every other one is kept. */
  lemma StrippedChars(s: string)
    ensures forall k :: 0 <= k < |s| ==> IsSpace(s[k]) || s[k] in Strip(s)
  {
    var l := TrimLeft(s);
    var t := Strip(s);
    forall k | 0 <= k < |s| && !IsSpace(s[k]) ensures s[k] in t {
      var m := k - (|s| - |l|);
      assert 0 <= m < |l| && l[m] == s[k];
      assert m < |t| && t[m] == l[m];
    }
  }

  /** The characters an `int()` literal may contain. */
  predicate IntChar(c: char) {
    IsDigit(c) || IsSpace(c) || c == '+' || c == '-' || c == '_'
  }

  /** The characters a plain decimal `float()` literal may contain. */
  predicate FloatChar(c: char) {
    IsDigit(c) || IsSpace(c) || c == '+' || c == '-' || c == '.'
  }

  /**
   * The digit part `int()` accepts: ASCII digits, where a single `_` may stand
   * between two digits.
   */
  predicate DigitGroups(t: string) {
    && |t| > 0
    && IsDigit(t[0]) && IsDigit(t[|t| - 1])
    && (forall i :: 0 <= i < |t| ==> IsDigit(t[i]) || t[i] == '_')
    && (forall i :: 0 <= i < |t| - 1 && t[i] == '_' ==> IsDigit(t[i + 1]))
  }

  /** The number written by the digits of `t`, skipping underscores. */
  function DigitsValue(t: string): nat
    requires forall i :: 0 <= i < |t| ==> IsDigit(t[i]) || t[i] == '_'
  {
    if t == [] then 0
    else if t[|t| - 1] == '_' then DigitsValue(t[..|t| - 1])
    else 10 * DigitsValue(t[..|t| - 1]) + DigitValue(t[|t| - 1])
  }

  /**
   * `int()` on an already stripped literal: an optional sign, then decimal
   * digit groups. Anything else is a `ValueError`, here `None`.
   */
  function ParseIntLiteral(t: string): (r: Option<int>)
    ensures r.Some? ==> exists k :: 0 <= k < |t| && IsDigit(t[k])
    ensures r.Some? ==> forall k :: 0 <= k < |t| ==> IntChar(t[k])
    ensures |t| > 0 && AllDigits(t) ==> r == Some(DigitsValue(t))
    ensures |t| > 1 && t[0] == '-' && AllDigits(t[1..]) ==> r == Some(-(DigitsValue(t[1..]) as int))
  {
    if |t| > 0 && (t[0] == '+' || t[0] == '-') then
      if DigitGroups(t[1..]) then
        var v: int := DigitsValue(t[1..]);
        assert t[1..][0] == t[1];
        assert forall k :: 1 <= k < |t| ==> t[k] == t[1..][k - 1];
        Some(if t[0] == '-' then -v else v)
      else None
    else if DigitGroups(t) then
      Some(DigitsValue(t))
    else None
  }

  /**
   * Python's `int(s)` on a string: surrounding white space, an optional sign,
   * then decimal digit groups. Anything else is a `ValueError`, here `None`.
   */
  function ParseInt(s: string): (r: Option<int>)
    ensures r.Some? ==> exists k :: 0 <= k < |s| && IsDigit(s[k])
  {
    var r := ParseIntLiteral(Strip(s));
    if r.Some? then
      DigitOfStripped(s);
      r
    else r
  }

  /** `int(s)` accepts only digits, signs, underscores and white space: `int("1a")` raises. */
  lemma ParseIntChars(s: string)
    ensures ParseInt(s).Some? ==> forall k :: 0 <= k < |s| ==> IntChar(s[k])
  {
    if ParseInt(s).Some? {
      IntCharsOfStripped(s);
    }
  }

  /** A non-empty string of ASCII digits, leading zeros allowed, is read as the number those digits write. */
  lemma ParseIntOfDigits(s: string)
    requires |s| > 0 && AllDigits(s)
    ensures ParseInt(s) == Some(DigitsValue(s))
  {
    StripUnchanged(s);
  }

  /** A minus sign followed by ASCII digits is read as the negated number. */
  lemma ParseIntOfNegativeDigits(s: string)
    requires |s| > 1 && s[0] == '-' && AllDigits(s[1..])
    ensures ParseInt(s) == Some(-(DigitsValue(s[1..]) as int))
  {
    assert s[|s| - 1] == s[1..][|s| - 2];
    StripUnchanged(s);
  }

  /** The characters `strip()` keeps are all `int()` characters, so every character is one. */
  lemma IntCharsOfStripped(s: string)
    requires forall j :: 0 <= j < |Strip(s)| ==> IntChar(Strip(s)[j])
    ensures forall k :: 0 <= k < |s| ==> IntChar(s[k])
  {
    StrippedChars(s);
  }

  /** The same for the characters of a plain decimal `float()` literal. */
  lemma FloatCharsOfStripped(s: string)
    requires forall j :: 0 <= j < |Strip(s)| ==> FloatChar(Strip(s)[j])
    ensures forall k :: 0 <= k < |s| ==> FloatChar(s[k])
  {
    StrippedChars(s);
  }

  /** A digit `strip()` keeps is a digit of the string. */
  lemma DigitOfStripped(s: string)
    requires exists j :: 0 <= j < |Strip(s)| && IsDigit(Strip(s)[j])
    ensures exists k :: 0 <= k < |s| && IsDigit(s[k])
  {
    var j :| 0 <= j < |Strip(s)| && IsDigit(Strip(s)[j]);
    ThereIsADigit(s, Strip(s), j);
  }

  lemma ThereIsADigit(s: string, t: string, j: nat)
    requires t == Strip(s) && j < |t| && IsDigit(t[j])
    ensures exists k :: 0 <= k < |s| && IsDigit(s[k])
  {
    var l := TrimLeft(s);
    assert t == l[..|t|];
    assert l == s[|s| - |l|..];
    assert s[|s| - |l| + j] == t[j];
  }

  /** `int(str(i)) == i`: the decimal rendering parses back to the same number. */
  lemma {:induction false} DigitsValueOfNatToString(n: nat)
    ensures DigitsValue(NatToString(n)) == n
  {
    var s := NatToString(n);
    if n >= 10 {
      DigitsValueOfNatToString(n / 10);
      assert s[..|s| - 1] == NatToString(n / 10);
    }
  }

  lemma StripUnchanged(s: string)
    requires |s| > 0 && !IsSpace(s[0]) && !IsSpace(s[|s| - 1])
    ensures Strip(s) == s
  {
  }

  lemma ParseIntOfIntToString(i: int)
    ensures ParseInt(IntToString(i)) == Some(i)
  {
    var s := IntToString(i);
    var m := if i < 0 then -i else i;
    var digits := NatToString(m);
    DigitsValueOfNatToString(m);
    StripUnchanged(s);
    if i < 0 {
      assert s[1..] == digits;
    }
  }

  /** `float(str(i)) == i`: the decimal rendering of an int parses as a float to the same number. */
  lemma ParseFloatOfIntToString(i: int)
    ensures ParseFloat(IntToString(i)) == Some(i as real)
  {
    var s := IntToString(i);
    var m := if i < 0 then -i else i;
    var digits := NatToString(m);
    DigitsValueOfNatToString(m);
    StripUnchanged(s);
    if i < 0 {
      assert s[1..] == digits;
    }
  }

  /** The string of a non-negative int is determined by the number (str is injective). */
  lemma NatToStringInjective(m: nat, n: nat)
    requires NatToString(m) == NatToString(n)
    ensures m == n
  {
    DigitsValueOfNatToString(m);
    DigitsValueOfNatToString(n);
  }

  /**
   * Python's `float(s)` on a string, for the plain decimal forms: surrounding
   * white space, an optional sign, then `ddd`, `ddd.`, `.ddd` or `ddd.ddd`.
   */
  function ParseFloat(s: string): (r: Option<real>)
    ensures r.Some? ==> exists k :: 0 <= k < |s| && IsDigit(s[k])
    ensures r.Some? ==> forall k :: 0 <= k < |s| ==> FloatChar(s[k])
  {
    var r := ParseFloatLiteral(Strip(s));
    if r.Some? then
      FloatCharsOfStripped(s);
      DigitOfStripped(s);
      r
    else r
  }

  /** A non-empty string of ASCII digits is read as the number those digits write. */
  lemma ParseFloatOfDigits(s: string)
    requires |s| > 0 && AllDigits(s)
    ensures ParseFloat(s) == Some(DigitsValue(s) as real)
  {
    StripUnchanged(s);
  }

  /** `float()` on an already stripped literal: an optional sign, then `ddd`, `ddd.`, `.ddd` or `ddd.ddd`. */
  function ParseFloatLiteral(t: string): (r: Option<real>)
    ensures r.Some? ==> exists k :: 0 <= k < |t| && IsDigit(t[k])
    ensures r.Some? ==> forall k :: 0 <= k < |t| ==> FloatChar(t[k])
    ensures |t| > 0 && AllDigits(t) ==> r == Some(DigitsValue(t) as real)
  {
    var signed := |t| > 0 && (t[0] == '+' || t[0] == '-');
    var body := if signed then t[1..] else t;
    assert signed ==> forall k :: 1 <= k < |t| ==> t[k] == body[k - 1];
    match DecimalValue(body)
    case None => None
    case Some(v) => Some(if signed && t[0] == '-' then -v else v)
  }

  predicate AllDigits(t: string) {
    forall i :: 0 <= i < |t| ==> IsDigit(t[i])
  }

  function Power10(n: nat): (p: nat)
    ensures p >= 1
  {
    if n == 0 then 1 else 10 * Power10(n - 1)
  }

  /** The position of the first dot in `s`, or `|s|` when there is none. */
  function DotIndex(s: string): (k: nat)
    ensures k <= |s|
    ensures forall j :: 0 <= j < k ==> s[j] != '.'
    ensures k < |s| ==> s[k] == '.'
  {
    if s == [] || s[0] == '.' then 0 else 1 + DotIndex(s[1..])
  }

  /** The value of `ddd`, `ddd.`, `.ddd` or `ddd.ddd` (at least one digit). */
  function DecimalValue(body: string): (r: Option<real>)
    ensures r.Some? ==> (exists k :: 0 <= k < |body| && IsDigit(body[k]))
                        && forall k :: 0 <= k < |body| ==> IsDigit(body[k]) || body[k] == '.'
    ensures |body| > 0 && AllDigits(body) ==> r == Some(DigitsValue(body) as real)
  {
    var k := DotIndex(body);
    if k < |body| then
      var whole, fraction := body[..k], body[k + 1..];
      if AllDigits(whole) && AllDigits(fraction) && |whole| + |fraction| > 0 then
        Some(DigitsValue(whole) as real + DigitsValue(fraction) as real / Power10(|fraction|) as real)
      else None
    else if |body| > 0 && AllDigits(body) then Some(DigitsValue(body) as real)
    else None
  }

  /** Python's `s.split('.')`: at least one part, none containing a dot. */
  function Split(s: string): (parts: seq<string>)
    ensures |parts| >= 1
    ensures forall i, j :: 0 <= i < |parts| && 0 <= j < |parts[i]| ==> parts[i][j] != '.'
  {
    if s == [] then [[]]
    else
      var rest := Split(s[1..]);
      if s[0] == '.' then [[]] + rest
      else [[s[0]] + rest[0]] + rest[1..]
  }

  /** Every character of `s` is a dot or a character of one of its parts. */
  lemma {:induction false} IntCharsOfSplit(s: string)
    requires forall i, j :: 0 <= i < |Split(s)| && 0 <= j < |Split(s)[i]| ==> IntChar(Split(s)[i][j])
    ensures forall k :: 0 <= k < |s| ==> s[k] == '.' || IntChar(s[k])
  {
    if s != [] {
      var parts, rest := Split(s), Split(s[1..]);
      if s[0] == '.' {
        assert forall i :: 0 <= i < |rest| ==> rest[i] == parts[i + 1];
      } else {
        assert parts[0] == [s[0]] + rest[0];
        assert IntChar(parts[0][0]) && parts[0][0] == s[0];
        assert forall j :: 0 <= j < |rest[0]| ==> rest[0][j] == parts[0][j + 1];
        assert forall i :: 1 <= i < |rest| ==> rest[i] == parts[i];
      }
      IntCharsOfSplit(s[1..]);
      assert forall k :: 1 <= k < |s| ==> s[k] == s[1..][k - 1];
    }
  }

  /** Python's `'.'.join(parts)` for a non-empty list. */
  function Join(parts: seq<string>): string
    requires |parts| >= 1
  {
    if |parts| == 1 then parts[0] else parts[0] + "." + Join(parts[1..])
  }

  /** Splitting on dots and joining with dots gives the original string back. */
  lemma {:induction false} JoinSplit(s: string)
    ensures Join(Split(s)) == s
  {
    if s != [] {
      JoinSplit(s[1..]);
      var rest := Split(s[1..]);
      if s[0] != '.' {
        if |rest| == 1 {
        } else {
          assert Join(rest) == rest[0] + "." + Join(rest[1..]);
        }
      }
    }
  }

  lemma {:induction false} SplitJoinFirst(p: string, tail: string)
    requires forall j :: 0 <= j < |p| ==> p[j] != '.'
    ensures Split(p + tail) == [p + Split(tail)[0]] + Split(tail)[1..]
  {
    if p == [] {
      assert p + tail == tail;
      assert [] + Split(tail)[0] == Split(tail)[0];
    } else {
      SplitJoinFirst(p[1..], tail);
      assert (p + tail)[0] == p[0];
      assert (p + tail)[1..] == p[1..] + tail;
      assert [p[0]] + (p[1..] + Split(tail)[0]) == p + Split(tail)[0];
    }
  }

  /** Joining dot-free parts with dots and splitting again gives the parts back. */
  lemma {:induction false} SplitJoin(parts: seq<string>)
    requires |parts| >= 1
    requires forall i, j :: 0 <= i < |parts| && 0 <= j < |parts[i]| ==> parts[i][j] != '.'
    ensures Split(Join(parts)) == parts
  {
    if |parts| == 1 {
      SplitJoinFirst(parts[0], []);
      assert parts[0] + [] == parts[0];
    } else {
      SplitJoin(parts[1..]);
      var tail := "." + Join(parts[1..]);
      SplitJoinFirst(parts[0], tail);
      assert tail[0] == '.' && tail[1..] == Join(parts[1..]);
      assert Split(tail) == [[]] + parts[1..];
      assert parts[0] + [] == parts[0];
      assert Join(parts) == parts[0] + tail;
      assert parts == [parts[0]] + parts[1..];
    }
  }
}
