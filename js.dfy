/** The small part of JavaScript's semantics that the library's request
    shaping relies on: `undefined`, string concatenation with a possibly
    undefined value, ASCII case mapping, `String.prototype.indexOf`,
    `Number.prototype.toString` on integers, and JSON-serialisable values. */
module Js {

  /** A possibly `undefined` value. */
  datatype Option<+T> = None | Some(value: T)

  /** A JSON-serialisable value (numbers restricted to integers). */
  datatype Json =
    | JNull
    | JBool(b: bool)
    | JNumber(n: int)
    | JString(s: string)
    | JArray(items: seq<Json>)
    | JObject(fields: map<string, Json>)

  /** `'' + v` for a string-or-undefined `v`: `undefined` prints as "undefined". */
  function Str(v: Option<string>): (r: string)
    ensures v.Some? ==> r == v.value
    ensures v.None? ==> r == "undefined"
  {
    match v
    case Some(s) => s
    case None => "undefined"
  }

  /** JavaScript truthiness of a string-or-undefined value. */
  predicate Truthy(v: Option<string>)
  {
    v.Some? && |v.value| > 0
  }

  // ---------------------------------------------------------------
  // Case mapping (ASCII letters only)
  // ---------------------------------------------------------------

  predicate IsUpper(c: char) { 'A' <= c <= 'Z' }
  predicate IsLower(c: char) { 'a' <= c <= 'z' }

  function LowerChar(c: char): char
  {
    if IsUpper(c) then (c as int + 32) as char else c
  }

  function UpperChar(c: char): char
  {
    if IsLower(c) then (c as int - 32) as char else c
  }

  /** `s.toLowerCase()`: every ASCII upper-case letter is lowered, nothing else moves. */
  function ToLower(s: string): (r: string)
    ensures |r| == |s|
    ensures forall i :: 0 <= i < |s| ==> r[i] == LowerChar(s[i])
  {
    if s == [] then [] else [LowerChar(s[0])] + ToLower(s[1..])
  }

  /** `s.toUpperCase()`: every ASCII lower-case letter is raised, nothing else moves. */
  function ToUpper(s: string): (r: string)
    ensures |r| == |s|
    ensures forall i :: 0 <= i < |s| ==> r[i] == UpperChar(s[i])
  {
    if s == [] then [] else [UpperChar(s[0])] + ToUpper(s[1..])
  }

  /** Upper-casing forgets the case of the argument: comparing
      `m.toUpperCase()` with a constant is a case-insensitive comparison. */
  lemma UpperIgnoresCase(s: string)
    ensures ToUpper(ToLower(s)) == ToUpper(s)
  {
    var a, b := ToUpper(ToLower(s)), ToUpper(s);
    assert |a| == |b|;
    forall i | 0 <= i < |s| ensures a[i] == b[i] {
    }
  }

  /** A string without upper-case letters is its own lower-case form. */
  lemma ToLowerFixed(s: string)
    requires forall i :: 0 <= i < |s| ==> !IsUpper(s[i])
    ensures ToLower(s) == s
  {
    var r := ToLower(s);
    assert forall i :: 0 <= i < |s| ==> r[i] == s[i];
  }

  /** A string without lower-case letters is its own upper-case form. */
  lemma ToUpperFixed(s: string)
    requires forall i :: 0 <= i < |s| ==> !IsLower(s[i])
    ensures ToUpper(s) == s
  {
    var r := ToUpper(s);
    assert forall i :: 0 <= i < |s| ==> r[i] == s[i];
  }

  // ---------------------------------------------------------------
  // indexOf
  // ---------------------------------------------------------------

  /** `needle` occurs in `s` starting at index `i`. */
  predicate OccursAt(s: string, needle: string, i: int)
  {
    0 <= i && i + |needle| <= |s| && s[i..i + |needle|] == needle
  }

  lemma OccursAtShift(s: string, needle: string, j: int)
    requires |s| > 0 && 0 <= j
    ensures OccursAt(s[1..], needle, j) <==> OccursAt(s, needle, j + 1)
  {
    if j + |needle| <= |s[1..]| {
      assert s[1..][j..j + |needle|] == s[j + 1..j + 1 + |needle|];
    }
  }

  /** Occurrences in `s[1..]` are the occurrences in `s` after index 0. */
  lemma IndexOfStep(s: string, needle: string)
    requires |needle| <= |s| && s[..|needle|] != needle
    ensures forall j :: OccursAt(s, needle, j) ==> 0 < j
    ensures forall j :: 0 < j ==> (OccursAt(s, needle, j) <==> OccursAt(s[1..], needle, j - 1))
  {
    forall j | 0 < j ensures OccursAt(s, needle, j) <==> OccursAt(s[1..], needle, j - 1) {
      OccursAtShift(s, needle, j - 1);
    }
  }

  /** `s.indexOf(needle)`: the first index at which `needle` occurs, or -1. */
  function IndexOf(s: string, needle: string): (r: int)
    ensures -1 <= r
    ensures r >= 0 ==> OccursAt(s, needle, r)
    ensures r >= 0 ==> forall j :: 0 <= j < r ==> !OccursAt(s, needle, j)
    ensures r == -1 ==> forall j :: !OccursAt(s, needle, j)
    decreases |s|
  {
    if |needle| > |s| then -1
    else if s[..|needle|] == needle then 0
    else
      var k := IndexOf(s[1..], needle);
      IndexOfStep(s, needle);
      if k < 0 then -1 else k + 1
  }

  /** `s.indexOf(needle) > 0` holds exactly when `needle` does not start `s`
      but occurs somewhere further on. */
  lemma IndexOfPositive(s: string, needle: string)
    ensures IndexOf(s, needle) > 0 <==>
            !OccursAt(s, needle, 0) && exists i :: 0 < i && OccursAt(s, needle, i)
  {
    var r := IndexOf(s, needle);
    if !OccursAt(s, needle, 0) && exists i :: 0 < i && OccursAt(s, needle, i) {
      var i :| 0 < i && OccursAt(s, needle, i);
      assert r != -1;
      assert r != 0;
    }
  }

  // ---------------------------------------------------------------
  // Number.prototype.toString on integers, and its inverse
  // ---------------------------------------------------------------

  predicate IsDigit(c: char) { '0' <= c <= '9' }

  predicate AllDigits(s: string) { forall i :: 0 <= i < |s| ==> IsDigit(s[i]) }

  function DigitChar(d: nat): char
    requires d < 10
  {
    ('0' as int + d) as char
  }

  /** The decimal numeral of `n`, without leading zeros. */
  function NatToString(n: nat): (r: string)
    ensures |r| > 0 && AllDigits(r)
    ensures r[0] == '0' ==> n == 0
    decreases n
  {
    if n < 10 then [DigitChar(n)] else NatToString(n / 10) + [DigitChar(n % 10)]
  }

  /** `i.toString()` for a safe integer, one of magnitude at most 2^53
      (beyond that not every integer is a Number, larger ones may print
      rounded digits, and from 10^21 on they print in exponent form; this
      model leaves those out). */
  function IntToString(i: int): (r: string)
    ensures |r| > 0
    ensures i >= 0 ==> AllDigits(r)
    ensures i < 0 ==> r[0] == '-' && AllDigits(r[1..])
    ensures i >= 0 ==> DigitsValue(r) == i
    ensures i < 0 ==> DigitsValue(r[1..]) == -i
    ensures i >= 0 ==> (r[0] == '0' ==> i == 0)
    ensures i < 0 ==> |r| > 1 && r[1] != '0'
  {
    NatToStringRoundTrip(if i < 0 then -i else i);
    if i < 0 then "-" + NatToString(-i) else NatToString(i)
  }

  /** The value of a string of decimal digits. */
  function DigitsValue(s: string): nat
    requires AllDigits(s)
  {
    if s == [] then 0 else DigitsValue(s[..|s| - 1]) * 10 + (s[|s| - 1] as int - '0' as int)
  }

  /** Reading the numeral back gives the number: the numeral loses nothing. */
  lemma {:induction false} NatToStringRoundTrip(n: nat)
    ensures DigitsValue(NatToString(n)) == n
    decreases n
  {
    if n >= 10 {
      NatToStringRoundTrip(n / 10);
      var s := NatToString(n);
      assert s[..|s| - 1] == NatToString(n / 10);
    }
  }

  lemma NatToStringInjective(m: nat, n: nat)
    requires NatToString(m) == NatToString(n)
    ensures m == n
  {
    NatToStringRoundTrip(m);
    NatToStringRoundTrip(n);
  }

  /** The longest prefix of `s` made of digits. */
  function LeadingDigits(s: string): (r: string)
    ensures AllDigits(r) && |r| <= |s| && r == s[..|r|]
    ensures |r| < |s| ==> !IsDigit(s[|r|])
  {
    if s != [] && IsDigit(s[0]) then [s[0]] + LeadingDigits(s[1..]) else []
  }

  /** A numeral followed by anything that does not start with a digit is
      read back as exactly that numeral. */
  lemma {:induction false} LeadingDigitsOfNumeral(d: string, rest: string)
    requires AllDigits(d)
    requires rest == [] || !IsDigit(rest[0])
    ensures LeadingDigits(d + rest) == d
  {
    if d != [] {
      assert (d + rest)[1..] == d[1..] + rest;
      LeadingDigitsOfNumeral(d[1..], rest);
    }
  }
}
