/**
 * Character and string helpers shared by the Python services and the browser code:
 * case mapping, whitespace, trimming, substring search and decimal rendering.
 * Case mapping and whitespace are modelled on ASCII (see README, "Left out").
 */
module Strings {

  predicate IsUpper(c: char) { 'A' <= c <= 'Z' }

  predicate IsLower(c: char) { 'a' <= c <= 'z' }

  /** The ASCII characters JavaScript's `trim()` removes: space, tab, LF, VT, FF and CR. */
  predicate IsSpace(c: char) {
    c == ' ' || c == '\t' || c == '\n' || c == '\r' || c == '\U{000B}' || c == '\U{000C}'
  }

  /**
   * The ASCII characters Python's `\s`, `str.split()` and `str.strip()` treat as
   * whitespace: the six above and the four separators U+001C to U+001F.
   */
  predicate IsPySpace(c: char) {
    IsSpace(c) || '\U{001C}' <= c <= '\U{001F}'
  }

  function LowerChar(c: char): (d: char)
    ensures !IsUpper(d)
    ensures IsSpace(d) <==> IsSpace(c)
    ensures IsPySpace(d) <==> IsPySpace(c)
    ensures !IsUpper(c) ==> d == c
  {
    if IsUpper(c) then (c as int - 'A' as int + 'a' as int) as char else c
  }

  function UpperChar(c: char): (d: char)
    ensures !IsLower(d)
    ensures !IsLower(c) ==> d == c
  {
    if IsLower(c) then (c as int - 'a' as int + 'A' as int) as char else c
  }

  /** `str.lower()`: every character lower-cased, nothing else changed. */
  function Lower(s: string): (r: string)
    ensures |r| == |s|
    ensures forall i :: 0 <= i < |s| ==> r[i] == LowerChar(s[i])
  {
    seq(|s|, i requires 0 <= i < |s| => LowerChar(s[i]))
  }

  predicate NoUpper(s: string) { forall i :: 0 <= i < |s| ==> !IsUpper(s[i]) }

  /** Lower-casing is idempotent. */
  lemma LowerIdempotent(s: string)
    ensures NoUpper(Lower(s))
    ensures Lower(Lower(s)) == Lower(s)
  {
  }

  /** The string without its leading characters of the class `ws`. */
  function DropLeadingSpaces(s: string, ws: char -> bool): (r: string)
    ensures |r| <= |s| && r == s[|s| - |r|..]
    ensures r == [] || !ws(r[0])
    decreases |s|
  {
    if s != [] && ws(s[0]) then DropLeadingSpaces(s[1..], ws) else s
  }

  /** Only whitespace is dropped from the front. */
  lemma {:induction false} DroppedLeadingAreSpaces(s: string, ws: char -> bool)
    ensures forall i :: 0 <= i < |s| - |DropLeadingSpaces(s, ws)| ==> ws(s[i])
    decreases |s|
  {
    if s != [] && ws(s[0]) {
      DroppedLeadingAreSpaces(s[1..], ws);
      assert forall i :: 1 <= i < |s| ==> s[i] == s[1..][i - 1];
    }
  }

  /** The string without its trailing characters of the class `ws`. */
  function DropTrailingSpaces(s: string, ws: char -> bool): (r: string)
    ensures |r| <= |s| && r == s[..|r|]
    ensures r == [] || !ws(r[|r| - 1])
    decreases |s|
  {
    if s != [] && ws(s[|s| - 1]) then DropTrailingSpaces(s[..|s| - 1], ws) else s
  }

  /** Only whitespace is dropped from the back. */
  lemma {:induction false} DroppedTrailingAreSpaces(s: string, ws: char -> bool)
    ensures forall i :: |DropTrailingSpaces(s, ws)| <= i < |s| ==> ws(s[i])
    decreases |s|
  {
    if s != [] && ws(s[|s| - 1]) {
      DroppedTrailingAreSpaces(s[..|s| - 1], ws);
    }
  }

  /**
   * Both ends stripped of the whitespace class `ws`: `str.strip()` in Python with
   * `IsPySpace`, `String.prototype.trim()` in JavaScript with `IsSpace`.
   */
  function Strip(s: string, ws: char -> bool): (r: string)
    ensures |r| <= |s|
  {
    DropTrailingSpaces(DropLeadingSpaces(s, ws), ws)
  }

  /**
   * The stripped text is the piece of the input between a prefix and a suffix made only
   * of whitespace; it has no whitespace at either end, and it is empty exactly when the
   * input is all whitespace.
   */
  lemma StripShape(s: string, ws: char -> bool)
    ensures var r := Strip(s, ws);
      && (r == [] || (!ws(r[0]) && !ws(r[|r| - 1])))
      && (exists a ::
            && OccursAt(s, r, a)
            && (forall i :: 0 <= i < a ==> ws(s[i]))
            && (forall i :: a + |r| <= i < |s| ==> ws(s[i])))
      && ((forall i :: 0 <= i < |s| ==> ws(s[i])) <==> r == [])
  {
    var t := DropLeadingSpaces(s, ws);
    var r := DropTrailingSpaces(t, ws);
    DroppedLeadingAreSpaces(s, ws);
    DroppedTrailingAreSpaces(t, ws);
    var a := |s| - |t|;
    assert OccursAt(s, r, a);
    forall i | a + |r| <= i < |s| ensures ws(s[i]) {
      assert s[i] == t[i - a];
    }
    assert r == [] ==> forall i :: 0 <= i < |s| ==> ws(s[i]) by {
      if r == [] {
        assert t == [];
      }
    }
  }

  /** True when `needle` occurs in `hay` starting at index `i`. */
  predicate OccursAt(hay: string, needle: string, i: int) {
    0 <= i && i + |needle| <= |hay| && hay[i..i + |needle|] == needle
  }

  /** Python's `needle in hay` on strings: a substring test (the empty string occurs everywhere). */
  function Contains(hay: string, needle: string): (b: bool)
    ensures b <==> exists i :: OccursAt(hay, needle, i)
    decreases |hay|
  {
    if |needle| <= |hay| && hay[..|needle|] == needle then
      assert OccursAt(hay, needle, 0);
      true
    else if hay == [] then
      false
    else
      var b := Contains(hay[1..], needle);
      if b then
        var i :| OccursAt(hay[1..], needle, i);
        assert hay[i + 1..i + 1 + |needle|] == hay[1..][i..i + |needle|];
        assert OccursAt(hay, needle, i + 1);
        true
      else
        assert forall i :: !OccursAt(hay, needle, i) by {
          forall i | OccursAt(hay, needle, i) ensures false {
            if i == 0 {
            } else {
              assert hay[1..][i - 1..i - 1 + |needle|] == hay[i..i + |needle|];
              assert OccursAt(hay[1..], needle, i - 1);
            }
          }
        }
        false
  }

  function DigitChar(d: nat): (c: char)
    requires d < 10
    ensures '0' <= c <= '9'
  {
    ('0' as int + d) as char
  }

  /** Decimal rendering of a natural number, as a template literal `${n}` prints it. */
  function NatToString(n: nat): (r: string)
    ensures |r| >= 1
    ensures forall i :: 0 <= i < |r| ==> '0' <= r[i] <= '9'
    ensures n > 0 ==> r[0] != '0'
    decreases n
  {
    if n < 10 then [DigitChar(n)] else NatToString(n / 10) + [DigitChar(n % 10)]
  }

  /** The number a string of decimal digits denotes. */
  function DigitsValue(s: string): nat
    requires forall i :: 0 <= i < |s| ==> '0' <= s[i] <= '9'
    decreases |s|
  {
    if s == [] then 0 else DigitsValue(s[..|s| - 1]) * 10 + (s[|s| - 1] as int - '0' as int)
  }

  /** Reading the rendering back gives the number. */
  lemma {:induction false} NatToStringRoundTrip(n: nat)
    ensures DigitsValue(NatToString(n)) == n
    decreases n
  {
    var r := NatToString(n);
    if n >= 10 {
      NatToStringRoundTrip(n / 10);
      assert r[..|r| - 1] == NatToString(n / 10);
    }
  }
}
