/** Character and string helpers shared by the modifier codec, the user-agent test
    and the SEO slug: decimal digits, substring search and ASCII lower-casing. */
module Text {

  /** Java's `\d` without UNICODE_CHARACTER_CLASS: the ASCII digits only. */
  predicate IsDigit(c: char) {
    '0' <= c <= '9'
  }

  predicate IsDigits(s: string) {
    forall i :: 0 <= i < |s| ==> IsDigit(s[i])
  }

  /** The longest run of digits at the start of `s`: what a greedy `\d*` consumes. */
  function DigitPrefix(s: string): (d: string)
    ensures d <= s && IsDigits(d)
    ensures |d| < |s| ==> !IsDigit(s[|d|])
  {
    if s != [] && IsDigit(s[0]) then [s[0]] + DigitPrefix(s[1..]) else []
  }

  /** A digit run followed by anything that does not start with a digit is read back whole. */
  lemma DigitPrefixOfDigits(d: string, t: string)
    requires IsDigits(d)
    requires t == [] || !IsDigit(t[0])
    ensures DigitPrefix(d + t) == d
  {
    var p := DigitPrefix(d + t);
    assert p == (d + t)[..|d|] == d;
  }

  /** No digit run is longer than the greedy one. */
  lemma DigitPrefixIsLongest(s: string, n: nat)
    requires n <= |s| && IsDigits(s[..n])
    ensures n <= |DigitPrefix(s)|
  {
  }

  // ---------------------------------------------------------------------------
  // Substring search (Kotlin's String.contains)

  predicate OccursAt(s: string, sub: string, i: nat) {
    i + |sub| <= |s| && s[i..i + |sub|] == sub
  }

  /** `sub` occurs somewhere in `s`. */
  function Contains(s: string, sub: string): (b: bool)
    ensures b <==> exists i: nat :: OccursAt(s, sub, i)
    decreases |s|
  {
    if |s| < |sub| then
      assert forall i: nat :: !OccursAt(s, sub, i);
      false
    else if s[..|sub|] == sub then
      assert OccursAt(s, sub, 0);
      true
    else
      var rest := Contains(s[1..], sub);
      assert forall i: nat :: OccursAt(s[1..], sub, i) <==> OccursAt(s, sub, i + 1) by {
        forall i: nat ensures OccursAt(s[1..], sub, i) <==> OccursAt(s, sub, i + 1) {
          if i + |sub| <= |s[1..]| {
            assert s[1..][i..i + |sub|] == s[i + 1..i + 1 + |sub|];
          }
        }
      }
      assert !OccursAt(s, sub, 0);
      assert (exists i: nat :: OccursAt(s, sub, i)) ==> exists i: nat :: OccursAt(s[1..], sub, i) by {
        if exists i: nat :: OccursAt(s, sub, i) {
          var i: nat :| OccursAt(s, sub, i);
          assert i > 0;
          assert OccursAt(s[1..], sub, i - 1);
        }
      }
      rest
  }

  // ---------------------------------------------------------------------------
  // Lower-casing

  predicate IsUpperAscii(c: char) {
    'A' <= c <= 'Z'
  }

  /** Lower-cases an ASCII capital and leaves every other character alone. */
  function LowerAscii(c: char): (l: char)
    ensures !IsUpperAscii(l)
    ensures IsUpperAscii(c) ==> l as int == c as int + 32
    ensures !IsUpperAscii(c) ==> l == c
  {
    if IsUpperAscii(c) then (c as int + 32) as char else c
  }

  // ---------------------------------------------------------------------------
  // Path segments

  /** The segments of a path between its `/` separators, as a route pattern
      matches them; none of them contains a `/`. */
  function Segments(s: string): (parts: seq<string>)
    ensures |parts| >= 1
    ensures forall k :: 0 <= k < |parts| ==> '/' !in parts[k]
  {
    if s == [] then [[]]
    else
      var rest := Segments(s[1..]);
      if s[0] == '/' then [[]] + rest
      else [[s[0]] + rest[0]] + rest[1..]
  }

  /** Text without a separator is one segment. */
  lemma {:induction false} SegmentsOfPlain(a: string)
    requires '/' !in a
    ensures Segments(a) == [a]
  {
    if a != [] {
      SegmentsOfPlain(a[1..]);
      assert [a[0]] + a[1..] == a;
    }
  }

  /** A separator after separator-free text `a` splits off exactly `a`. */
  lemma {:induction false} SegmentsSplit(a: string, b: string)
    requires '/' !in a
    ensures Segments(a + "/" + b) == [a] + Segments(b)
  {
    if a == [] {
      assert a + "/" + b == ['/'] + b;
      assert (['/'] + b)[1..] == b;
    } else {
      assert (a + "/" + b)[0] == a[0];
      assert (a + "/" + b)[1..] == a[1..] + "/" + b;
      SegmentsSplit(a[1..], b);
      assert [a[0]] + a[1..] == a;
    }
  }
}
