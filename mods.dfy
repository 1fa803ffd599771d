/** The modifier token of a request path (Model.kt:68-99): an optional `v<digits>`
    segment choosing the view, then an optional `a<digits>` segment overriding the
    appearance, e.g. `v1`, `v2a4`. The source reads it with the regular expression
    `((v)(\d*))?((a)(\d*))?` and `Matcher.find()`; since that pattern matches the empty
    string, the first match always starts at index 0, so only a leading prefix of the
    token is ever read and the parse never fails. */
module Modifiers {
  import opened Wrappers
  import opened Text

  const MOD_VIEW := 'v'
  const MOD_APPEARANCE := 'a'
  const DEFAULT_VIEW := "1"

  /** Number of capturing groups of the pattern (Matcher.groupCount()). */
  const GROUP_COUNT := 6

  /** The requested view and, when given, the appearance (colour) override. */
  datatype Mods = Mods(view: string, appearance: Option<string>)

  /** `Mods()` in the source: view "1", no appearance override. */
  const DefaultMods := Mods(DEFAULT_VIEW, None)

  // ---------------------------------------------------------------------------
  // What the pattern matches

  /** The digits of a `<key><digits>` segment at the start of `s`, read greedily, or
      `None` when `s` does not start with `key`. */
  function Segment(s: string, key: char): (d: Option<string>)
    ensures d.Some? <==> |s| > 0 && s[0] == key
    ensures d.Some? ==> IsDigits(d.value) && [key] + d.value <= s
    ensures d.Some? && 1 + |d.value| < |s| ==> !IsDigit(s[1 + |d.value|])
  {
    if |s| > 0 && s[0] == key then
      var digits := DigitPrefix(s[1..]);
      assert s[..1 + |digits|] == [key] + digits;
      Some(digits)
    else None
  }

  /** The text a segment occupies in the token (empty when it is absent). */
  function SegmentText(key: char, d: Option<string>): string {
    if d.Some? then [key] + d.value else ""
  }

  /** What is left of `s` after its leading `key` segment. */
  function After(s: string, key: char): (rest: string)
    ensures SegmentText(key, Segment(s, key)) + rest == s
  {
    var n := |SegmentText(key, Segment(s, key))|;
    assert s == s[..n] + s[n..];
    s[n..]
  }

  /** The text of the first match of the pattern in `s` (group 0). */
  function Matched(s: string): (m: string)
    ensures m <= s
  {
    var v := Segment(s, MOD_VIEW);
    var a := Segment(After(s, MOD_VIEW), MOD_APPEARANCE);
    assert SegmentText(MOD_APPEARANCE, a) <= After(s, MOD_VIEW);
    SegmentText(MOD_VIEW, v) + SegmentText(MOD_APPEARANCE, a)
  }

  /** The groups 0..6 of that first match, as `Matcher.group(i)` reports them
      (`None` for a group that did not participate): 1 = `v<digits>`, 2 = `v`,
      3 = the view digits, 4 = `a<digits>`, 5 = `a`, 6 = the appearance digits. */
  function MatchGroups(s: string): (g: seq<Option<string>>)
    ensures |g| == GROUP_COUNT + 1
    ensures g[0] == Some(Matched(s))
    ensures g[2].Some? <==> g[3].Some?
    ensures g[5].Some? <==> g[6].Some?
    ensures g[2].Some? ==> g[2].value == [MOD_VIEW]
    ensures g[5].Some? ==> g[5].value == [MOD_APPEARANCE]
  {
    var v := Segment(s, MOD_VIEW);
    var a := Segment(After(s, MOD_VIEW), MOD_APPEARANCE);
    [Some(Matched(s)),
     if v.Some? then Some(SegmentText(MOD_VIEW, v)) else None,
     if v.Some? then Some([MOD_VIEW]) else None,
     v,
     if a.Some? then Some(SegmentText(MOD_APPEARANCE, a)) else None,
     if a.Some? then Some([MOD_APPEARANCE]) else None,
     a]
  }

  // ---------------------------------------------------------------------------
  // Parsing

  /** What Mods.parse yields, stated on the token: the view digits if the token starts
      with `v`, else "1"; the appearance digits if an `a` segment follows (or opens
      the token), else none. */
  function Decode(s: string): (m: Mods)
    ensures IsDigits(m.view)
    ensures m.appearance.Some? ==> IsDigits(m.appearance.value)
    ensures (s == [] || (s[0] != MOD_VIEW && s[0] != MOD_APPEARANCE)) ==> m == DefaultMods
  {
    var v := Segment(s, MOD_VIEW);
    var a := Segment(After(s, MOD_VIEW), MOD_APPEARANCE);
    assert IsDigit(DEFAULT_VIEW[0]);
    Mods(v.GetOr(DEFAULT_VIEW), a)
  }

  /** Mods.parse: start from the defaults and, for each of the two `(key)(digits)` group
      pairs of the match, store the digits in the field the key names. */
  method Parse(modString: string) returns (mods: Mods)
    ensures mods == Decode(modString)
  {
    mods := DefaultMods;
    // matcher.find() succeeds on every input, at index 0
    var groups := MatchGroups(modString);
    var i := 0;
    while i < GROUP_COUNT
      invariant i == 0 || i == 3 || i == 6
      invariant mods.view == if i == 0 then DEFAULT_VIEW else Decode(modString).view
      invariant mods.appearance == if i < 6 then None else Decode(modString).appearance
    {
      var key := groups[i + 2];
      var value := groups[i + 3];
      if key.Some? {
        if key.value == [MOD_VIEW] {
          mods := mods.(view := value.value);
        } else if key.value == [MOD_APPEARANCE] {
          mods := mods.(appearance := Some(value.value));
        }
      }
      i := i + 3;
    }
  }

  // ---------------------------------------------------------------------------
  // Serialising

  /** The canonical token of `m`: `v<view>`, then `a<appearance>` when there is one. */
  function Serialize(m: Mods): string {
    [MOD_VIEW] + m.view + SegmentText(MOD_APPEARANCE, m.appearance)
  }

  /** Mods.valueOf, building the token the way the source does. */
  method ValueOf(m: Mods) returns (value: string)
    ensures value == Serialize(m)
  {
    value := [MOD_VIEW] + m.view;
    if m.appearance.Some? {
      value := value + [MOD_APPEARANCE] + m.appearance.value;
    }
  }

  // ---------------------------------------------------------------------------
  // Properties

  /** Modifiers made of digit strings survive serialising and parsing again. */
  lemma DecodeSerialize(m: Mods)
    requires IsDigits(m.view)
    requires m.appearance.Some? ==> IsDigits(m.appearance.value)
    ensures Decode(Serialize(m)) == m
  {
    var t := Serialize(m);
    var tail := SegmentText(MOD_APPEARANCE, m.appearance);
    assert t == [MOD_VIEW] + (m.view + tail);
    assert t[1..] == m.view + tail;
    DigitPrefixOfDigits(m.view, tail);
    assert Segment(t, MOD_VIEW) == Some(m.view);
    assert After(t, MOD_VIEW) == tail;
    if m.appearance.Some? {
      DigitPrefixOfDigits(m.appearance.value, "");
      assert tail[1..] == m.appearance.value + "";
    }
  }

  /** The round trip of the token: any `v<d1>`, optionally followed by `a<d2>`, with
      d1 and d2 digit strings (possibly empty), is parsed and serialised back unchanged. */
  lemma TokenRoundTrip(t: string, d1: string, d2: Option<string>)
    requires IsDigits(d1) && (d2.Some? ==> IsDigits(d2.value))
    requires t == [MOD_VIEW] + d1 + SegmentText(MOD_APPEARANCE, d2)
    ensures Serialize(Decode(t)) == t
  {
    DecodeSerialize(Mods(d1, d2));
  }

  /** Parsing is idempotent through the canonical token: re-parsing what valueOf
      prints gives back the same modifiers, whatever the original token was. */
  lemma ParseOfCanonicalToken(s: string)
    ensures Decode(Serialize(Decode(s))) == Decode(s)
  {
    DecodeSerialize(Decode(s));
  }

  /** A parsed token's canonical form holds only key letters and digits, so it never
      contains a path separator and fits in one path segment. */
  lemma {:induction false} CanonicalTokenIsOneSegment(s: string)
    ensures '/' !in Serialize(Decode(s))
  {
    var m := Decode(s);
    assert forall k :: 0 <= k < |m.view| ==> m.view[k] != '/';
    if m.appearance.Some? {
      assert forall k :: 0 <= k < |m.appearance.value| ==> m.appearance.value[k] != '/';
    }
  }

  /** Only the matched prefix is read: everything after it is ignored. */
  lemma DecodeReadsMatchOnly(s: string)
    ensures Decode(s) == Decode(Matched(s))
  {
    var v := Segment(s, MOD_VIEW);
    var m := Matched(s);
    var tail := SegmentText(MOD_APPEARANCE, Segment(After(s, MOD_VIEW), MOD_APPEARANCE));
    assert m == SegmentText(MOD_VIEW, v) + tail;
    if v.Some? {
      assert m[0] == MOD_VIEW;
      assert m[1..] == v.value + tail;
      DigitPrefixOfDigits(v.value, tail);
      assert Segment(m, MOD_VIEW) == v;
    } else {
      assert Segment(m, MOD_VIEW) == None;
    }
    assert After(m, MOD_VIEW) == tail;
    var a := Segment(After(s, MOD_VIEW), MOD_APPEARANCE);
    if a.Some? {
      assert tail[1..] == a.value + "";
      DigitPrefixOfDigits(a.value, "");
    }
  }

  // ---------------------------------------------------------------------------
  // The pattern's language, and greediness

  /** `t` is `<key>` followed by digits only. */
  predicate IsKeySegment(t: string, key: char) {
    |t| > 0 && t[0] == key && IsDigits(t[1..])
  }

  /** `t` splits at `k` into an optional `v<digits>` and an optional `a<digits>`. */
  predicate SplitsAt(t: string, k: nat) {
    k <= |t| &&
    (k == 0 || IsKeySegment(t[..k], MOD_VIEW)) &&
    (k == |t| || IsKeySegment(t[k..], MOD_APPEARANCE))
  }

  /** `t` is matched in full by `((v)(\d*))?((a)(\d*))?`. */
  ghost predicate InPattern(t: string) {
    exists k: nat :: SplitsAt(t, k)
  }

  /** The first match is a match of the pattern. */
  lemma MatchedInPattern(s: string)
    ensures InPattern(Matched(s))
  {
    var v := Segment(s, MOD_VIEW);
    var a := Segment(After(s, MOD_VIEW), MOD_APPEARANCE);
    var m := Matched(s);
    var k := |SegmentText(MOD_VIEW, v)|;
    assert m[..k] == SegmentText(MOD_VIEW, v);
    assert m[k..] == SegmentText(MOD_APPEARANCE, a);
    if v.Some? {
      assert m[..k][1..] == v.value;
    }
    if a.Some? {
      assert m[k..][1..] == a.value;
    }
    assert SplitsAt(m, k);
  }

  /** A view segment at the start of a prefix of `s` is no longer than the greedy one. */
  lemma ViewSegmentWithinGreedy(s: string, n: nat, k: nat)
    requires 0 < k <= n <= |s| && IsKeySegment(s[..n][..k], MOD_VIEW)
    ensures Segment(s, MOD_VIEW).Some? && k <= |SegmentText(MOD_VIEW, Segment(s, MOD_VIEW))|
  {
    assert s[0] == s[..n][..k][0];
    assert s[1..][..k - 1] == s[..n][..k][1..];
    DigitPrefixIsLongest(s[1..], k - 1);
  }

  /** Inside the greedy view segment, after its `v`, every character is a digit. */
  lemma InsideViewDigits(s: string, k: nat)
    requires Segment(s, MOD_VIEW).Some? && 0 < k < |SegmentText(MOD_VIEW, Segment(s, MOD_VIEW))|
    ensures IsDigit(s[k])
  {
    var d := Segment(s, MOD_VIEW).value;
    assert s[..1 + |d|] == [MOD_VIEW] + d;
    assert s[k] == s[..1 + |d|][k] == d[k - 1];
  }

  /** An appearance segment after the greedy view segment is no longer than the greedy one. */
  lemma AppearanceWithinGreedy(s: string, n: nat, k: nat)
    requires k < n <= |s| && k == |SegmentText(MOD_VIEW, Segment(s, MOD_VIEW))|
    requires IsKeySegment(s[..n][k..], MOD_APPEARANCE)
    ensures n <= |Matched(s)|
  {
    var rest := After(s, MOD_VIEW);
    assert rest == s[k..];
    assert rest[0] == s[k] == s[..n][k..][0];
    assert rest[1..][..n - k - 1] == s[..n][k..][1..];
    DigitPrefixIsLongest(rest[1..], n - k - 1);
  }

  /** The first match is the longest prefix of `s` the pattern matches: no longer
      prefix is in the pattern's language (Java's greedy `?` and `\d*`). */
  lemma MatchedIsLongest(s: string, n: nat)
    requires |Matched(s)| < n <= |s|
    ensures !InPattern(s[..n])
  {
    if InPattern(s[..n]) {
      var k: nat :| SplitsAt(s[..n], k);
      var kv := |SegmentText(MOD_VIEW, Segment(s, MOD_VIEW))|;
      assert kv <= |Matched(s)|;
      if k > 0 {
        ViewSegmentWithinGreedy(s, n, k);
      }
      if 0 < k < kv {
        InsideViewDigits(s, k);
      }
      AppearanceWithinGreedy(s, n, k);
    }
  }

  // ---------------------------------------------------------------------------
  // Worked cases

  /** A token that opens with its appearance segment keeps the default view, whatever
      follows the digits. */
  lemma AppearanceOnlyToken(d: string, rest: string)
    requires IsDigits(d) && (rest == [] || !IsDigit(rest[0]))
    ensures Decode([MOD_APPEARANCE] + d + rest) == Mods(DEFAULT_VIEW, Some(d))
  {
    var t := [MOD_APPEARANCE] + d + rest;
    assert t[0] == MOD_APPEARANCE && t[1..] == d + rest;
    assert After(t, MOD_VIEW) == t;
    DigitPrefixOfDigits(d, rest);
  }

  /** An optional appearance segment followed by text that cannot extend it is read back. */
  lemma AppearanceSegment(d2: Option<string>, rest: string)
    requires d2.Some? ==> IsDigits(d2.value)
    requires rest == [] || (!IsDigit(rest[0]) && (d2.None? ==> rest[0] != MOD_APPEARANCE))
    ensures Segment(SegmentText(MOD_APPEARANCE, d2) + rest, MOD_APPEARANCE) == d2
  {
    var tail := SegmentText(MOD_APPEARANCE, d2) + rest;
    if d2.Some? {
      assert tail[0] == MOD_APPEARANCE;
      assert tail[1..] == d2.value + rest;
      DigitPrefixOfDigits(d2.value, rest);
    } else {
      assert tail == rest;
    }
  }

  /** A token `v<d1>[a<d2>]` followed by text that cannot extend the match decodes to
      `Mods(d1, d2)`: the trailing text is ignored. */
  lemma ViewToken(d1: string, d2: Option<string>, rest: string)
    requires IsDigits(d1) && (d2.Some? ==> IsDigits(d2.value))
    requires rest == [] || (!IsDigit(rest[0]) && (d2.None? ==> rest[0] != MOD_APPEARANCE))
    ensures Decode([MOD_VIEW] + d1 + SegmentText(MOD_APPEARANCE, d2) + rest) == Mods(d1, d2)
  {
    var tail := SegmentText(MOD_APPEARANCE, d2) + rest;
    var t := [MOD_VIEW] + d1 + SegmentText(MOD_APPEARANCE, d2) + rest;
    assert t == [MOD_VIEW] + (d1 + tail);
    assert t[1..] == d1 + tail;
    assert tail == [] || !IsDigit(tail[0]);
    DigitPrefixOfDigits(d1, tail);
    assert Segment(t, MOD_VIEW) == Some(d1);
    assert After(t, MOD_VIEW) == tail;
    AppearanceSegment(d2, rest);
  }

  /** The segments are read in fixed order: in `a4v2` the `v2` is never reached, so the
      view stays "1" and the appearance is "4". */
  lemma AppearanceFirstExample()
    ensures Decode("a4v2") == Mods("1", Some("4"))
  {
    assert "a4v2" == [MOD_APPEARANCE] + "4" + "v2";
    AppearanceOnlyToken("4", "v2");
  }

  /** Serialised, a lone appearance token `a4` becomes the canonical `v1a4`. */
  lemma CanonicalFormExample()
    ensures Serialize(Decode("a4")) == "v1a4"
  {
    assert "a4" == [MOD_APPEARANCE] + "4" + "";
    AppearanceOnlyToken("4", "");
  }

  /** Text after the match is ignored: `v2a4xyz` reads as `v2a4`. */
  lemma TrailingTextExample()
    ensures Decode("v2a4xyz") == Mods("2", Some("4"))
  {
    assert "v2a4xyz" == [MOD_VIEW] + "2" + SegmentText(MOD_APPEARANCE, Some("4")) + "xyz";
    ViewToken("2", Some("4"), "xyz");
  }

  /** A bare `v` matches with an empty view group: the view becomes the empty string,
      not the default. */
  lemma EmptyViewExample()
    ensures Decode("v") == Mods("", None)
  {
    assert "v" == [MOD_VIEW] + "" + SegmentText(MOD_APPEARANCE, None) + "";
    ViewToken("", None, "");
  }
}
