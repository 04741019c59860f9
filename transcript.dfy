/**
 * The `.strip()` applied to the engine's transcript in `transcribe`
 * (live_caption/live_caption.py:61-62): Python's `str.strip()` with no
 * argument, which removes leading and trailing characters for which
 * `str.isspace()` holds.
 */
module Transcript {

  /** Python's `str.isspace()` for one character. */
  predicate IsSpace(c: char) {
    || '\U{9}' <= c <= '\U{D}'
    || '\U{1C}' <= c <= '\U{20}'
    || c == '\U{85}' || c == '\U{A0}' || c == '\U{1680}'
    || '\U{2000}' <= c <= '\U{200A}'
    || c == '\U{2028}' || c == '\U{2029}' || c == '\U{202F}' || c == '\U{205F}' || c == '\U{3000}'
  }

  /** Every character of `s` is whitespace (vacuously so for the empty string). */
  predicate AllSpace(s: string) {
    forall i :: 0 <= i < |s| ==> IsSpace(s[i])
  }

  /** How many whitespace characters `s` starts with. */
  function LeadingSpaces(s: string): (n: nat)
    ensures n <= |s|
    ensures forall i :: 0 <= i < n ==> IsSpace(s[i])
    ensures n < |s| ==> !IsSpace(s[n])
  {
    if s != [] && IsSpace(s[0]) then 1 + LeadingSpaces(s[1..]) else 0
  }

  /** Where the text of `s` ends: everything from this index on is whitespace. */
  function TextEnd(s: string): (n: nat)
    ensures n <= |s|
    ensures forall i :: n <= i < |s| ==> IsSpace(s[i])
    ensures 0 < n ==> !IsSpace(s[n - 1])
  {
    if s != [] && IsSpace(s[|s| - 1]) then TextEnd(s[..|s| - 1]) else |s|
  }

  /**
   * `s.strip()`: the slice of `s` between its leading and its trailing
   * whitespace, empty exactly when `s` is all whitespace.
   */
  function Strip(s: string): (r: string)
    ensures r == [] <==> AllSpace(s)
    ensures r != [] ==> !IsSpace(r[0]) && !IsSpace(r[|r| - 1])
    ensures var k := LeadingSpaces(s);
      && k + |r| <= |s|
      && r == s[k..k + |r|]
      && (forall i :: 0 <= i < k ==> IsSpace(s[i]))
      && (forall i :: k + |r| <= i < |s| ==> IsSpace(s[i]))
  {
    var k := LeadingSpaces(s);
    var e := TextEnd(s[k..]);
    StripShape(s, k, e);
    s[k..k + e]
  }

  /** The slice kept by `strip`, given its start `k` and length `e`. */
  lemma StripShape(s: string, k: nat, e: nat)
    requires k == LeadingSpaces(s) && e == TextEnd(s[k..])
    ensures k + e <= |s|
    ensures e == 0 <==> AllSpace(s)
    ensures 0 < e ==> !IsSpace(s[k]) && !IsSpace(s[k + e - 1])
    ensures forall i :: k + e <= i < |s| ==> IsSpace(s[i])
  {
    SpaceAfterText(s, k, e);
    if 0 < e {
      assert s[k..][e - 1] == s[k + e - 1];
    } else {
      SpaceBeforeText(s, k);
    }
  }

  /** What follows the text is whitespace. */
  lemma SpaceAfterText(s: string, k: nat, e: nat)
    requires k <= |s| && e == TextEnd(s[k..])
    ensures forall i :: k + e <= i < |s| ==> IsSpace(s[i])
  {
    var t := s[k..];
    forall i | k + e <= i < |s| ensures IsSpace(s[i]) {
      assert s[i] == t[i - k];
    }
  }

  /** When nothing but whitespace follows the leading whitespace, `s` is all whitespace. */
  lemma SpaceBeforeText(s: string, k: nat)
    requires k == LeadingSpaces(s) && TextEnd(s[k..]) == 0
    ensures AllSpace(s)
  {
    if k < |s| {
      assert false;
    }
  }

  /** Whitespace followed by whitespace is whitespace. */
  lemma AllSpaceConcat(a: string, b: string)
    requires AllSpace(a) && AllSpace(b)
    ensures AllSpace(a + b)
  {
    forall i | 0 <= i < |a + b| ensures IsSpace((a + b)[i]) {
      if i < |a| { assert (a + b)[i] == a[i]; } else { assert (a + b)[i] == b[i - |a|]; }
    }
  }

  /** Surrounding whitespace, however much of it, is all that `strip` removes. */
  lemma StripPadded(pre: string, s: string, post: string)
    requires AllSpace(pre) && AllSpace(post)
    requires s != [] ==> !IsSpace(s[0]) && !IsSpace(s[|s| - 1])
    ensures Strip(pre + s + post) == s
  {
    var x := pre + s + post;
    if s == [] {
      AllSpaceConcat(pre, post);
      assert x == pre + post;
    } else {
      var r := Strip(x);
      PaddedBounds(pre, s, post);
      assert r == x[|pre|..|pre| + |s|];
    }
  }

  /** In a padded non-blank text, the leading whitespace is exactly the padding. */
  lemma PaddedStart(pre: string, s: string, post: string)
    requires AllSpace(pre)
    requires s != [] && !IsSpace(s[0])
    ensures LeadingSpaces(pre + s + post) == |pre|
  {
    var x := pre + s + post;
    assert x[|pre|] == s[0];
    assert forall i :: 0 <= i < |pre| ==> x[i] == pre[i];
  }

  /** In a padded non-blank text, `strip` keeps as many characters as the text has. */
  lemma PaddedBounds(pre: string, s: string, post: string)
    requires AllSpace(pre) && AllSpace(post)
    requires s != [] && !IsSpace(s[0]) && !IsSpace(s[|s| - 1])
    ensures LeadingSpaces(pre + s + post) == |pre|
    ensures |Strip(pre + s + post)| == |s|
  {
    PaddedStart(pre, s, post);
    var x := pre + s + post;
    var r := Strip(x);
    var e := |pre| + |s|;
    assert x[e - 1] == s[|s| - 1];
    assert |pre| + |r| >= e;
    if |pre| + |r| > e {
      assert false;
    }
  }

  /** A transcript with no surrounding whitespace is written exactly as produced. */
  lemma StripUnpadded(s: string)
    requires s != [] ==> !IsSpace(s[0]) && !IsSpace(s[|s| - 1])
    ensures Strip(s) == s
  {
    StripPadded([], s, []);
    assert [] + s + [] == s;
  }

  /** Stripping a stripped transcript changes nothing. */
  lemma StripIdempotent(s: string)
    ensures Strip(Strip(s)) == Strip(s)
  {
    StripUnpadded(Strip(s));
  }
}
