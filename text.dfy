/**
 * The few Python string operations the runner relies on: the ASCII part of
 * `str.isalnum` and `str.isspace`, and `str.strip`, written once over the set
 * of characters it removes.
 */
module Text {

  /** ASCII letters and digits. */
  predicate IsAlnum(c: char) {
    ('a' <= c <= 'z') || ('A' <= c <= 'Z') || ('0' <= c <= '9')
  }

  /** The ASCII characters Python treats as white space: tab to carriage return,
      the four separators 0x1C to 0x1F, and the space. */
  predicate IsSpace(c: char) {
    ('\t' <= c <= '\r') || ('\U{1C}' <= c <= '\U{1F}') || c == ' '
  }

  /** `r` is the slice of `s` that starts at `i`. */
  predicate InfixAt(r: string, s: string, i: int) {
    0 <= i && i + |r| <= |s| && r == s[i..i + |r|]
  }

  /** `s.lstrip(chars)`, with `drop` telling which characters are in `chars`. */
  function StripLeft(s: string, drop: char -> bool): string {
    if s != [] && drop(s[0]) then StripLeft(s[1..], drop) else s
  }

  /** `s.rstrip(chars)`. */
  function StripRight(s: string, drop: char -> bool): string {
    if s != [] && drop(s[|s| - 1]) then StripRight(s[..|s| - 1], drop) else s
  }

  /** lstrip removes a prefix of dropped characters and stops at a kept one. */
  lemma {:induction false} StripLeftSpec(s: string, drop: char -> bool)
    ensures var r := StripLeft(s, drop);
      |r| <= |s| && r == s[|s| - |r|..]
      && (r != [] ==> !drop(r[0]))
      && forall k :: 0 <= k < |s| - |r| ==> drop(s[k])
  {
    if s != [] && drop(s[0]) {
      StripLeftSpec(s[1..], drop);
      var r := StripLeft(s, drop);
      forall k | 0 <= k < |s| - |r| ensures drop(s[k]) {
        if k > 0 { assert s[k] == s[1..][k - 1]; }
      }
    }
  }

  /** rstrip removes a suffix of dropped characters and stops at a kept one. */
  lemma {:induction false} StripRightSpec(s: string, drop: char -> bool)
    ensures var r := StripRight(s, drop);
      |r| <= |s| && r == s[..|r|]
      && (r != [] ==> !drop(r[|r| - 1]))
      && forall k :: |r| <= k < |s| ==> drop(s[k])
  {
    if s != [] && drop(s[|s| - 1]) {
      var t := s[..|s| - 1];
      StripRightSpec(t, drop);
      var r := StripRight(s, drop);
      forall k | |r| <= k < |s| ensures drop(s[k]) {
        if k < |s| - 1 { assert s[k] == t[k]; }
      }
    }
  }

  /** `s.strip(chars)`: both ends. */
  function Strip(s: string, drop: char -> bool): string {
    StripRight(StripLeft(s, drop), drop)
  }

  /** `s.strip()`: white space at both ends. */
  function Trim(s: string): string {
    Strip(s, IsSpace)
  }

  /** What strip leaves is one contiguous piece of the input, starting at `i`:
      everything before and after it is dropped, and it neither starts nor
      ends with a dropped character. */
  lemma StripShape(s: string, drop: char -> bool) returns (i: int)
    ensures var r := Strip(s, drop);
      InfixAt(r, s, i)
      && (forall k :: 0 <= k < i ==> drop(s[k]))
      && (forall k :: i + |r| <= k < |s| ==> drop(s[k]))
    ensures var r := Strip(s, drop); r != [] ==> !drop(r[0]) && !drop(r[|r| - 1])
  {
    var l := StripLeft(s, drop);
    var r := StripRight(l, drop);
    StripLeftSpec(s, drop);
    StripRightSpec(l, drop);
    i := |s| - |l|;
    assert InfixAt(r, s, i) by {
      assert r == l[..|r|] && l == s[i..];
    }
    forall k | i + |r| <= k < |s| ensures drop(s[k]) {
      assert s[k] == l[k - i];
    }
  }

  /** Strip removes everything exactly when every character is dropped. */
  lemma StripEmpty(s: string, drop: char -> bool)
    ensures Strip(s, drop) == [] <==> forall k :: 0 <= k < |s| ==> drop(s[k])
  {
    var l := StripLeft(s, drop);
    var i := |s| - |l|;
    StripLeftSpec(s, drop);
    StripRightSpec(l, drop);
    if Strip(s, drop) != [] {
      assert l != [] && s[i] == l[0];
    }
  }

  /** Stripping twice is stripping once. */
  lemma StripIdempotent(s: string, drop: char -> bool)
    ensures Strip(Strip(s, drop), drop) == Strip(s, drop)
  {
    var i := StripShape(s, drop);
    StripUnchanged(Strip(s, drop), drop);
  }

  /** Strip leaves a string alone when neither end is dropped. */
  lemma StripUnchanged(s: string, drop: char -> bool)
    requires s != [] ==> !drop(s[0]) && !drop(s[|s| - 1])
    ensures Strip(s, drop) == s
  {
  }
}
