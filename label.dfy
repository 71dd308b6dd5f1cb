/**
 * The capture-label sanitiser: the label that names a recording file is the
 * selected target with every unsafe character turned into a hyphen, hyphens
 * stripped from both ends, and a fixed fallback when nothing is left.
 * Runs of hyphens are kept as they are: "a  b" becomes "a--b".
 */
module Label {
  import opened Text

  /** The label used when nothing of the input survives. */
  const Fallback := "audition"

  /** Characters that pass through unchanged. */
  predicate Kept(c: char) {
    IsAlnum(c) || c == '-' || c == '_'
  }

  predicate IsHyphen(c: char) {
    c == '-'
  }

  /** Every character that is not kept becomes a hyphen (the list comprehension). */
  function Cleaned(value: string): string {
    seq(|value|, i requires 0 <= i < |value| => if Kept(value[i]) then value[i] else '-')
  }

  /** `_sanitize_capture_label`. */
  function Sanitize(value: string): string {
    var tag := Strip(Cleaned(value), IsHyphen);
    if tag == [] then Fallback else tag
  }

  /** A character of the input survives cleaning when it is alphanumeric or an underscore. */
  predicate Survives(c: char) {
    IsAlnum(c) || c == '_'
  }

  /** Cleaning keeps the length and every kept character at its position, and
      puts a hyphen everywhere else. */
  lemma CleanedPositions(value: string)
    ensures |Cleaned(value)| == |value|
    ensures forall i :: 0 <= i < |value| && Kept(value[i]) ==> Cleaned(value)[i] == value[i]
    ensures forall i :: 0 <= i < |value| && !Kept(value[i]) ==> Cleaned(value)[i] == '-'
  {
  }

  /** Every character of the cleaned input is a kept one. */
  lemma CleanedKept(value: string)
    ensures forall i :: 0 <= i < |Cleaned(value)| ==> Kept(Cleaned(value)[i])
  {
  }

  /** Stripping hyphens from kept characters leaves kept characters. */
  lemma StripKept(c: string)
    requires forall i :: 0 <= i < |c| ==> Kept(c[i])
    ensures forall i :: 0 <= i < |Strip(c, IsHyphen)| ==> Kept(Strip(c, IsHyphen)[i])
  {
    var stripped := Strip(c, IsHyphen);
    var j := StripShape(c, IsHyphen);
    forall i | 0 <= i < |stripped| ensures Kept(stripped[i]) {
      assert stripped[i] == c[j + i];
    }
  }

  /** The sanitised label is never empty, uses only kept characters, and
      neither starts nor ends with a hyphen. */
  lemma SanitizeWellFormed(value: string)
    ensures var tag := Sanitize(value);
      tag != []
      && (forall i :: 0 <= i < |tag| ==> Kept(tag[i]))
      && tag[0] != '-' && tag[|tag| - 1] != '-'
  {
    var c := Cleaned(value);
    var stripped := Strip(c, IsHyphen);
    if stripped == [] {
      assert Fallback == ['a', 'u', 'd', 'i', 't', 'i', 'o', 'n'];
    } else {
      CleanedKept(value);
      StripKept(c);
      var _ := StripShape(c, IsHyphen);
    }
  }

  /** When no character of the input is alphanumeric or an underscore, the label
      is exactly the fallback. */
  lemma SanitizeFallback(value: string)
    requires forall i :: 0 <= i < |value| ==> !Survives(value[i])
    ensures Sanitize(value) == Fallback
  {
    var c := Cleaned(value);
    assert forall k :: 0 <= k < |c| ==> IsHyphen(c[k]);
    StripEmpty(c, IsHyphen);
  }

  /** When some character survives, the label is the cleaned input with only
      hyphens removed from its two ends. */
  lemma SanitizeKeepsSurvivors(value: string, k: int)
    requires 0 <= k < |value| && Survives(value[k])
    ensures var tag := Sanitize(value);
      exists i :: InfixAt(tag, Cleaned(value), i)
        && (forall m :: 0 <= m < i ==> Cleaned(value)[m] == '-')
        && (forall m :: i + |tag| <= m < |value| ==> Cleaned(value)[m] == '-')
  {
    var c := Cleaned(value);
    assert !IsHyphen(c[k]);
    StripEmpty(c, IsHyphen);
    var stripped := Strip(c, IsHyphen);
    assert stripped != [];
    assert Sanitize(value) == stripped;
    var i := StripShape(c, IsHyphen);
    assert InfixAt(Sanitize(value), c, i);
  }

  /** Sanitising a sanitised label changes nothing. */
  lemma SanitizeIdempotent(value: string)
    ensures Sanitize(Sanitize(value)) == Sanitize(value)
  {
    var tag := Sanitize(value);
    SanitizeWellFormed(value);
    assert Cleaned(tag) == tag;
    StripUnchanged(tag, IsHyphen);
  }

  /** Spaces, slashes and punctuation become hyphens; trailing ones go; runs are
      not collapsed; an input with nothing kept falls back. */
  lemma SanitizeExamples()
    ensures Sanitize("foo bar/baz!") == "foo-bar-baz"
    ensures Sanitize("a  b") == "a--b"
    ensures Sanitize("!!!") == Fallback
    ensures Sanitize("") == Fallback
  {
    assert Cleaned("foo bar/baz!") == "foo-bar-baz-";
    assert StripLeft("foo-bar-baz-", IsHyphen) == "foo-bar-baz-";
    assert StripRight("foo-bar-baz-", IsHyphen) == StripRight("foo-bar-baz", IsHyphen);
    assert Cleaned("a  b") == "a--b";
    assert StripLeft("a--b", IsHyphen) == "a--b";
    SanitizeFallback("!!!");
  }
}
