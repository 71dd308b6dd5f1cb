/**
 * Discovery of the default audition target: the stem of the most recently
 * modified synth definition file, or nothing. The directory listing is an
 * input: `None` when the directory does not exist, otherwise its entries in
 * the order the listing gives them.
 */
module Discovery {
  import opened Optional
  import opened Text

  /** One `*.scd` file: its stem (the name without the extension) and its
      modification time. */
  datatype Entry = Entry(stem: string, mtime: int)

  /** An entry names a target when its stem is not blank. */
  predicate Eligible(e: Entry) {
    Trim(e.stem) != []
  }

  /** Ordered by modification time, newest first. */
  ghost predicate NewestFirst(es: seq<Entry>) {
    forall i, j :: 0 <= i < j < |es| ==> es[i].mtime >= es[j].mtime
  }

  /** Puts `e` into a newest-first list, ahead of the entries that are not newer. */
  function Insert(e: Entry, es: seq<Entry>): (r: seq<Entry>)
    requires NewestFirst(es)
    ensures NewestFirst(r)
    ensures multiset(r) == multiset(es) + multiset{e}
    ensures r[0] == e || r[0] == es[0]
  {
    if es == [] || es[0].mtime <= e.mtime then
      [e] + es
    else
      var rest := Insert(e, es[1..]);
      assert es == [es[0]] + es[1..];
      InsertBehindHead(es[0], rest);
      [es[0]] + rest
  }

  /** A head no older than the first entry of a newest-first list keeps it newest first. */
  lemma InsertBehindHead(h: Entry, rest: seq<Entry>)
    requires NewestFirst(rest)
    requires rest != [] ==> rest[0].mtime <= h.mtime
    ensures NewestFirst([h] + rest)
  {
  }

  /** `sorted(..., key=mtime, reverse=True)`: a newest-first permutation of the listing. */
  function SortNewestFirst(es: seq<Entry>): (r: seq<Entry>)
    ensures NewestFirst(r)
    ensures multiset(r) == multiset(es)
  {
    if es == [] then []
    else
      assert es == [es[0]] + es[1..];
      Insert(es[0], SortNewestFirst(es[1..]))
  }

  /** The loop over the sorted files: the first entry whose stem is not blank. */
  function FirstEligible(es: seq<Entry>): (r: Option<nat>)
    ensures r.Some? ==> r.value < |es|
  {
    if es == [] then None
    else if Eligible(es[0]) then Some(0)
    else match FirstEligible(es[1..])
      case None => None
      case Some(k) => Some(k + 1)
  }

  /** `_discover_default_target`. */
  function Discover(listing: Option<seq<Entry>>): Option<string> {
    match listing
    case None => None
    case Some(es) =>
      var sorted := SortNewestFirst(es);
      match FirstEligible(sorted)
      case None => None
      case Some(k) => Some(Trim(sorted[k].stem))
  }

  /** The scan finds the first eligible entry, or reports that there is none. */
  lemma {:induction false} FirstEligibleSpec(es: seq<Entry>)
    ensures FirstEligible(es).None? <==> forall i :: 0 <= i < |es| ==> !Eligible(es[i])
    ensures FirstEligible(es).Some? ==>
      var k := FirstEligible(es).value;
      k < |es| && Eligible(es[k]) && forall i :: 0 <= i < k ==> !Eligible(es[i])
  {
    if es != [] && !Eligible(es[0]) {
      FirstEligibleSpec(es[1..]);
      if FirstEligible(es[1..]).None? {
        forall i | 0 <= i < |es| ensures !Eligible(es[i]) {
          if i > 0 { assert es[i] == es[1..][i - 1]; }
        }
      } else {
        var k := FirstEligible(es[1..]).value;
        forall i | 0 <= i < k + 1 ensures !Eligible(es[i]) {
          if i > 0 { assert es[i] == es[1..][i - 1]; }
        }
      }
    }
  }

  /** A discovered target is a non-blank stem with no white space at its ends. */
  lemma DiscoverTrimmed(listing: Option<seq<Entry>>)
    ensures Discover(listing).Some? ==>
      Discover(listing).value != [] && Trim(Discover(listing).value) == Discover(listing).value
  {
    if Discover(listing).Some? {
      var sorted := SortNewestFirst(listing.value);
      FirstEligibleSpec(sorted);
      StripIdempotent(sorted[FirstEligible(sorted).value].stem, IsSpace);
    }
  }

  /** Nothing is discovered when the directory is missing or no stem is non-blank. */
  lemma DiscoverNothing(listing: Option<seq<Entry>>)
    ensures Discover(listing).None? <==>
      listing.None? || forall i :: 0 <= i < |listing.value| ==> !Eligible(listing.value[i])
  {
    if listing.Some? {
      var es := listing.value;
      var sorted := SortNewestFirst(es);
      FirstEligibleSpec(sorted);
      if exists i :: 0 <= i < |es| && Eligible(es[i]) {
        var i :| 0 <= i < |es| && Eligible(es[i]);
        assert es[i] in multiset(sorted);
        var j :| 0 <= j < |sorted| && sorted[j] == es[i];
        assert Eligible(sorted[j]);
      } else {
        forall j | 0 <= j < |sorted| ensures !Eligible(sorted[j]) {
          assert sorted[j] in multiset(es);
        }
      }
    }
  }

  /** What is discovered is the trimmed stem of an eligible entry at least as new
      as every other eligible entry. */
  lemma DiscoverNewest(es: seq<Entry>)
    requires Discover(Some(es)).Some?
    ensures exists k :: (0 <= k < |es| && Eligible(es[k])
      && Discover(Some(es)).value == Trim(es[k].stem)
      && forall j :: 0 <= j < |es| && Eligible(es[j]) ==> es[j].mtime <= es[k].mtime)
  {
    var sorted := SortNewestFirst(es);
    FirstEligibleSpec(sorted);
    var m := FirstEligible(sorted).value;
    var k := IndexOf(sorted, es, m);
    forall j | 0 <= j < |es| && Eligible(es[j]) ensures es[j].mtime <= es[k].mtime {
      var n := IndexOf(es, sorted, j);
      assert m <= n;
      assert NewestFirst(sorted);
    }
    assert Discover(Some(es)).value == Trim(es[k].stem);
  }

  /** An element of one permutation has a position in the other. */
  lemma IndexOf(s: seq<Entry>, t: seq<Entry>, i: int) returns (j: int)
    requires multiset(s) == multiset(t) && 0 <= i < |s|
    ensures 0 <= j < |t| && t[j] == s[i]
  {
    assert s[i] in multiset(t);
    j :| 0 <= j < |t| && t[j] == s[i];
  }

  /** An eligible entry strictly newer than every other eligible one is the one
      discovered; ties among the newest are left to the listing order. */
  lemma DiscoverUniqueNewest(es: seq<Entry>, i: int)
    requires 0 <= i < |es| && Eligible(es[i])
    requires forall j :: 0 <= j < |es| && j != i && Eligible(es[j]) ==> es[j].mtime < es[i].mtime
    ensures Discover(Some(es)) == Some(Trim(es[i].stem))
  {
    DiscoverNothing(Some(es));
    DiscoverNewest(es);
  }
}
