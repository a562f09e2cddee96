/**
 * The filename helper `rmext` and the substring search it relies on
 * (Python's `in` and `str.index` on strings).
 */
module Filenames {
  import opened Wrappers

  /** The extension that `rmext` strips. */
  const Ext: string := ".json"

  /** `pat` occurs in `s` starting at index `i`. */
  predicate OccursAt(s: string, pat: string, i: int)
  {
    0 <= i && i + |pat| <= |s| && s[i..i + |pat|] == pat
  }

  /** The leftmost occurrence of `pat` in `s` at or after `from`, if any. */
  function FindFrom(s: string, pat: string, from: nat): (r: Option<nat>)
    requires from <= |s|
    decreases |s| - from
    ensures r.Some? ==> from <= r.value && OccursAt(s, pat, r.value)
    ensures forall j :: from <= j && (r.None? || j < r.value) ==> !OccursAt(s, pat, j)
  {
    if from + |pat| > |s| then None
    else if s[from..from + |pat|] == pat then Some(from)
    else if from == |s| then None
    else FindFrom(s, pat, from + 1)
  }

  /** Python's `pat in s`. */
  function Contains(s: string, pat: string): (b: bool)
    ensures b <==> exists i :: OccursAt(s, pat, i)
  {
    FindFrom(s, pat, 0).Some?
  }

  /** Python's `s.index(pat)`, which raises unless `pat in s`. */
  function Index(s: string, pat: string): (i: nat)
    requires Contains(s, pat)
    ensures OccursAt(s, pat, i)
    ensures forall j :: 0 <= j < i ==> !OccursAt(s, pat, j)
  {
    FindFrom(s, pat, 0).value
  }

  /** `f` ends in `.json` and that is the first place `.json` occurs in `f`. */
  predicate FirstExtIsSuffix(f: string)
  {
    && |f| >= |Ext|
    && OccursAt(f, Ext, |f| - |Ext|)
    && forall j :: 0 <= j < |f| - |Ext| ==> !OccursAt(f, Ext, j)
  }

  /**
   * `rmext`: drops a trailing `.json`, but only when the first occurrence of
   * `.json` is that suffix; any other filename comes back unchanged.
   */
  function RmExt(filename: string): (r: string)
    ensures FirstExtIsSuffix(filename) ==> r == filename[..|filename| - |Ext|]
    ensures !FirstExtIsSuffix(filename) ==> r == filename
    ensures r <= filename
  {
    if !Contains(filename, Ext) then filename
    else
      var i := Index(filename, Ext);
      if i + |Ext| != |filename| then filename else filename[..i]
  }

  /** No proper suffix of `.json` is a prefix of it: the dot occurs only at its head. */
  lemma ExtDotOnlyAtHead(k: int)
    requires 0 < k < |Ext|
    ensures Ext[k] != '.'
  {
  }

  /** A name without `.json` in it gets back exactly itself after `.json` is added and removed. */
  lemma {:induction false} RmExtRoundTrip(x: string)
    requires !Contains(x, Ext)
    ensures RmExt(x + Ext) == x
  {
    var f := x + Ext;
    assert f[|x|..|x| + |Ext|] == Ext;
    forall j | 0 <= j < |f| - |Ext|
      ensures !OccursAt(f, Ext, j)
    {
      if j + |Ext| <= |x| {
        assert !OccursAt(x, Ext, j);
        assert x[j..j + |Ext|] == f[j..j + |Ext|];
      } else {
        ExtDotOnlyAtHead(|x| - j);
        assert f[j..j + |Ext|][|x| - j] == f[|x|] == '.';
      }
    }
    assert FirstExtIsSuffix(f);
    assert f[..|f| - |Ext|] == x;
  }

  /** Stripping twice is stripping once: what `rmext` leaves never loses another `.json`. */
  lemma {:induction false} RmExtIdempotent(f: string)
    ensures RmExt(RmExt(f)) == RmExt(f)
  {
    if FirstExtIsSuffix(f) {
      var r := f[..|f| - |Ext|];
      if FirstExtIsSuffix(r) {
        var j := |r| - |Ext|;
        assert r[j..j + |Ext|] == f[j..j + |Ext|];
        assert OccursAt(f, Ext, j);
        assert false;
      }
    }
  }

  /** A doubled extension is kept whole: the first `.json` is not the suffix. */
  lemma {:induction false} RmExtKeepsDoubleExt(x: string)
    ensures RmExt(x + Ext + Ext) == x + Ext + Ext
  {
    var f := x + Ext + Ext;
    assert f[|x|..|x| + |Ext|] == Ext;
    assert OccursAt(f, Ext, |x|);
    assert !FirstExtIsSuffix(f);
  }

  /** The concrete case `a.json.json`. */
  lemma RmExtDoubleExtExample()
    ensures RmExt("a.json.json") == "a.json.json"
  {
  }

  /** A name with no dot in it cannot contain `.json`. */
  lemma {:induction false} NoDotNoExt(x: string)
    requires forall i :: 0 <= i < |x| ==> x[i] != '.'
    ensures !Contains(x, Ext)
  {
    forall j | 0 <= j <= |x| - |Ext|
      ensures !OccursAt(x, Ext, j)
    {
      assert x[j..j + |Ext|][0] == x[j];
    }
  }
}
