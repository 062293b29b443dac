/**
 * Substring search on attribute names, as done by `std::string::find`.
 * The importer only ever asks whether `find` returned `npos`.
 */
module Substring {
  import opened Wrappers

  /** `pat` occurs in `s` starting at position `i`. */
  ghost predicate OccursAt(s: string, pat: string, i: nat) {
    i + |pat| <= |s| && s[i..i + |pat|] == pat
  }

  /** `pat` occurs somewhere in `s`. */
  ghost predicate Contains(s: string, pat: string) {
    exists i: nat :: OccursAt(s, pat, i)
  }

  /** `std::string::find`: the first position at which `pat` occurs, or None for `npos`. */
  function Find(s: string, pat: string): (r: Option<nat>)
    ensures r.Some? ==> OccursAt(s, pat, r.value)
    ensures r.Some? ==> forall j: nat :: j < r.value ==> !OccursAt(s, pat, j)
    ensures r.None? <==> !Contains(s, pat)
  {
    FindFrom(s, pat, 0)
  }

  /** The first occurrence of `pat` in `s` at a position no smaller than `from`. */
  function FindFrom(s: string, pat: string, from: nat): (r: Option<nat>)
    ensures r.Some? ==> from <= r.value && OccursAt(s, pat, r.value)
    ensures r.Some? ==> forall j: nat :: from <= j < r.value ==> !OccursAt(s, pat, j)
    ensures r.None? ==> forall j: nat :: from <= j ==> !OccursAt(s, pat, j)
    decreases |s| - from
  {
    if from + |pat| > |s| then None
    else if s[from..from + |pat|] == pat then Some(from)
    else FindFrom(s, pat, from + 1)
  }

  /** Every name that contains "bitangent" also contains "tangent", two characters further on. */
  lemma BitangentContainsTangent(s: string)
    requires Find(s, "bitangent").Some?
    ensures Find(s, "tangent").Some?
  {
    var i := Find(s, "bitangent").value;
    assert s[i..i + 9] == "bitangent";
    assert s[i + 2..i + 9] == s[i..i + 9][2..];
    assert "bitangent"[2..] == "tangent";
    assert OccursAt(s, "tangent", i + 2);
  }
}
