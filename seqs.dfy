/** Array.prototype.splice(i, 1) and an in-place update at index i, as they
    act on a list split into a prefix, the element at i and a suffix. */
module Seqs {

  /** Replacing, then removing, the element between a prefix and a suffix. */
  lemma SpliceAt<T>(p: seq<T>, x: T, y: T, r: seq<T>)
    ensures (p + ([x] + r))[|p| := y] == p + ([y] + r)
    ensures var s := (p + ([x] + r))[|p| := y]; s[..|p|] + s[|p| + 1..] == p + r
  {
    var s := (p + ([x] + r))[|p| := y];
    assert s[..|p|] == p;
    assert s[|p| + 1..] == r;
  }

  /** Removing the element between a prefix and a suffix. */
  lemma RemoveAt<T>(p: seq<T>, x: T, r: seq<T>)
    ensures var s := p + ([x] + r); s[..|p|] + s[|p| + 1..] == p + r
  {
    var s := p + ([x] + r);
    assert s[..|p|] == p;
    assert s[|p| + 1..] == r;
  }
}
