/**
 * Order-preserving selection: `sub` is made of entries of `s`, taken in the order they
 * appear there. `filter` in the source always produces such a selection.
 */
module Subsequences {

  /** `idx` lists, strictly increasing, the positions of `s` that the entries of `sub` come from. */
  ghost predicate Embeds<T>(idx: seq<nat>, sub: seq<T>, s: seq<T>) {
    && |idx| == |sub|
    && (forall k :: 0 <= k < |idx| ==> idx[k] < |s| && s[idx[k]] == sub[k])
    && (forall k, l :: 0 <= k < l < |idx| ==> idx[k] < idx[l])
  }

  /** `sub` keeps some entries of `s`, in their order in `s`. */
  ghost predicate IsSubsequence<T>(sub: seq<T>, s: seq<T>) {
    exists idx: seq<nat> :: Embeds(idx, sub, s)
  }

  /** Every position moved one place on. */
  function Shift(idx: seq<nat>): (r: seq<nat>)
    ensures |r| == |idx| && forall k :: 0 <= k < |idx| ==> r[k] == idx[k] + 1
  {
    seq(|idx|, k requires 0 <= k < |idx| => idx[k] + 1)
  }

  /** A selection from the tail is a selection from the whole sequence. */
  lemma SkipHead<T>(sub: seq<T>, s: seq<T>)
    requires s != [] && IsSubsequence(sub, s[1..])
    ensures IsSubsequence(sub, s)
  {
    var idx :| Embeds(idx, sub, s[1..]);
    assert Embeds(Shift(idx), sub, s);
  }

  /** Keeping the head in front of a selection from the tail is a selection from the whole. */
  lemma KeepHead<T>(sub: seq<T>, s: seq<T>)
    requires s != [] && IsSubsequence(sub, s[1..])
    ensures IsSubsequence([s[0]] + sub, s)
  {
    var idx :| Embeds(idx, sub, s[1..]);
    var full := [0] + Shift(idx);
    assert Embeds(full, [s[0]] + sub, s);
  }

  /** The empty selection. */
  lemma EmptyIsSubsequence<T>(s: seq<T>)
    ensures IsSubsequence([], s)
  {
    assert Embeds([], [], s);
  }
}
