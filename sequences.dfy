/** Facts about sequence concatenation that the walks over account trees and
    documents share. */
module Sequences {
  lemma AppendAssoc<T>(a: seq<T>, b: seq<T>, c: seq<T>)
    ensures a + b + c == a + (b + c)
  {
  }

  /** In `p + b + [x] + q`, the block `b` sits right after `p` and `x` right
      after the block. */
  lemma BlockAt<T>(p: seq<T>, b: seq<T>, x: T, q: seq<T>)
    ensures var s := p + b + [x] + q;
            && |p| + |b| < |s|
            && s[|p| .. |p| + |b|] == b
            && s[|p| + |b|] == x
  {
    var s := p + b + [x] + q;
    assert s[|p| .. |p| + |b|] == b;
  }
}
