/** Partial shapes and the permutation of a sequence by an index vector,
    which is the shape semantics of a Transpose node. */
module Shapes {

  /** One dimension of a partial shape: a known extent or a dynamic one. */
  datatype Dim = Static(extent: nat) | Dynamic

  type Shape = seq<Dim>

  /** A partial shape whose rank may itself be unknown. */
  datatype PartialShape = DynamicRank | Ranked(dims: Shape)

  /** Every entry of `order` is a valid index into a sequence of length `n`. */
  predicate IndicesIn(order: seq<int>, n: nat) {
    forall i :: 0 <= i < |order| ==> 0 <= order[i] < n
  }

  /** `p` lists each of 0 .. |p|-1 exactly once. */
  predicate IsPermutation(p: seq<int>) {
    && IndicesIn(p, |p|)
    && (forall i, j :: 0 <= i < j < |p| ==> p[i] != p[j])
    && (forall k :: 0 <= k < |p| ==> k in p)
  }

  /** The identity order 0, 1, ..., n-1. */
  function Identity(n: nat): (r: seq<int>)
    ensures |r| == n
    ensures forall i :: 0 <= i < n ==> r[i] == i
  {
    seq(n, i => i)
  }

  /** Element i of the result is element order[i] of `s`: what a Transpose
      node with input order `order` does to its input's shape. */
  function Permute<T>(s: seq<T>, order: seq<int>): (r: seq<T>)
    requires IndicesIn(order, |s|)
    ensures |r| == |order|
    ensures forall i :: 0 <= i < |order| ==> r[i] == s[order[i]]
  {
    seq(|order|, i requires 0 <= i < |order| => s[order[i]])
  }

  /** Permuting twice is permuting once by the composed order. */
  lemma PermuteCompose<T>(s: seq<T>, p: seq<int>, q: seq<int>)
    requires IndicesIn(p, |s|) && IndicesIn(q, |p|)
    ensures IndicesIn(Permute(p, q), |s|)
    ensures Permute(Permute(s, p), q) == Permute(s, Permute(p, q))
  {
    var lhs := Permute(Permute(s, p), q);
    var rhs := Permute(s, Permute(p, q));
    forall i | 0 <= i < |q|
      ensures lhs[i] == rhs[i]
    {
      assert Permute(p, q)[i] == p[q[i]];
    }
  }

  /** The identity order leaves a sequence unchanged. */
  lemma PermuteIdentity<T>(s: seq<T>)
    ensures IndicesIn(Identity(|s|), |s|)
    ensures Permute(s, Identity(|s|)) == s
  {
  }

  /** If `q` after `p` composes to the identity, permuting by `p` and then
      by `q` gives back every sequence of their length. */
  lemma {:induction false} InverseOrdersRoundTrip<T>(s: seq<T>, p: seq<int>, q: seq<int>)
    requires |p| == |q| == |s|
    requires IndicesIn(p, |s|) && IndicesIn(q, |s|)
    requires Permute(p, q) == Identity(|s|)
    ensures Permute(Permute(s, p), q) == s
  {
    PermuteCompose(s, p, q);
    PermuteIdentity(s);
  }
}
