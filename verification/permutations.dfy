/** The four fixed layout permutations of the ARM layout conversion: rank 4
    (NCHW and NHWC) and rank 5 (NCDHW and NDHWC). */
module Permutations {
  import opened Shapes

  /** NCHW -> NHWC: the channel axis 1 moves to the end. */
  const NchwToNhwc: seq<int> := [0, 2, 3, 1]
  /** NHWC -> NCHW: the channel axis moves back to position 1. */
  const NhwcToNchw: seq<int> := [0, 3, 1, 2]
  /** NCDHW -> NDHWC. */
  const NcdhwToNdhwc: seq<int> := [0, 2, 3, 4, 1]
  /** NDHWC -> NCDHW. */
  const NdhwcToNcdhw: seq<int> := [0, 4, 1, 2, 3]

  predicate SupportedRank(rank: nat) {
    rank == 4 || rank == 5
  }

  /** The channel-first to channel-last order of a supported rank. */
  function ToChannelLast(rank: nat): (r: seq<int>)
    requires SupportedRank(rank)
    ensures |r| == rank && IsPermutation(r)
    ensures r[0] == 0 && r[rank - 1] == 1
    ensures forall i :: 1 <= i < rank - 1 ==> r[i] == i + 1
  {
    if rank == 4 then NchwToNhwc else NcdhwToNdhwc
  }

  /** The channel-last to channel-first order of a supported rank. */
  function ToChannelFirst(rank: nat): (r: seq<int>)
    requires SupportedRank(rank)
    ensures |r| == rank && IsPermutation(r)
    ensures r[0] == 0 && r[1] == rank - 1
    ensures forall i :: 2 <= i < rank ==> r[i] == i - 1
  {
    if rank == 4 then NhwcToNchw else NdhwcToNcdhw
  }

  /** Each table is the inverse of its partner, in both directions. */
  lemma TablesAreInverse(rank: nat)
    requires SupportedRank(rank)
    ensures Permute(ToChannelLast(rank), ToChannelFirst(rank)) == Identity(rank)
    ensures Permute(ToChannelFirst(rank), ToChannelLast(rank)) == Identity(rank)
  {
  }

  /** Moving to channel-last and back, or back and then forward, restores
      any shape of a supported rank. */
  lemma {:induction false} LayoutRoundTrip<T>(s: seq<T>)
    requires SupportedRank(|s|)
    ensures Permute(Permute(s, ToChannelLast(|s|)), ToChannelFirst(|s|)) == s
    ensures Permute(Permute(s, ToChannelFirst(|s|)), ToChannelLast(|s|)) == s
  {
    TablesAreInverse(|s|);
    InverseOrdersRoundTrip(s, ToChannelLast(|s|), ToChannelFirst(|s|));
    InverseOrdersRoundTrip(s, ToChannelFirst(|s|), ToChannelLast(|s|));
  }

  /** Channel-last moves the channel axis (index 1) to the end and keeps the
      relative order of every other axis. */
  lemma ChannelMovesLast<T>(s: seq<T>)
    requires SupportedRank(|s|)
    ensures Permute(s, ToChannelLast(|s|)) == [s[0]] + s[2..] + [s[1]]
  {
  }

  /** Channel-first is the exact reverse move: the last axis becomes axis 1. */
  lemma ChannelMovesBack<T>(s: seq<T>)
    requires SupportedRank(|s|)
    ensures Permute(s, ToChannelFirst(|s|)) == [s[0], s[|s| - 1]] + s[1..|s| - 1]
  {
  }
}
