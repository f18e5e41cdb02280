/** The block schedule the controller holds: an ordered sequence of coordinate
    pairs, each naming one candidate parameter position (a node pair of the
    graph). The schedule's own implementation is not part of this model; what
    the controller relies on is its length, indexed access and a reordering
    that is a permutation. */
module BlockList {

  /** One block, the two indices `getBlock` returns as a 2-element vector. */
  datatype Block = Block(row: int, col: int)

  /** Exchanges the blocks at positions `i` and `j`. */
  function Swap(s: seq<Block>, i: nat, j: nat): (r: seq<Block>)
    requires i < |s| && j < |s|
    ensures |r| == |s|
    ensures r[i] == s[j] && r[j] == s[i]
    ensures forall k :: 0 <= k < |s| && k != i && k != j ==> r[k] == s[k]
    ensures multiset(r) == multiset(s)
  {
    s[i := s[j]][j := s[i]]
  }

  /** Reorders the schedule. The random source is a parameter: `draws[k]` picks,
      modulo `k + 1`, the position exchanged with position `k`, from the back of
      the schedule to the front; missing draws leave their position in place.
      Whatever the draws, the result holds the same blocks as before. */
  method Shuffle(s: seq<Block>, draws: seq<nat>) returns (r: seq<Block>)
    ensures |r| == |s|
    ensures multiset(r) == multiset(s)
    ensures |s| <= 1 ==> r == s
  {
    r := s;
    var k := |r|;
    while k > 1
      invariant 0 <= k <= |r|
      invariant |r| == |s|
      invariant multiset(r) == multiset(s)
      invariant |s| <= 1 ==> r == s
    {
      k := k - 1;
      var j := if k < |draws| then draws[k] % (k + 1) else k;
      r := Swap(r, k, j);
    }
  }
}
