/** The round-by-round checks of the verifier decide the declarative Equihash condition: trimming the
    collided prefix and comparing indices only between sibling blocks lose nothing. */
module EquihashTheorem {
  import opened Bits
  import opened Equihash

  lemma SliceJoin<T>(s: seq<T>, lo: nat, mid: nat, hi: nat)
    requires lo <= mid <= hi <= |s|
    ensures s[lo..mid] + s[mid..hi] == s[lo..hi]
  {}

  // All blocks of one size are equally long.
  lemma {:induction false} ShlEven(w: nat, r: nat)
    ensures Shl(w + 1, r) - Shl(w, r) == Shl(w + 2, r) - Shl(w + 1, r)
    decreases r
  {
    if r != 0 {
      ShlEven(2 * w, r - 1);
      ShlEven(2 * w + 1, r - 1);
      ShlEven(2 * w + 2, r - 1);
    }
  }

  // Block w of size 2^(r+1), cut in the middle.
  lemma Parts(ls: seq<Leaf>, idx: seq<nat>, r: nat, w: nat) returns (lo: nat, mid: nat, hi: nat)
    requires |ls| == |idx| && IsBlock(r + 1, w, |ls|)
    ensures lo == Shl(w, r + 1) && mid == Shl(2 * w + 1, r) && hi == Shl(w + 1, r + 1)
    ensures lo < mid < hi <= |ls| && mid - lo == hi - mid
    ensures IsBlock(r, 2 * w, |ls|) && IsBlock(r, 2 * w + 1, |ls|)
    ensures BlockOf(ls, idx, r, 2 * w) == Block(ls[lo..mid], idx[lo..mid])
    ensures BlockOf(ls, idx, r, 2 * w + 1) == Block(ls[mid..hi], idx[mid..hi])
    ensures BlockOf(ls, idx, r + 1, w) == Block(ls[lo..hi], idx[lo..hi])
    ensures ls[lo..hi] == ls[lo..mid] + ls[mid..hi] && idx[lo..hi] == idx[lo..mid] + idx[mid..hi]
  {
    HalfBlocks(r, w, |ls|);
    lo, mid, hi := Shl(w, r + 1), Shl(2 * w + 1, r), Shl(w + 1, r + 1);
    ShlEven(2 * w, r);
    SliceJoin(ls, lo, mid, hi);
    SliceJoin(idx, lo, mid, hi);
  }

  lemma WholeBlock(ls: seq<Leaf>, idx: seq<nat>)
    requires |ls| == |idx| == N_LEAVES
    ensures IsBlock(ROUNDS, 0, N_LEAVES) && BlockOf(ls, idx, ROUNDS, 0) == Block(ls, idx)
  {
    assert Shl(0, 9) == 0 && Shl(1, 9) == 512;
    assert ls[0..512] == ls && idx[0..512] == idx;
  }

  // ----- accepted implies the declarative condition -----

  lemma {:induction false} DistinctBlocks(ls: seq<Leaf>, idx: seq<nat>, r: nat, w: nat)
    requires |ls| == |idx| && r <= ROUNDS && IsBlock(r, w, |ls|) && Passed(ls, idx)
    ensures AllDistinct(BlockOf(ls, idx, r, w).idx)
  {
    if r > 0 {
      var lo, mid, hi := Parts(ls, idx, r - 1, w);
      DistinctBlocks(ls, idx, r - 1, 2 * w);
      DistinctBlocks(ls, idx, r - 1, 2 * w + 1);
      assert RoundOk(ls, idx, r - 1) && HalvesOk(ls, idx, r - 1, w);
      DistinctConcat(idx[lo..mid], idx[mid..hi]);
    }
  }

  lemma DistinctConcat(s: seq<nat>, t: seq<nat>)
    requires AllDistinct(s) && AllDistinct(t) && NoneShared(s, t)
    ensures AllDistinct(s + t)
  {}

  lemma {:induction false} ZeroPrefix(ls: seq<Leaf>, idx: seq<nat>, r: nat, w: nat, k: nat)
    requires |ls| == |idx| && 1 <= r <= ROUNDS && IsBlock(r, w, |ls|) && k < 3 * r && Passed(ls, idx)
    ensures XorAll(BlockOf(ls, idx, r, w).leaves, k) == 0
    decreases r
  {
    HalfBlocks(r - 1, w, |ls|);
    if k >= 3 * (r - 1) {
      HalvesAgree(ls, idx, r - 1, w, k);
    } else {
      ZeroPrefix(ls, idx, r - 1, 2 * w, k);
      ZeroPrefix(ls, idx, r - 1, 2 * w + 1, k);
    }
    HalvesCancel(ls, idx, r - 1, w, k);
  }

  // What round r compares.
  lemma HalvesAgree(ls: seq<Leaf>, idx: seq<nat>, r: nat, w: nat, k: nat)
    requires |ls| == |idx| && r < ROUNDS && IsBlock(r + 1, w, |ls|) && 3 * r <= k < 3 * r + 3 && Passed(ls, idx)
    ensures IsBlock(r, 2 * w, |ls|) && IsBlock(r, 2 * w + 1, |ls|)
    ensures XorAll(BlockOf(ls, idx, r, 2 * w).leaves, k) == XorAll(BlockOf(ls, idx, r, 2 * w + 1).leaves, k)
  {
    HalfBlocks(r, w, |ls|);
    assert RoundOk(ls, idx, r) && HalvesOk(ls, idx, r, w);
    SamePrefix(BlockOf(ls, idx, r, 2 * w), BlockOf(ls, idx, r, 2 * w + 1), r, k - 3 * r);
  }

  // A block's exclusive or vanishes at byte k exactly when its halves agree there.
  lemma HalvesCancel(ls: seq<Leaf>, idx: seq<nat>, r: nat, w: nat, k: nat)
    requires |ls| == |idx| && IsBlock(r + 1, w, |ls|) && k < HASH_LENGTH
    ensures IsBlock(r, 2 * w, |ls|) && IsBlock(r, 2 * w + 1, |ls|)
    ensures XorAll(BlockOf(ls, idx, r + 1, w).leaves, k) == 0
       <==> XorAll(BlockOf(ls, idx, r, 2 * w).leaves, k) == XorAll(BlockOf(ls, idx, r, 2 * w + 1).leaves, k)
  {
    var lo, mid, hi := Parts(ls, idx, r, w);
    EqualCancel(ls[lo..mid], ls[mid..hi], k);
  }

  lemma EqualCancel(a: seq<Leaf>, b: seq<Leaf>, k: nat)
    requires k < HASH_LENGTH
    ensures XorAll(a + b, k) == 0 <==> XorAll(a, k) == XorAll(b, k)
  {
    XorAllSplit(a, b, k);
    XorIsZero(XorAll(a, k), XorAll(b, k));
  }

  lemma SamePrefix(a: Block, b: Block, r: nat, i: nat)
    requires r < ROUNDS && i < 3 && BlockHash(a, r)[..3] == BlockHash(b, r)[..3]
    ensures XorAll(a.leaves, 3 * r + i) == XorAll(b.leaves, 3 * r + i)
  {
    assert BlockHash(a, r)[..3][i] == BlockHash(b, r)[..3][i];
  }

  lemma OrderedBlock(ls: seq<Leaf>, idx: seq<nat>, r: nat, w: nat)
    requires |ls| == |idx| && 1 <= r <= ROUNDS && IsBlock(r, w, |ls|)
    requires Passed(ls, idx) && Words(idx)
    ensures FirstsOrdered(idx, r, w)
  {
    var lo, mid, hi := Parts(ls, idx, r - 1, w);
    assert RoundOk(ls, idx, r - 1) && HalvesOk(ls, idx, r - 1, w);
    LaterFirst(idx[lo..mid], idx[mid..hi]);
  }

  lemma LaterFirst(s: seq<nat>, t: seq<nat>)
    requires |s| == |t| > 0 && Words(s) && Words(t) && NoneShared(s, t)
    ensures !LexLess(Encode(t), Encode(s)) <==> s[0] < t[0]
  {
    assert s[0] != t[0];
    FirstDecides(t, s);
  }

  lemma Sound(ls: seq<Leaf>, idx: seq<nat>)
    requires |ls| == |idx| == N_LEAVES && Words(idx) && Accepts(ls, idx)
    ensures AllDistinct(idx) && Ordered(idx) && Collides(ls)
    ensures forall k :: 0 <= k < HASH_LENGTH ==> XorAll(ls, k) == 0
  {
    WholeBlock(ls, idx);
    DistinctBlocks(ls, idx, ROUNDS, 0);
    forall r, w | 1 <= r <= ROUNDS && 0 <= w && IsBlock(r, w, |idx|)
      ensures FirstsOrdered(idx, r, w)
    {
      OrderedBlock(ls, idx, r, w);
    }
    forall r, w, k | 1 <= r <= ROUNDS && 0 <= w && IsBlock(r, w, |ls|) && 0 <= k < 3 * r
      ensures XorsToZero(ls, r, w, k)
    {
      ZeroPrefix(ls, idx, r, w, k);
      ShlMono(w, w + 1, r);
    }
    forall k | 0 <= k < 3 * ROUNDS
      ensures XorAll(ls, k) == 0
    {
      ZeroPrefix(ls, idx, ROUNDS, 0, k);
    }
  }

  // ----- the declarative condition implies accepted -----

  lemma PairHolds(ls: seq<Leaf>, idx: seq<nat>, r: nat, w: nat)
    requires |ls| == |idx| && r < ROUNDS && IsBlock(r + 1, w, |ls|)
    requires Words(idx) && AllDistinct(idx) && Ordered(idx) && Collides(ls)
    ensures HalvesOk(ls, idx, r, w)
  {
    var lo, mid, hi := Parts(ls, idx, r, w);
    assert FirstsOrdered(idx, r + 1, w);
    LaterFirst(idx[lo..mid], idx[mid..hi]);
    HalvesCollide(ls, idx, r, w);
  }

  lemma HalvesCollide(ls: seq<Leaf>, idx: seq<nat>, r: nat, w: nat)
    requires |ls| == |idx| && r < ROUNDS && IsBlock(r + 1, w, |ls|) && Collides(ls)
    requires IsBlock(r, 2 * w, |ls|) && IsBlock(r, 2 * w + 1, |ls|)
    ensures BlockHash(BlockOf(ls, idx, r, 2 * w), r)[..3] == BlockHash(BlockOf(ls, idx, r, 2 * w + 1), r)[..3]
  {
    var a, b := BlockOf(ls, idx, r, 2 * w), BlockOf(ls, idx, r, 2 * w + 1);
    forall k | 3 * r <= k < 3 * r + 3
      ensures XorAll(a.leaves, k) == XorAll(b.leaves, k)
    {
      assert XorsToZero(ls, r + 1, w, k);
      HalvesCancel(ls, idx, r, w, k);
    }
    PrefixFromBytes(a, b, r);
  }

  lemma PrefixFromBytes(a: Block, b: Block, r: nat)
    requires r < ROUNDS
    requires forall k :: 3 * r <= k < 3 * r + 3 ==> XorAll(a.leaves, k) == XorAll(b.leaves, k)
    ensures BlockHash(a, r)[..3] == BlockHash(b, r)[..3]
  {}

  lemma Complete(ls: seq<Leaf>, idx: seq<nat>)
    requires |ls| == |idx| == N_LEAVES && Words(idx)
    requires AllDistinct(idx) && Ordered(idx) && Collides(ls)
    requires forall k :: 0 <= k < HASH_LENGTH ==> XorAll(ls, k) == 0
    ensures Accepts(ls, idx)
  {
    forall r, w | 0 <= r < ROUNDS && 0 <= w && IsBlock(r + 1, w, |ls|)
      ensures HalvesOk(ls, idx, r, w)
    {
      PairHolds(ls, idx, r, w);
    }
  }

  /** For every hash function, header and list of 512 words: the nine rounds and the final zero test
      pass exactly when the list is an Equihash solution. */
  lemma RoundsDecide(blake: seq<Byte> -> seq<Byte>, header: seq<Byte>, idx: seq<nat>)
    requires IsHash50(blake) && |idx| == N_LEAVES && Words(idx)
    ensures Accepts(Leaves(blake, header, idx), idx) <==> IsSolution(blake, header, idx)
  {
    var ls := Leaves(blake, header, idx);
    if Accepts(ls, idx) {
      Sound(ls, idx);
    }
    if IsSolution(blake, header, idx) {
      Complete(ls, idx);
    }
  }
}
