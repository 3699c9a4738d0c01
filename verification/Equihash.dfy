/** equihash.hpp: what an Equihash (200, 9) solution is.  A leaf is the 30-byte expanded hash of one
    index; a block is an aligned run of leaves; the conditions are those of the generalised birthday
    problem with Wagner's algorithm binding (Zcash Protocol Specification, section 7.7.1). */
module Equihash {
  import opened Bits
  import opened BitGroups

  const N_LEAVES := 512
  const ROUNDS := 9
  const HASH_LENGTH := 30

  type Leaf = s: seq<Byte> | |s| == HASH_LENGTH witness seq(HASH_LENGTH, _ => 0)
  datatype Block = Block(leaves: seq<Leaf>, idx: seq<nat>)

  // ----- leaves -----

  function LE32(v: nat): seq<Byte> {
    [v % 256, v / 256 % 256, v / 65536 % 256, v / 16777216 % 256]
  }

  // blake stands for BLAKE2b-400 personalised with "ZcashPoW", 200 and 9; each digest serves two indices.
  ghost predicate IsHash50(blake: seq<Byte> -> seq<Byte>) {
    forall m :: |blake(m)| == 50
  }

  function LeafOf(blake: seq<Byte> -> seq<Byte>, header: seq<Byte>, index: nat): Leaf
    requires IsHash50(blake)
  {
    var digest := blake(header + LE32(index / 2));
    var offset := index % 2 * 25;
    Expanded(digest[offset..offset + 25], 20, 3, 10)
  }

  function Leaves(blake: seq<Byte> -> seq<Byte>, header: seq<Byte>, idx: seq<nat>): (ls: seq<Leaf>)
    requires IsHash50(blake)
    ensures |ls| == |idx|
    ensures forall i :: 0 <= i < |idx| ==> ls[i] == LeafOf(blake, header, idx[i])
  {
    if idx == [] then [] else Leaves(blake, header, idx[..|idx| - 1]) + [LeafOf(blake, header, idx[|idx| - 1])]
  }

  // ----- the declarative condition -----

  // Byte k of the exclusive or of the leaves.
  function XorAll(ls: seq<Leaf>, k: nat): Byte
    requires k < HASH_LENGTH
  {
    if ls == [] then 0 else XorByte(XorAll(ls[..|ls| - 1], k), ls[|ls| - 1][k])
  }

  ghost predicate AllDistinct(idx: seq<nat>) {
    forall i, j :: 0 <= i < j < |idx| ==> idx[i] != idx[j]
  }

  // Block w of 2^r positions starts at w << r; it lies in a list of n.
  ghost predicate IsBlock(r: nat, w: nat, n: nat) {
    Shl(w + 1, r) <= n
  }

  ghost predicate Ordered(idx: seq<nat>) {
    forall r, w :: 1 <= r <= ROUNDS && 0 <= w && IsBlock(r, w, |idx|) ==> FirstsOrdered(idx, r, w)
  }

  // In block w of size 2^r, the first index of the left half is below the first of the right half.
  ghost predicate FirstsOrdered(idx: seq<nat>, r: nat, w: nat)
    requires r >= 1
  {
    var lo, mid := Shl(w, r), Shl(2 * w + 1, r - 1);
    lo < mid < |idx| && idx[lo] < idx[mid]
  }

  ghost predicate Collides(ls: seq<Leaf>) {
    forall r, w, k :: 1 <= r <= ROUNDS && 0 <= w && IsBlock(r, w, |ls|) && 0 <= k < 3 * r ==> XorsToZero(ls, r, w, k)
  }

  // Byte k of the exclusive or of block w of 2^r leaves is zero.
  ghost predicate XorsToZero(ls: seq<Leaf>, r: nat, w: nat, k: nat)
    requires k < HASH_LENGTH
  {
    var lo, hi := Shl(w, r), Shl(w + 1, r);
    lo < hi <= |ls| && XorAll(ls[lo..hi], k) == 0
  }

  ghost predicate IsSolution(blake: seq<Byte> -> seq<Byte>, header: seq<Byte>, idx: seq<nat>)
    requires IsHash50(blake)
  {
    var ls := Leaves(blake, header, idx);
    && |idx| == N_LEAVES
    && AllDistinct(idx)
    && Ordered(idx)
    && Collides(ls)
    && forall k :: 0 <= k < HASH_LENGTH ==> XorAll(ls, k) == 0
  }

  // ----- the same condition, round by round -----

  // The index bytes of a block, as the verifier stores them.
  function Encode(idx: seq<nat>): (s: seq<Byte>)
    ensures |s| == 4 * |idx|
  {
    if idx == [] then [] else Encode(idx[..|idx| - 1]) + ToBE(idx[|idx| - 1], 4)
  }

  // memcmp(s, t) < 0
  predicate LexLess(s: seq<Byte>, t: seq<Byte>)
    requires |s| == |t|
  {
    s != [] && (s[0] < t[0] || (s[0] == t[0] && LexLess(s[1..], t[1..])))
  }

  // The hash bytes of a block that rounds 0..r have not yet trimmed.
  function BlockHash(b: Block, r: nat): (h: seq<Byte>)
    requires r <= ROUNDS
    ensures |h| == HASH_LENGTH - 3 * r
  {
    seq<Byte>(HASH_LENGTH - 3 * r, k requires 0 <= k < HASH_LENGTH - 3 * r => XorAll(b.leaves, 3 * r + k))
  }

  // Block w of 2^r leaves; IsBlock says that it exists.
  function BlockOf(ls: seq<Leaf>, idx: seq<nat>, r: nat, w: nat): Block
    requires |ls| == |idx| && IsBlock(r, w, |ls|)
  {
    ShlMono(w, w + 1, r);
    Block(ls[Shl(w, r)..Shl(w + 1, r)], idx[Shl(w, r)..Shl(w + 1, r)])
  }

  lemma HalfBlocks(r: nat, w: nat, n: nat)
    requires IsBlock(r + 1, w, n)
    ensures IsBlock(r, 2 * w, n) && IsBlock(r, 2 * w + 1, n)
    ensures Shl(w, r + 1) < Shl(2 * w + 1, r) < Shl(w + 1, r + 1)
  {
    ShlMono(2 * w, 2 * w + 1, r);
    ShlMono(2 * w + 1, 2 * w + 2, r);
  }

  // What round r checks of two neighbouring blocks.
  ghost predicate PairOk(a: Block, b: Block, r: nat)
    requires r < ROUNDS
  {
    && BlockHash(a, r)[..3] == BlockHash(b, r)[..3]
    && |a.idx| == |b.idx|
    && !LexLess(Encode(b.idx), Encode(a.idx))
    && NoneShared(a.idx, b.idx)
  }

  ghost predicate NoneShared(s: seq<nat>, t: seq<nat>) {
    forall x, y :: 0 <= x < |s| && 0 <= y < |t| ==> s[x] != t[y]
  }

  // Round r passes for the two halves of block w of the next size.
  ghost predicate HalvesOk(ls: seq<Leaf>, idx: seq<nat>, r: nat, w: nat)
    requires |ls| == |idx| && r < ROUNDS && IsBlock(r + 1, w, |ls|)
  {
    HalfBlocks(r, w, |ls|);
    PairOk(BlockOf(ls, idx, r, 2 * w), BlockOf(ls, idx, r, 2 * w + 1), r)
  }

  ghost predicate RoundOk(ls: seq<Leaf>, idx: seq<nat>, r: nat)
    requires |ls| == |idx| && r < ROUNDS
  {
    forall w :: 0 <= w && IsBlock(r + 1, w, |ls|) ==> HalvesOk(ls, idx, r, w)
  }

  ghost predicate Passed(ls: seq<Leaf>, idx: seq<nat>)
    requires |ls| == |idx|
  {
    forall r :: 0 <= r < ROUNDS ==> RoundOk(ls, idx, r)
  }

  // Nine rounds pass and the last three bytes cancel.
  ghost predicate Accepts(ls: seq<Leaf>, idx: seq<nat>)
    requires |ls| == |idx| == N_LEAVES
  {
    && Passed(ls, idx)
    && forall k :: 3 * ROUNDS <= k < HASH_LENGTH ==> XorAll(ls, k) == 0
  }

  // ----- facts about exclusive or over leaves -----

  lemma {:induction false} XorAllSplit(a: seq<Leaf>, b: seq<Leaf>, k: nat)
    requires k < HASH_LENGTH
    ensures XorAll(a + b, k) == XorByte(XorAll(a, k), XorAll(b, k))
  {
    if b == [] {
      assert a + b == a;
      XorUnit(XorAll(a, k));
    } else {
      var c := b[..|b| - 1];
      XorAllSplit(a, c, k);
      assert (a + b)[..|a + b| - 1] == a + c;
      XorAssoc(XorAll(a, k), XorAll(c, k), b[|b| - 1][k]);
    }
  }

  // ----- facts about encoded indices -----

  function Word(s: seq<Byte>, x: nat): seq<Byte>
    requires 4 * x + 4 <= |s|
  {
    s[4 * x..4 * x + 4]
  }

  lemma {:induction false} EncodeAt(idx: seq<nat>, x: nat)
    requires x < |idx|
    ensures Word(Encode(idx), x) == ToBE(idx[x], 4)
  {
    if x < |idx| - 1 {
      EncodeAt(idx[..|idx| - 1], x);
    }
  }

  lemma {:induction false} EncodeConcat(s: seq<nat>, t: seq<nat>)
    ensures Encode(s + t) == Encode(s) + Encode(t)
  {
    if t == [] {
      assert s + t == s;
    } else {
      EncodeConcat(s, t[..|t| - 1]);
      assert (s + t)[..|s + t| - 1] == s + t[..|t| - 1];
    }
  }

  ghost predicate Words(idx: seq<nat>) {
    forall i :: 0 <= i < |idx| ==> Keep(idx[i], 32) == idx[i]
  }

  lemma WordInjective(v: nat, w: nat)
    requires Keep(v, 32) == v && Keep(w, 32) == w
    ensures ToBE(v, 4) == ToBE(w, 4) <==> v == w
  {
    BEOfToBE(v, 4);
    BEOfToBE(w, 4);
  }

  // memcmp on big-endian words compares the numbers.
  lemma {:induction false} LexLessIsLess(v: nat, w: nat, n: nat)
    requires Keep(v, 8 * n) == v && Keep(w, 8 * n) == w
    ensures LexLess(ToBE(v, n), ToBE(w, n)) <==> v < w
    decreases n
  {
    if n > 0 {
      QuotientFits(v, n);
      QuotientFits(w, n);
      LexLessIsLess(v / 256, w / 256, n - 1);
      LexLessAppend(ToBE(v / 256, n - 1), ToBE(w / 256, n - 1), [v % 256], [w % 256]);
      BEOfToBE(v / 256, n - 1);
      BEOfToBE(w / 256, n - 1);
    }
  }

  lemma QuotientFits(v: nat, n: nat)
    requires n > 0 && Keep(v, 8 * n) == v
    ensures Keep(v / 256, 8 * (n - 1)) == v / 256
  {
    KeepByte(v, 8 * (n - 1));
    assert 8 + 8 * (n - 1) == 8 * n;
  }

  lemma {:induction false} LexLessAppend(s: seq<Byte>, t: seq<Byte>, s': seq<Byte>, t': seq<Byte>)
    requires |s| == |t| && |s'| == |t'|
    ensures LexLess(s + s', t + t') <==> LexLess(s, t) || (s == t && LexLess(s', t'))
  {
    if s == [] {
      assert s + s' == s' && t + t' == t';
    } else {
      LexLessAppend(s[1..], t[1..], s', t');
      assert (s + s')[1..] == s[1..] + s' && (t + t')[1..] == t[1..] + t';
      assert s == [s[0]] + s[1..] && t == [t[0]] + t[1..];
    }
  }

  // When the first indices differ they decide the comparison of whole index lists.
  lemma FirstDecides(s: seq<nat>, t: seq<nat>)
    requires |s| == |t| > 0 && Words(s) && Words(t) && s[0] != t[0]
    ensures LexLess(Encode(s), Encode(t)) <==> s[0] < t[0]
  {
    assert s == [s[0]] + s[1..] && t == [t[0]] + t[1..];
    EncodeConcat([s[0]], s[1..]);
    EncodeConcat([t[0]], t[1..]);
    assert Encode([s[0]]) == ToBE(s[0], 4) && Encode([t[0]]) == ToBE(t[0], 4);
    LexLessAppend(ToBE(s[0], 4), ToBE(t[0], 4), Encode(s[1..]), Encode(t[1..]));
    LexLessIsLess(s[0], t[0], 4);
    WordInjective(s[0], t[0]);
  }
}
