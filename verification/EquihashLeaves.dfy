/** equihash.hpp: which bits of a digest a leaf holds.  A digest serves two indices; together their leaves hold its 400
    bits in order, twenty at a time. */
module EquihashLeaves {
  import opened Bits
  import opened BitGroups
  import opened Equihash
  import ConvertBits
  import Sequences

  // The little-endian value of four bytes.
  function FromLE32(b: seq<Byte>): nat
    requires |b| == 4
  {
    var b0: nat, b1: nat, b2: nat, b3: nat := b[0], b[1], b[2], b[3];
    b0 + 256 * b1 + 65536 * b2 + 16777216 * b3
  }

  lemma LE32Value(v: nat)
    requires v < 0x1_0000_0000
    ensures FromLE32(LE32(v)) == v
  {
    assert v / 65536 == v / 256 / 256 && v / 16777216 == v / 256 / 256 / 256;
  }

  // The three bytes of a leaf that hold its j-th group.
  function LeafGroup(leaf: Leaf, j: nat): nat
    requires j < 10
  {
    BE(leaf[3 * j..3 * j + 3])
  }

  lemma ExpandedGroup(s: seq<Byte>, j: nat)
    requires |s| == 25 && j < 10
    ensures LeafGroup(Expanded(s, 20, 3, 10), j) == ConvertBits.Number(BitsIn(s)[20 * j..20 * j + 20])
  {
    ExpandedAt(s, 20, 3, 10, j);
    GroupIsBits(s, 20, j, 20 * j);
    ThreeBytes(s, j);
  }

  lemma ThreeBytes(s: seq<Byte>, j: nat)
    requires |s| == 25 && j < 10
    ensures BE(ToBE(Group(s, 20, j), 3)) == Group(s, 20, j)
  {
    BEOfToBE(Group(s, 20, j), 3);
    KeepIdle(Shr(BE(s), 200 - (j + 1) * 20), 20, 24);
  }

  lemma HalfBits(s: seq<Byte>, offset: nat, i: nat, j: nat)
    requires |s| == 50 && (offset == 0 || offset == 25) && i <= j <= 200
    ensures BitsIn(s[offset..offset + 25])[i..j] == BitsIn(s)[8 * offset + i..8 * offset + j]
  {
    var x, y := s[..25], s[25..];
    assert s == x + y && s[0..25] == x && s[25..50] == y;
    BitsConcat(x, y);
    Sequences.SliceAppended(BitsIn(x), BitsIn(y), i, j);
  }

  lemma PartHolds(digest: seq<Byte>, half: nat, j: nat)
    requires |digest| == 50 && half < 2 && j < 10
    ensures LeafGroup(Expanded(digest[half * 25..half * 25 + 25], 20, 3, 10), j)
            == ConvertBits.Number(BitsIn(digest)[200 * half + 20 * j..200 * half + 20 * j + 20])
  {
    ExpandedGroup(digest[half * 25..half * 25 + 25], j);
    HalfBits(digest, half * 25, 20 * j, 20 * j + 20);
  }

  /** The digest for g is cut into twenty groups of 20 bits: the leaf of index 2g holds the first ten in order, that of
      index 2g + 1 the last ten. */
  lemma DigestHolds(blake: seq<Byte> -> seq<Byte>, header: seq<Byte>, g: nat, k: nat)
    requires IsHash50(blake) && k < 20
    ensures |BitsIn(blake(header + LE32(g)))| == 400
    ensures LeafGroup(LeafOf(blake, header, 2 * g + k / 10), k % 10)
            == ConvertBits.Number(BitsIn(blake(header + LE32(g)))[20 * k..20 * k + 20])
  {
    var half, j := k / 10, k % 10;
    assert k == 10 * half + j && half < 2;
    assert (2 * g + half) / 2 == g && (2 * g + half) % 2 == half;
    PartHolds(blake(header + LE32(g)), half, j);
  }
}
