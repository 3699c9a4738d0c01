/** equihash.hpp: unpacking a byte string into fixed-width bit groups (ExpandArray) and reading the
    groups as indices (GetIndicesFromMinimal). */
module BitGroups {
  import opened Bits
  import ConvertBits
  import Sequences

  // Bits [k * b, (k + 1) * b) of s, most significant first, as a number.
  function Group(s: seq<Byte>, b: nat, k: nat): nat
    requires (k + 1) * b <= 8 * |s|
  {
    Keep(Shr(BE(s), 8 * |s| - (k + 1) * b), b)
  }

  // The first n groups, each spelled in `width` whole bytes with zeros in front.
  function Expanded(s: seq<Byte>, b: nat, width: nat, n: nat): (out: seq<Byte>)
    requires n * b <= 8 * |s|
    ensures |out| == n * width
  {
    if n == 0 then []
    else
      assert n * b == (n - 1) * b + b && n * width == (n - 1) * width + width;
      Expanded(s, b, width, n - 1) + ToBE(Group(s, b, n - 1), width)
  }

  function CeilBytes(bits: nat): nat {
    (bits + 7) / 8
  }

  // ----- the arithmetic of one step -----

  // Shifting a byte into the 32-bit accumulator.
  lemma ShiftIn(x: nat, b: Byte)
    ensures Or(Keep(Keep(x, 32) * 256, 32), b) == Keep(256 * x + b, 32)
  {
    KeepShifted(x, b, 24);
    ShiftedWord(x);
    OrShifted(Keep(x, 24), b);
  }

  lemma ShiftedWord(x: nat)
    ensures Keep(Keep(x, 32) * 256, 32) == 256 * Keep(x, 24)
  {
    KeepShifted(Keep(x, 32), 0, 24);
    KeepOfKeep(x, 32, 24);
  }

  // The masked, shifted accumulator is eight bits of the group it holds, t bits from its right end.
  lemma OutByte(acc: nat, a: nat, b: nat, t: nat)
    requires t <= b
    ensures And(Shr(acc, a + t), And(Shr(Mask(b), t), Mask(8))) == Keep(Shr(Keep(Shr(acc, a), b), t), 8)
  {
    ShrShr(acc, a, t);
    ShrOfKeep(Shr(acc, a), t, b - t);
    MaskShift(b, t);
    ByteOfMask(Shr(acc, a + t), b - t);
  }

  lemma ByteOfMask(z: nat, c: nat)
    ensures And(z, And(Mask(c), Mask(8))) == Keep(Keep(z, c), 8)
  {
    MaskKeep(c, 8);
    if c >= 8 {
      AndMask(z, 8);
      KeepOfKeep(z, c, 8);
    } else {
      AndMask(z, c);
      KeepIdle(z, c, 8);
    }
  }

  lemma {:induction false} KeepIdle(x: nat, m: nat, k: nat)
    requires m <= k
    ensures Keep(Keep(x, m), k) == Keep(x, m)
    decreases k
  {
    if m == 0 {
      KeepZero(k);
    } else {
      KeepIdle(x / 2, m - 1, k - 1);
      Half(Keep(x / 2, m - 1), x % 2);
    }
  }

  // The 32-bit accumulator holds the group that ends a bits before the bytes read so far.
  lemma HeldGroup(s: seq<Byte>, b: nat, k: nat, i: nat, a: nat)
    requires i <= |s| && (k + 1) * b + a == 8 * i && a + b <= 32
    ensures Keep(Shr(Keep(BE(s[..i]), 32), a), b) == Group(s, b, k)
  {
    var v := BE(s[..i]);
    ShrOfKeep(v, a, 32 - a);
    KeepOfKeep(Shr(v, a), 32 - a, b);
    BEPrefix(s, i);
    ShrShr(BE(s), 8 * (|s| - i), a);
    assert 8 * (|s| - i) + a == 8 * |s| - (k + 1) * b;
  }

  // ----- the methods -----

  /** Writes one group, held in acc above its low `a` bits, into out[j..j + width]. */
  method WriteGroup(out: array<Byte>, j: nat, width: nat, bytePad: nat, bitLen: nat, acc: nat, a: nat)
    requires j + width <= out.Length
    requires bytePad <= width && width - bytePad == CeilBytes(bitLen) && bitLen >= 1
    modifies out
    ensures out[..] == old(out[..j]) + ToBE(Keep(Shr(acc, a), bitLen), width) + old(out[j + width..])
  {
    ghost var g := Keep(Shr(acc, a), bitLen);
    ghost var want := ToBE(g, width);
    for x := 0 to bytePad
      invariant out[..j] == old(out[..j]) && out[j + width..] == old(out[j + width..])
      invariant out[j..j + x] == want[..x]
    {
      ToBEAt(g, width, x);
      ShrClears(Shr(acc, a), bitLen, 8 * (width - 1 - x));
      KeepZero(8);
      out[j + x] := 0;
    }
    for x := bytePad to width
      invariant out[..j] == old(out[..j]) && out[j + width..] == old(out[j + width..])
      invariant out[j..j + x] == want[..x]
    {
      var t := 8 * (width - x - 1);
      OutByte(acc, a, bitLen, t);
      ToBEAt(g, width, x);
      out[j + x] := And(Shr(acc, a + t), And(Shr(Mask(bitLen), t), Mask(8)));
    }
    assert out[..] == out[..j] + out[j..j + width] + out[j + width..];
  }

  // What the loop of ExpandArray keeps after i input bytes: k groups written, accBits bits pending.
  ghost predicate Progress(input: seq<Byte>, i: nat, out: seq<Byte>, was: seq<Byte>, bitLen: nat, width: nat,
                           accValue: nat, accBits: nat, j: nat, k: nat)
  {
    && i <= |input| && |out| == |was| && j <= |out|
    && k * bitLen + accBits == 8 * i && accBits < bitLen
    && accValue == Keep(BE(input[..i]), 32)
    && j == k * width
    && out == Expanded(input, bitLen, width, k) + was[j..]
  }

  lemma Splice(done: seq<Byte>, was: seq<Byte>, width: nat)
    requires |done| + width <= |was|
    ensures (done + was[|done|..])[..|done|] == done
    ensures (done + was[|done|..])[|done| + width..] == was[|done| + width..]
  {}

  // Writing the held group turns k groups into k + 1.
  lemma GroupWritten(input: seq<Byte>, i: nat, out: seq<Byte>, was: seq<Byte>, bitLen: nat, width: nat,
                     accValue: nat, a: nat, k: nat)
    requires bitLen >= 1 && i <= |input| && k * bitLen + bitLen + a == 8 * i && a + bitLen <= 32 && a < bitLen
    requires accValue == Keep(BE(input[..i]), 32)
    requires k * width + width <= |was|
    requires out == Expanded(input, bitLen, width, k) + ToBE(Keep(Shr(accValue, a), bitLen), width)
                  + was[k * width + width..]
    ensures Progress(input, i, out, was, bitLen, width, accValue, a, k * width + width, k + 1)
  {
    assert (k + 1) * bitLen == k * bitLen + bitLen && (k + 1) * width == k * width + width;
    HeldGroup(input, bitLen, k, i, a);
  }

  /** A complete group: k groups written become k + 1. */
  method FinishGroup(input: seq<Byte>, i: nat, out: array<Byte>, bitLen: nat, bytePad: nat, width: nat,
                     accValue: nat, a: nat, j: nat, ghost k: nat, ghost was: seq<Byte>)
    requires 8 <= bitLen <= 25 && i <= |input| && |was| == out.Length
    requires width == CeilBytes(bitLen) + bytePad && 8 * width * |input| / bitLen <= out.Length
    requires k * bitLen + bitLen + a == 8 * i && a < 8 && accValue == Keep(BE(input[..i]), 32)
    requires j == k * width <= out.Length && k * bitLen <= 8 * |input|
    requires out[..] == Expanded(input, bitLen, width, k) + was[j..]
    modifies out
    ensures Progress(input, i, out[..], was, bitLen, width, accValue, a, j + width, k + 1)
  {
    NextGroup(|input|, bitLen, width, k, a, i);
    Splice(Expanded(input, bitLen, width, k), was, width);
    WriteGroup(out, j, width, bytePad, bitLen, accValue, a);
    GroupWritten(input, i, out[..], was, bitLen, width, accValue, a, k);
  }

  /** One turn of the loop of ExpandArray: shift a byte in, and write a group once one is complete. */
  method FeedByte(input: seq<Byte>, i: nat, out: array<Byte>, bitLen: nat, bytePad: nat, width: nat,
                  accValue0: nat, accBits0: nat, j0: nat, ghost k: nat, ghost was: seq<Byte>)
    returns (accValue: nat, accBits: nat, j: nat)
    requires 8 <= bitLen <= 25 && i < |input|
    requires width == CeilBytes(bitLen) + bytePad && 8 * width * |input| / bitLen <= out.Length
    requires Progress(input, i, out[..], was, bitLen, width, accValue0, accBits0, j0, k)
    modifies out
    ensures Progress(input, i + 1, out[..], was, bitLen, width, accValue, accBits, j,
                     if accBits0 + 8 >= bitLen then k + 1 else k)
  {
    j := j0;
    assert input[..i + 1][..i] == input[..i];
    ShiftIn(BE(input[..i]), input[i]);
    accValue := Or(Keep(accValue0 * 256, 32), input[i]);
    accBits := accBits0 + 8;
    if accBits >= bitLen {
      accBits := accBits - bitLen;
      FinishGroup(input, i + 1, out, bitLen, bytePad, width, accValue, accBits, j, k, was);
      j := j + width;
    }
  }

  /** Fills out with the bit groups of input.  The accumulator is a 32-bit word, so a group can be at
      most 25 bits wide (the callers pass 20 and 21); the caller sizes the output exactly. */
  method ExpandArray(input: seq<Byte>, out: array<Byte>, outLen: nat, bitLen: nat, bytePad: nat)
    requires 8 <= bitLen <= 25
    requires outLen == 8 * (CeilBytes(bitLen) + bytePad) * |input| / bitLen
    requires outLen <= out.Length
    modifies out
    ensures 8 * |input| / bitLen * bitLen <= 8 * |input|
    ensures var done := Expanded(input, bitLen, CeilBytes(bitLen) + bytePad, 8 * |input| / bitLen);
            |done| <= out.Length && out[..] == done + old(out[..])[|done|..]
  {
    var width := CeilBytes(bitLen) + bytePad;
    var accBits: nat, accValue: nat, j: nat := 0, 0, 0;
    ghost var k: nat := 0;
    KeepZero(32);
    for i := 0 to |input|
      invariant Progress(input, i, out[..], old(out[..]), bitLen, width, accValue, accBits, j, k)
    {
      ghost var more := accBits + 8 >= bitLen;
      accValue, accBits, j := FeedByte(input, i, out, bitLen, bytePad, width, accValue, accBits, j, k, old(out[..]));
      k := if more then k + 1 else k;
    }
    GroupCount(8 * |input|, bitLen, k, accBits);
  }

  lemma MulMono(x: int, y: int, b: nat)
    requires x <= y
    ensures x * b <= y * b
  {
    assert y * b == x * b + (y - x) * b;
  }

  lemma GroupCount(n: nat, b: nat, k: nat, r: nat)
    requires k * b + r == n && r < b
    ensures n / b == k
  {
    var q := n / b;
    assert q * b <= n < q * b + b;
    if q > k {
      MulMono(k + 1, q, b);
    } else if q < k {
      MulMono(q + 1, k, b);
    }
  }

  lemma NextGroup(n: nat, b: nat, width: nat, k: nat, a: nat, i: nat)
    requires b >= 1 && i <= n && k * b + b + a == 8 * i
    ensures (k + 1) * b + a == 8 * i
    ensures (k + 1) * width == k * width + width <= 8 * width * n / b
  {
    MulMono((k + 1) * b, 8 * n, width);
    assert (k + 1) * b * width == (k + 1) * width * b;
    assert 8 * n * width == 8 * width * n;
    QuotientAtLeast(8 * width * n, b, (k + 1) * width);
  }

  lemma QuotientAtLeast(x: nat, b: nat, q: nat)
    requires b >= 1 && q * b <= x
    ensures q <= x / b
  {
    var y := x / b;
    assert x < y * b + b == (y + 1) * b;
    if y < q {
      MulMono(y + 1, q, b);
    }
  }

  // ----- reading the groups back as indices -----

  lemma {:induction false} ExpandedAt(s: seq<Byte>, b: nat, width: nat, n: nat, k: nat)
    requires n * b <= 8 * |s| && k < n
    ensures (k + 1) * b <= 8 * |s| && 0 <= k * width <= k * width + width <= n * width
    ensures Expanded(s, b, width, n)[k * width..k * width + width] == ToBE(Group(s, b, k), width)
  {
    MulMono(k + 1, n, b);
    MulMono(k + 1, n, width);
    assert n * b == (n - 1) * b + b && n * width == (n - 1) * width + width;
    var before := Expanded(s, b, width, n - 1);
    if k < n - 1 {
      ExpandedAt(s, b, width, n - 1, k);
      SliceOfFirst(before, ToBE(Group(s, b, n - 1), width), k * width, k * width + width);
    } else {
      SliceOfSecond(before, ToBE(Group(s, b, n - 1), width));
    }
  }

  lemma SliceOfFirst(x: seq<Byte>, y: seq<Byte>, lo: nat, hi: nat)
    requires lo <= hi <= |x|
    ensures (x + y)[lo..hi] == x[lo..hi]
  {}

  lemma SliceOfSecond(x: seq<Byte>, y: seq<Byte>)
    ensures (x + y)[|x|..|x| + |y|] == y
  {}

  lemma WholeGroups(n: nat, b: nat, count: nat)
    requires b >= 1 && 8 * n == count * b
    ensures 8 * n / b == count && 8 * 4 * n / b == 4 * count
  {
    GroupCount(8 * n, b, count, 0);
    assert 4 * count * b == 8 * 4 * n;
    GroupCount(8 * 4 * n, b, 4 * count, 0);
  }

  // All n groups of s.
  function Groups(s: seq<Byte>, b: nat, n: nat): (idx: seq<nat>)
    requires n * b <= 8 * |s|
    ensures |idx| == n
  {
    if n == 0 then []
    else assert n * b == (n - 1) * b + b; Groups(s, b, n - 1) + [Group(s, b, n - 1)]
  }

  /** The indices of a solution that is a whole number of (cBitLen + 1)-bit groups. */
  method GetIndicesFromMinimal(soln: seq<Byte>, cBitLen: nat, ghost count: nat) returns (ret: seq<nat>)
    requires 7 <= cBitLen <= 24
    requires 8 * |soln| == count * (cBitLen + 1)
    ensures ret == Groups(soln, cBitLen + 1, count)
  {
    WholeGroups(|soln|, cBitLen + 1, count);
    var lenIndices := 8 * 4 * |soln| / (cBitLen + 1);
    var bytePad := 4 - (cBitLen + 1 + 7) / 8;
    var bytes := new Byte[lenIndices](_ => 0);
    ExpandArray(soln, bytes, lenIndices, cBitLen + 1, bytePad);
    ret := ReadWords(soln, cBitLen + 1, bytes[..], count);
  }

  /** The loop that copies each four-byte group out as a big-endian word. */
  method ReadWords(ghost soln: seq<Byte>, ghost b: nat, bytes: seq<Byte>, ghost count: nat) returns (ret: seq<nat>)
    requires b <= 32 && count * b <= 8 * |soln| && bytes == Expanded(soln, b, 4, count)
    ensures ret == Groups(soln, b, count)
  {
    ret := [];
    var i := 0;
    while i < |bytes|
      invariant i == 4 * |ret| && |ret| <= count && |ret| * b <= 8 * |soln|
      invariant ret == Groups(soln, b, |ret|)
    {
      ExpandedAt(soln, b, 4, count, |ret|);
      GroupFitsWord(soln, b, |ret|);
      ret := ret + [BE(bytes[i..i + 4])];
      i := i + 4;
    }
  }

  lemma GroupFitsWord(s: seq<Byte>, b: nat, k: nat)
    requires b <= 32 && (k + 1) * b <= 8 * |s|
    ensures BE(ToBE(Group(s, b, k), 4)) == Group(s, b, k) == Keep(Group(s, b, k), 32)
  {
    BEOfToBE(Group(s, b, k), 4);
    KeepIdle(Shr(BE(s), 8 * |s| - (k + 1) * b), b, 32);
  }

  // ----- groups are stretches of the bit string -----

  // The bits of a byte string, the highest of each byte first.
  function BitsIn(s: seq<Byte>): (bs: seq<bool>)
    ensures |bs| == 8 * |s|
  {
    if s == [] then [] else BitsIn(s[..|s| - 1]) + ConvertBits.BitsOf(s[|s| - 1], 8)
  }

  lemma {:induction false} BytesAreBits(s: seq<Byte>)
    ensures ConvertBits.Number(BitsIn(s)) == BE(s)
  {
    if s != [] {
      var t, x := s[..|s| - 1], s[|s| - 1];
      BytesAreBits(t);
      ConvertBits.NumberConcat(BitsIn(t), ConvertBits.BitsOf(x, 8));
      ByteNumber(x);
      JoinByte(BE(t), x);
    }
  }

  lemma ByteNumber(x: Byte)
    ensures ConvertBits.Number(ConvertBits.BitsOf(x, 8)) == x
  {
    ConvertBits.NumberOfBits(x, 8);
    KeepIsByte(x);
  }

  lemma {:induction false} BitsConcat(s: seq<Byte>, t: seq<Byte>)
    ensures BitsIn(s + t) == BitsIn(s) + BitsIn(t)
  {
    if t == [] {
      assert s + t == s;
    } else {
      var t', x := t[..|t| - 1], t[|t| - 1];
      BitsConcat(s, t');
      assert (s + t)[..|s + t| - 1] == s + t';
      Sequences.Associates(BitsIn(s), BitsIn(t'), ConvertBits.BitsOf(x, 8));
    }
  }

  lemma MiddleBits(bs: seq<bool>, i: nat, b: nat, n: nat)
    requires i + b + n == |bs|
    ensures Keep(Shr(ConvertBits.Number(bs), n), b) == ConvertBits.Number(bs[i..i + b])
  {
    var x, y, z := bs[..i], bs[i..i + b], bs[i + b..];
    Sequences.ThreeParts(bs, i, i + b);
    ConvertBits.NumberConcat(x + y, z);
    ConvertBits.NumberConcat(x, y);
    JoinParts(ConvertBits.Number(x + y), ConvertBits.Number(z), |z|);
    JoinParts(ConvertBits.Number(x), ConvertBits.Number(y), b);
    ConvertBits.NumberFits(y);
  }

  /** Group k is the number that the b bits up to (k + 1) * b spell, the first bit of a byte being its highest. */
  lemma GroupIsBits(s: seq<Byte>, b: nat, k: nat, i: nat)
    requires (k + 1) * b == i + b <= 8 * |s|
    ensures Group(s, b, k) == ConvertBits.Number(BitsIn(s)[i..i + b])
  {
    var n := 8 * |s| - (i + b);
    GroupAt(s, b, k, n);
    BytesAreBits(s);
    MiddleBits(BitsIn(s), i, b, n);
  }

  lemma GroupAt(s: seq<Byte>, b: nat, k: nat, n: nat)
    requires (k + 1) * b + n == 8 * |s|
    ensures Group(s, b, k) == Keep(Shr(BE(s), n), b)
  {}

  // ----- the packed form is canonical -----

  // The indices written one after the other, b bits each.
  function Joined(idx: seq<nat>, b: nat): nat {
    if idx == [] then 0 else Join(Joined(idx[..|idx| - 1], b), idx[|idx| - 1], b)
  }

  function Pack(idx: seq<nat>, b: nat, n: nat): (s: seq<Byte>)
    ensures |s| == n
  {
    ToBE(Joined(idx, b), n)
  }

  lemma {:induction false} JoinedGroups(s: seq<Byte>, b: nat, n: nat)
    requires n * b <= 8 * |s|
    ensures Joined(Groups(s, b, n), b) == Shr(BE(s), 8 * |s| - n * b)
  {
    if n == 0 {
      BEPrefix(s, 0);
    } else {
      assert n * b == (n - 1) * b + b;
      JoinedGroups(s, b, n - 1);
      var g := Groups(s, b, n);
      assert g[..n - 1] == Groups(s, b, n - 1);
      var v := Shr(BE(s), 8 * |s| - n * b);
      ShrShr(BE(s), 8 * |s| - n * b, b);
      JoinOfParts(v, b);
    }
  }

  lemma {:induction false} JoinedPrefix(idx: seq<nat>, b: nat, k: nat, n: nat)
    requires k <= |idx| && n == (|idx| - k) * b
    ensures Shr(Joined(idx, b), n) == Joined(idx[..k], b)
    decreases |idx|
  {
    if k == |idx| {
      assert idx[..k] == idx;
    } else {
      var t := idx[..|idx| - 1];
      OneLess(|idx| - k, b);
      JoinedPrefix(t, b, k, n - b);
      assert t[..k] == idx[..k];
      JoinParts(Joined(t, b), idx[|idx| - 1], b);
      ShrShr(Joined(idx, b), b, n - b);
    }
  }

  lemma OneLess(m: nat, b: nat)
    requires m >= 1
    ensures m * b == (m - 1) * b + b
  {}

  /** Unpacking a packed list of b-bit indices gives the list back. */
  lemma UnpackPack(idx: seq<nat>, b: nat, n: nat, k: nat)
    requires 8 * n == |idx| * b && k < |idx| && Keep(idx[k], b) == idx[k]
    ensures (k + 1) * b <= 8 * n && Group(Pack(idx, b, n), b, k) == idx[k]
  {
    PackedValue(idx, b, n);
    MulMono(k + 1, |idx|, b);
    Remaining(|idx|, k + 1, b, n);
    JoinedPrefix(idx, b, k + 1, 8 * n - (k + 1) * b);
    JoinedLast(idx, b, k);
    JoinParts(Joined(idx[..k], b), idx[k], b);
  }

  lemma Remaining(count: nat, k: nat, b: nat, n: nat)
    requires 8 * n == count * b
    ensures (count - k) * b == 8 * n - k * b
  {}

  lemma JoinedLast(idx: seq<nat>, b: nat, k: nat)
    requires k < |idx|
    ensures Joined(idx[..k + 1], b) == Join(Joined(idx[..k], b), idx[k], b)
  {
    assert idx[..k + 1][..k] == idx[..k];
  }

  lemma PackedValue(idx: seq<nat>, b: nat, n: nat)
    requires 8 * n == |idx| * b
    ensures BE(Pack(idx, b, n)) == Joined(idx, b)
  {
    var v := Joined(idx, b);
    BEOfToBE(v, n);
    JoinedPrefix(idx, b, 0, 8 * n);
    assert idx[..0] == [];
    JoinOfParts(v, 8 * n);
    JoinZero(Keep(v, 8 * n), 8 * n);
    KeepOfKeep(v, 8 * n, 8 * n);
  }

  /** Packing the unpacked groups of a byte string gives the string back, so no two strings unpack alike. */
  lemma PackUnpack(s: seq<Byte>, b: nat, n: nat)
    requires 8 * |s| == n * b
    ensures Pack(Groups(s, b, n), b, |s|) == s
  {
    JoinedGroups(s, b, n);
    ToBEOfBE(s);
  }
}
