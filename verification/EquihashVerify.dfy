/** equihash.hpp: the in-place Wagner verifier.  A row is a 2054-byte buffer holding the untrimmed hash
    bytes of a block followed by its index bytes; every round halves the number of rows. */
module EquihashVerify {
  import opened Bits
  import opened BitGroups
  import opened Equihash
  import opened EquihashTheorem

  const ROW_BYTES := 2054
  const SOLUTION_WIDTH := 1344
  const COLLISION_BYTES := 3

  class StepRow {
    const hash: array<Byte>

    constructor ()
      ensures fresh(hash) && hash.Length == ROW_BYTES
      ensures forall i :: 0 <= i < ROW_BYTES ==> hash[i] == 0
    {
      hash := new Byte[ROW_BYTES](_ => 0);
    }

    method Init(hashIn: seq<Byte>, hLen: nat, cBitLen: nat, index: nat, ghost count: nat)
      requires 8 <= cBitLen <= 25 && 8 * |hashIn| == count * cBitLen
      requires hLen == count * CeilBytes(cBitLen) && hLen + 4 <= hash.Length
      modifies hash
      ensures hash[..hLen + 4] == Expanded(hashIn, cBitLen, CeilBytes(cBitLen), count) + ToBE(index, 4)
    {
      GroupCount(8 * |hashIn|, cBitLen, count, 0);
      HashBytes(|hashIn|, cBitLen, count);
      ExpandArray(hashIn, hash, hLen, cBitLen, 0);
      ghost var done := hash[..hLen];
      CopyIn(hash, hLen, ToBE(index, 4));
      assert hash[..hLen + 4] == done + ToBE(index, 4);
    }

    /** this := a combined with b: exclusive or of the hash bytes, the first `trim` dropped, then the two
        index lists, the smaller first. */
    method InitCollide(a: StepRow, b: StepRow, len: nat, lenIndices: nat, trim: nat)
      requires a.hash != hash && b.hash != hash
      requires trim <= len && len + lenIndices <= a.hash.Length && len + lenIndices <= b.hash.Length
      requires len - trim + 2 * lenIndices <= hash.Length
      modifies hash
      ensures forall i :: 0 <= i < len - trim ==> hash[i] == XorByte(a.hash[i + trim], b.hash[i + trim])
      ensures hash[..][len - trim..len - trim + 2 * lenIndices]
              == LowFirst(a.hash[..][len..len + lenIndices], b.hash[..][len..len + lenIndices])
    {
      for i := trim to len
        invariant forall x :: 0 <= x < i - trim ==> hash[x] == XorByte(a.hash[x + trim], b.hash[x + trim])
      {
        hash[i - trim] := XorByte(a.hash[i], b.hash[i]);
      }
      var s, t := a.hash[len..len + lenIndices], b.hash[len..len + lenIndices];
      var at := len - trim;
      if LexLess(s, t) {
        CopyIn(hash, at, s + t);
      } else {
        CopyIn(hash, at, t + s);
      }
    }

    method IsZero(len: nat) returns (zero: bool)
      requires len <= hash.Length
      ensures zero <==> hash[..len] == ZeroBytes(len)
    {
      for i := 0 to len
        invariant hash[..i] == ZeroBytes(i)
      {
        if hash[i] != 0 {
          assert hash[..len][i] != ZeroBytes(len)[i];
          return false;
        }
      }
      return true;
    }
  }

  lemma HashBytes(n: nat, b: nat, count: nat)
    requires b >= 1 && 8 * n == count * b
    ensures 8 * CeilBytes(b) * n / b == count * CeilBytes(b)
  {
    assert 8 * CeilBytes(b) * n == count * CeilBytes(b) * b;
    GroupCount(8 * CeilBytes(b) * n, b, count * CeilBytes(b), 0);
  }

  // std::copy into a buffer
  method CopyIn(out: array<Byte>, at: nat, s: seq<Byte>)
    requires at + |s| <= out.Length
    modifies out
    ensures out[..] == old(out[..at]) + s + old(out[at + |s|..])
  {
    for i := 0 to |s|
      invariant out[..at] == old(out[..at]) && out[at + i..] == old(out[at + i..])
      invariant out[at..at + i] == s[..i]
    {
      out[at + i] := s[i];
    }
    assert out[..] == out[..at] + out[at..at + |s|] + out[at + |s|..];
  }

  ghost predicate NoSharedWord(s: seq<Byte>, t: seq<Byte>) {
    forall x, y :: 0 <= x && 0 <= y && 4 * x + 4 <= |s| && 4 * y + 4 <= |t| ==> Word(s, x) != Word(t, y)
  }

  lemma SubSlice<T>(s: seq<T>, a: nat, n: nat, i: nat, m: nat)
    requires a + n <= |s| && i + m <= n
    ensures s[a..a + n][i..i + m] == s[a + i..a + i + m]
  {
    var t, u := s[a..a + n][i..i + m], s[a + i..a + i + m];
    forall j | 0 <= j < m
      ensures t[j] == u[j]
    {
      assert t[j] == s[a..a + n][i + j] == s[a + (i + j)];
    }
  }

  lemma WordAt(row: seq<Byte>, len: nat, size: nat, i: nat)
    requires len + size <= |row| && i + 4 <= size && i % 4 == 0
    ensures row[len + i..len + i + 4] == Word(row[len..len + size], i / 4)
  {
    var x := i / 4;
    assert i == 4 * x;
    SubSlice(row, len, size, i, 4);
  }

  /** The inner loop of DistinctIndices: compare one index with all of the other row's. */
  method IsElsewhere(word: seq<Byte>, b: StepRow, len: nat, lenIndices: nat) returns (found: bool)
    requires lenIndices % 4 == 0 && |word| == 4 && len + lenIndices <= b.hash.Length
    ensures var t := b.hash[..][len..len + lenIndices];
            found <==> exists y :: 0 <= y && 4 * y + 4 <= |t| && word == Word(t, y)
  {
    ghost var t := b.hash[..][len..len + lenIndices];
    var j := 0;
    while j < lenIndices
      invariant j % 4 == 0 && j <= lenIndices
      invariant forall y :: 0 <= y < j / 4 ==> word != Word(t, y)
    {
      WordAt(b.hash[..], len, lenIndices, j);
      assert b.hash[len + j..len + j + 4] == b.hash[..][len + j..len + j + 4];
      if word == b.hash[len + j..len + j + 4] {
        return true;
      }
      j := j + 4;
    }
    return false;
  }

  method DistinctIndices(a: StepRow, b: StepRow, len: nat, lenIndices: nat) returns (distinct: bool)
    requires lenIndices % 4 == 0
    requires len + lenIndices <= a.hash.Length && len + lenIndices <= b.hash.Length
    ensures distinct <==> NoSharedWord(a.hash[..][len..len + lenIndices], b.hash[..][len..len + lenIndices])
  {
    ghost var s, t := a.hash[..][len..len + lenIndices], b.hash[..][len..len + lenIndices];
    var i := 0;
    while i < lenIndices
      invariant i % 4 == 0 && i <= lenIndices
      invariant forall x, y :: 0 <= x < i / 4 && 0 <= y && 4 * y + 4 <= |t| ==> Word(s, x) != Word(t, y)
    {
      WordAt(a.hash[..], len, lenIndices, i);
      assert a.hash[len + i..len + i + 4] == a.hash[..][len + i..len + i + 4];
      var found := IsElsewhere(a.hash[len + i..len + i + 4], b, len, lenIndices);
      if found {
        return false;
      }
      i := i + 4;
    }
    return true;
  }

  // ----- rows and blocks -----

  // The row holds block b after r rounds.
  ghost predicate Holds(row: seq<Byte>, b: Block, r: nat)
    requires r <= ROUNDS
  {
    var n := HASH_LENGTH - 3 * r + 4 * |b.idx|;
    |row| == ROW_BYTES && n <= ROW_BYTES && row[..n] == BlockHash(b, r) + Encode(b.idx)
  }

  lemma HeldParts(row: seq<Byte>, b: Block, r: nat)
    requires r <= ROUNDS && Holds(row, b, r)
    ensures row[..HASH_LENGTH - 3 * r] == BlockHash(b, r)
    ensures row[HASH_LENGTH - 3 * r..HASH_LENGTH - 3 * r + 4 * |b.idx|] == Encode(b.idx)
  {
    var h := HASH_LENGTH - 3 * r;
    var n := h + 4 * |b.idx|;
    assert row[..n][..h] == row[..h] && row[..n][h..] == row[h..n];
  }

  lemma HeldPrefix(row: seq<Byte>, b: Block, r: nat)
    requires r < ROUNDS && Holds(row, b, r)
    ensures row[..COLLISION_BYTES] == BlockHash(b, r)[..COLLISION_BYTES]
  {
    HeldParts(row, b, r);
    assert row[..HASH_LENGTH - 3 * r][..COLLISION_BYTES] == row[..COLLISION_BYTES];
  }

  lemma SharedWords(s: seq<nat>, t: seq<nat>)
    requires Words(s) && Words(t)
    ensures NoSharedWord(Encode(s), Encode(t)) <==> NoneShared(s, t)
  {
    forall x, y | 0 <= x < |s| && 0 <= y < |t|
      ensures Word(Encode(s), x) == Word(Encode(t), y) <==> s[x] == t[y]
    {
      EncodeAt(s, x);
      EncodeAt(t, y);
      WordInjective(s[x], t[y]);
    }
  }

  ghost predicate Tested(xs: seq<Byte>, ys: seq<Byte>, h: nat, n: nat)
    requires 3 <= h && h + n <= |xs| == |ys|
  {
    && xs[..COLLISION_BYTES] == ys[..COLLISION_BYTES] && !LexLess(ys[h..h + n], xs[h..h + n])
    && NoSharedWord(xs[h..h + n], ys[h..h + n])
  }

  method TestRows(x: StepRow, y: StepRow, hashLen: nat, lenIndices: nat) returns (ok: bool)
    requires lenIndices % 4 == 0 && 3 <= hashLen && hashLen + lenIndices <= x.hash.Length == y.hash.Length
    ensures ok <==> Tested(x.hash[..], y.hash[..], hashLen, lenIndices)
  {
    var xs, ys := x.hash[..], y.hash[..];
    if xs[..COLLISION_BYTES] != ys[..COLLISION_BYTES] {
      return false;
    }
    if LexLess(ys[hashLen..hashLen + lenIndices], xs[hashLen..hashLen + lenIndices]) {
      return false;
    }
    ok := DistinctIndices(x, y, hashLen, lenIndices);
  }

  // The tests on the bytes of two rows are the tests on their blocks.
  lemma PairTests(xs: seq<Byte>, ys: seq<Byte>, a: Block, b: Block, r: nat)
    requires r < ROUNDS && |a.idx| == |b.idx| && Words(a.idx) && Words(b.idx) && Holds(xs, a, r) && Holds(ys, b, r)
    ensures PairOk(a, b, r) <==> Tested(xs, ys, HASH_LENGTH - 3 * r, 4 * |a.idx|)
  {
    HeldParts(xs, a, r);
    HeldParts(ys, b, r);
    HeldPrefix(xs, a, r);
    HeldPrefix(ys, b, r);
    SharedWords(a.idx, b.idx);
  }

  /** The three tests of a round on one pair of rows. */
  method CheckPair(x: StepRow, y: StepRow, hashLen: nat, lenIndices: nat, ghost a: Block, ghost b: Block, ghost r: nat)
    returns (ok: bool)
    requires r < ROUNDS && hashLen == HASH_LENGTH - 3 * r && |a.idx| == |b.idx| && lenIndices == 4 * |a.idx|
    requires Holds(x.hash[..], a, r) && Holds(y.hash[..], b, r) && Words(a.idx) && Words(b.idx)
    ensures ok <==> PairOk(a, b, r)
  {
    ok := TestRows(x, y, hashLen, lenIndices);
    PairTests(x.hash[..], y.hash[..], a, b, r);
  }

  lemma {:induction false} LexTotal(s: seq<Byte>, t: seq<Byte>)
    requires |s| == |t|
    ensures LexLess(s, t) || LexLess(t, s) || s == t
  {
    if s != [] {
      LexTotal(s[1..], t[1..]);
      assert s == [s[0]] + s[1..] && t == [t[0]] + t[1..];
    }
  }

  function LowFirst(s: seq<Byte>, t: seq<Byte>): seq<Byte>
    requires |s| == |t|
  {
    if LexLess(s, t) then s + t else t + s
  }

  // Once the order test has passed, the smaller first means left before right.
  lemma LeftFirst(s: seq<Byte>, t: seq<Byte>)
    requires |s| == |t| && !LexLess(t, s)
    ensures LowFirst(s, t) == s + t
  {
    LexTotal(s, t);
  }

  lemma LeftFirstHeld(xs: seq<Byte>, ys: seq<Byte>, a: Block, b: Block, r: nat)
    requires r < ROUNDS && |a.idx| == |b.idx| && Holds(xs, a, r) && Holds(ys, b, r) && PairOk(a, b, r)
    ensures var h, n := HASH_LENGTH - 3 * r, 4 * |a.idx|;
            LowFirst(xs[h..h + n], ys[h..h + n]) == Encode(a.idx) + Encode(b.idx)
  {
    HeldParts(xs, a, r);
    HeldParts(ys, b, r);
    LeftFirst(Encode(a.idx), Encode(b.idx));
  }

  // What InitCollide leaves in a row.
  ghost predicate Merged(row: seq<Byte>, xs: seq<Byte>, ys: seq<Byte>, h: nat, n: nat) {
    && 3 <= h && h + n <= |xs| == |ys| == |row| == ROW_BYTES && h - 3 + 2 * n <= ROW_BYTES
    && (forall i :: 0 <= i < h - 3 ==> row[i] == XorByte(xs[i + 3], ys[i + 3]))
    && row[h - 3..h - 3 + 2 * n] == LowFirst(xs[h..h + n], ys[h..h + n])
  }

  method MergeRows(x: StepRow, y: StepRow, hashLen: nat, lenIndices: nat) returns (row: StepRow)
    requires 3 <= hashLen && hashLen + lenIndices <= x.hash.Length == y.hash.Length == ROW_BYTES
    requires hashLen - COLLISION_BYTES + 2 * lenIndices <= ROW_BYTES
    ensures fresh(row) && fresh(row.hash) && Merged(row.hash[..], x.hash[..], y.hash[..], hashLen, lenIndices)
  {
    row := new StepRow();
    ghost var xs, ys := x.hash[..], y.hash[..];
    row.InitCollide(x, y, hashLen, lenIndices, COLLISION_BYTES);
    assert x.hash[..] == xs && y.hash[..] == ys;
  }

  ghost predicate HashPart(row: seq<Byte>, m: Block, r: nat)
    requires r <= ROUNDS
  {
    |row| == ROW_BYTES && row[..HASH_LENGTH - 3 * r] == BlockHash(m, r)
  }

  ghost predicate IndexPart(row: seq<Byte>, m: Block, r: nat)
    requires r <= ROUNDS
  {
    var h, n := HASH_LENGTH - 3 * r, 4 * |m.idx|;
    h + n <= ROW_BYTES == |row| && row[h..h + n] == Encode(m.idx)
  }

  lemma MergedHash(xs: seq<Byte>, ys: seq<Byte>, row: seq<Byte>, a: Block, b: Block, r: nat)
    requires r < ROUNDS && |a.idx| == |b.idx| && Holds(xs, a, r) && Holds(ys, b, r)
    requires Merged(row, xs, ys, HASH_LENGTH - 3 * r, 4 * |a.idx|)
    ensures HashPart(row, Block(a.leaves + b.leaves, a.idx + b.idx), r + 1)
  {
    var h, len := HASH_LENGTH - 3 * r, HASH_LENGTH - 3 * (r + 1);
    HeldParts(xs, a, r);
    HeldParts(ys, b, r);
    forall k | 0 <= k < len
      ensures row[k] == BlockHash(Block(a.leaves + b.leaves, a.idx + b.idx), r + 1)[k]
    {
      assert xs[..h][k + 3] == BlockHash(a, r)[k + 3] && ys[..h][k + 3] == BlockHash(b, r)[k + 3];
      XorAllSplit(a.leaves, b.leaves, 3 * (r + 1) + k);
    }
  }

  lemma MergedIndices(xs: seq<Byte>, ys: seq<Byte>, row: seq<Byte>, a: Block, b: Block, r: nat)
    requires r < ROUNDS && |a.idx| == |b.idx| && Holds(xs, a, r) && Holds(ys, b, r)
    requires PairOk(a, b, r) && Merged(row, xs, ys, HASH_LENGTH - 3 * r, 4 * |a.idx|)
    ensures IndexPart(row, Block(a.leaves + b.leaves, a.idx + b.idx), r + 1)
  {
    LeftFirstHeld(xs, ys, a, b, r);
    EncodeConcat(a.idx, b.idx);
    IndexBytes(row, a.idx + b.idx, Encode(a.idx) + Encode(b.idx), r + 1);
  }

  lemma IndexBytes(row: seq<Byte>, idx: seq<nat>, bytes: seq<Byte>, r: nat)
    requires r <= ROUNDS && |row| == ROW_BYTES && bytes == Encode(idx) && HASH_LENGTH - 3 * r + |bytes| <= ROW_BYTES
    requires row[HASH_LENGTH - 3 * r..HASH_LENGTH - 3 * r + |bytes|] == bytes
    ensures forall leaves :: IndexPart(row, Block(leaves, idx), r)
  {}

  lemma HoldsParts(row: seq<Byte>, m: Block, r: nat)
    requires r <= ROUNDS && HashPart(row, m, r) && IndexPart(row, m, r)
    ensures Holds(row, m, r)
  {
    var h, n := HASH_LENGTH - 3 * r, HASH_LENGTH - 3 * r + 4 * |m.idx|;
    assert row[..n] == row[..h] + row[h..n];
  }

  // A row with the merged bytes of two rows holds the merged block.
  lemma MergedRow(xs: seq<Byte>, ys: seq<Byte>, row: seq<Byte>, a: Block, b: Block, r: nat)
    requires r < ROUNDS && |a.idx| == |b.idx| && Holds(xs, a, r) && Holds(ys, b, r)
    requires PairOk(a, b, r) && Merged(row, xs, ys, HASH_LENGTH - 3 * r, 4 * |a.idx|)
    ensures Holds(row, Block(a.leaves + b.leaves, a.idx + b.idx), r + 1)
  {
    MergedHash(xs, ys, row, a, b, r);
    MergedIndices(xs, ys, row, a, b, r);
    HoldsParts(row, Block(a.leaves + b.leaves, a.idx + b.idx), r + 1);
  }

  /** The row of a merged pair: the order test has passed, so InitCollide keeps left before right. */
  method CollidePair(x: StepRow, y: StepRow, hashLen: nat, lenIndices: nat, ghost a: Block, ghost b: Block,
                     ghost r: nat)
    returns (row: StepRow)
    requires r < ROUNDS && hashLen == HASH_LENGTH - 3 * r && |a.idx| == |b.idx| && lenIndices == 4 * |a.idx|
    requires hashLen - COLLISION_BYTES + 2 * lenIndices <= ROW_BYTES
    requires Holds(x.hash[..], a, r) && Holds(y.hash[..], b, r) && PairOk(a, b, r)
    ensures fresh(row) && fresh(row.hash)
    ensures Holds(row.hash[..], Block(a.leaves + b.leaves, a.idx + b.idx), r + 1)
  {
    ghost var xs, ys := x.hash[..], y.hash[..];
    row := MergeRows(x, y, hashLen, lenIndices);
    assert x.hash[..] == xs && y.hash[..] == ys;
    MergedRow(xs, ys, row.hash[..], a, b, r);
  }

  // ----- the verifier -----

  ghost predicate RowHolds(x: StepRow, ls: seq<Leaf>, idx: seq<nat>, r: nat, w: nat)
    requires |ls| == |idx| && r <= ROUNDS
    reads x.hash
  {
    IsBlock(r, w, |ls|) && Holds(x.hash[..], BlockOf(ls, idx, r, w), r)
  }

  // Row w of X holds block w of size 2^r, and there is a row for every block.
  ghost predicate RowsHold(X: seq<StepRow>, ls: seq<Leaf>, idx: seq<nat>, r: nat)
    requires |ls| == |idx| && r <= ROUNDS
    reads set x: StepRow | x in X :: x.hash
  {
    && Shl(|X|, r) == |ls|
    && forall w :: 0 <= w < |X| ==> RowHolds(X[w], ls, idx, r, w)
  }

  ghost predicate Passes(ls: seq<Leaf>, idx: seq<nat>, r: nat, w: nat)
    requires |ls| == |idx| && r < ROUNDS
  {
    IsBlock(r + 1, w, |ls|) && HalvesOk(ls, idx, r, w)
  }

  lemma BlockExists(r: nat, w: nat, count: nat, n: nat)
    requires Shl(count, r) == n
    ensures IsBlock(r, w, n) <==> w < count
  {
    if w + 1 < count {
      ShlMono(w + 1, count, r);
    } else if count < w + 1 {
      ShlMono(count, w + 1, r);
    }
  }

  lemma WordsOf(ls: seq<Leaf>, idx: seq<nat>, r: nat, w: nat)
    requires |ls| == |idx| && IsBlock(r, w, |ls|) && Words(idx)
    ensures Words(BlockOf(ls, idx, r, w).idx)
  {
    ShlMono(w, w + 1, r);
    var s := BlockOf(ls, idx, r, w).idx;
    forall i | 0 <= i < |s|
      ensures Keep(s[i], 32) == s[i]
    {
      assert s[i] == idx[Shl(w, r) + i];
    }
  }

  /** One turn of the round's loop: the rows of the two halves of block w become the row of block w. */
  method RoundStep(x: StepRow, y: StepRow, hashLen: nat, lenIndices: nat,
                   ghost ls: seq<Leaf>, ghost idx: seq<nat>, ghost r: nat, ghost w: nat)
    returns (pass: bool, row: StepRow?)
    requires |ls| == |idx| && r < ROUNDS && Words(idx) && IsBlock(r + 1, w, |ls|)
    requires RowHolds(x, ls, idx, r, 2 * w) && RowHolds(y, ls, idx, r, 2 * w + 1)
    requires hashLen == HASH_LENGTH - 3 * r && lenIndices == 4 * Shl(1, r)
    requires hashLen - COLLISION_BYTES + 2 * lenIndices <= ROW_BYTES
    ensures pass <==> HalvesOk(ls, idx, r, w)
    ensures pass <==> row != null
    ensures pass ==> fresh(row) && fresh(row.hash) && RowHolds(row, ls, idx, r + 1, w)
  {
    ghost var lo, mid, hi := Parts(ls, idx, r, w);
    SameLength(r, 2 * w, lo, mid, hi);
    ghost var a, b := BlockOf(ls, idx, r, 2 * w), BlockOf(ls, idx, r, 2 * w + 1);
    WordsOf(ls, idx, r, 2 * w);
    WordsOf(ls, idx, r, 2 * w + 1);
    pass := CheckPair(x, y, hashLen, lenIndices, a, b, r);
    row := null;
    if pass {
      row := CollidePair(x, y, hashLen, lenIndices, a, b, r);
    }
  }

  /** One round: check and merge neighbouring rows. */
  method Round(X: seq<StepRow>, hashLen: nat, lenIndices: nat, ghost ls: seq<Leaf>, ghost idx: seq<nat>, ghost r: nat)
    returns (ok: bool, Xc: seq<StepRow>)
    requires |ls| == |idx| && r < ROUNDS && Words(idx) && |X| % 2 == 0
    requires RowsHold(X, ls, idx, r)
    requires hashLen == HASH_LENGTH - 3 * r && lenIndices == 4 * Shl(1, r)
    requires hashLen - COLLISION_BYTES + 2 * lenIndices <= ROW_BYTES
    ensures ok <==> RoundOk(ls, idx, r)
    ensures ok ==> |Xc| == |X| / 2 && RowsHold(Xc, ls, idx, r + 1)
  {
    Xc := [];
    ghost var half := |X| / 2;
    HalfRows(|X|, r, |ls|);
    var i := 0;
    while i < |X|
      invariant i == 2 * |Xc| && i <= |X| == 2 * half
      invariant RowsHold(X, ls, idx, r)
      invariant forall w :: 0 <= w < |Xc| ==> Passes(ls, idx, r, w)
      invariant forall w :: 0 <= w < |Xc| ==> RowHolds(Xc[w], ls, idx, r + 1, w)
    {
      BlockExists(r + 1, |Xc|, half, |ls|);
      var pass, row := RoundStep(X[i], X[i + 1], hashLen, lenIndices, ls, idx, r, |Xc|);
      if !pass {
        return false, [];
      }
      assert Passes(ls, idx, r, |Xc|);
      Xc := Xc + [row];
      i := i + 2;
    }
    ok := true;
    AllPass(ls, idx, r, half);
  }

  lemma HalfRows(count: nat, r: nat, n: nat)
    requires count % 2 == 0 && Shl(count, r) == n
    ensures 2 * (count / 2) == count && Shl(count / 2, r + 1) == n
  {}

  lemma AllPass(ls: seq<Leaf>, idx: seq<nat>, r: nat, count: nat)
    requires |ls| == |idx| && r < ROUNDS && Shl(count, r + 1) == |ls|
    requires forall w :: 0 <= w < count ==> Passes(ls, idx, r, w)
    ensures RoundOk(ls, idx, r)
  {
    forall w | 0 <= w && IsBlock(r + 1, w, |ls|)
      ensures HalvesOk(ls, idx, r, w)
    {
      BlockExists(r + 1, w, count, |ls|);
      assert Passes(ls, idx, r, w);
    }
  }

  // The halves of a block of 2^(r+1) have 2^r entries.
  lemma {:induction false} SameLength(r: nat, w: nat, lo: nat, mid: nat, hi: nat)
    requires lo == Shl(w, r) && mid == Shl(w + 1, r) && hi == Shl(w + 2, r)
    ensures mid - lo == hi - mid == Shl(1, r)
  {
    ShlStep(w, r);
    ShlStep(w + 1, r);
  }

  lemma {:induction false} ShlStep(w: nat, r: nat)
    ensures Shl(w + 1, r) == Shl(w, r) + Shl(1, r)
    decreases r
  {
    if r != 0 {
      ShlStep(2 * w, r - 1);
      ShlStep(2 * w + 1, r - 1);
      ShlStep(1, r - 1);
    }
  }

  /** The row of the i-th leaf. */
  method LeafRow(blake: seq<Byte> -> seq<Byte>, header: seq<Byte>, indices: seq<nat>, i: nat) returns (row: StepRow)
    requires IsHash50(blake) && i < |indices|
    ensures fresh(row) && fresh(row.hash)
    ensures RowHolds(row, Leaves(blake, header, indices), indices, 0, i)
  {
    var idx := indices[i];
    var tmpHash := blake(header + LE32(idx / 2));
    var offset := idx % 2 * 25;
    row := new StepRow();
    row.Init(tmpHash[offset..offset + 25], HASH_LENGTH, 20, idx, 10);
    HoldsLeaf(row.hash[..], LeafOf(blake, header, idx), idx);
    OneLeafBlock(Leaves(blake, header, indices), indices, i);
  }

  lemma HoldsLeaf(row: seq<Byte>, leaf: Leaf, index: nat)
    requires |row| == ROW_BYTES && row[..HASH_LENGTH + 4] == leaf + ToBE(index, 4)
    ensures Holds(row, Block([leaf], [index]), 0)
  {
    var h := BlockHash(Block([leaf], [index]), 0);
    forall k | 0 <= k < HASH_LENGTH
      ensures h[k] == leaf[k]
    {
      XorAllOne(leaf, k);
    }
    assert h == leaf;
    EncodeOne(index);
  }

  lemma XorAllOne(leaf: Leaf, k: nat)
    requires k < HASH_LENGTH
    ensures XorAll([leaf], k) == leaf[k]
  {
    assert [leaf][..0] == [];
    XorUnit(leaf[k]);
  }

  lemma EncodeOne(index: nat)
    ensures Encode([index]) == ToBE(index, 4)
  {
    assert [index][..0] == [];
  }

  lemma OneLeafBlock(ls: seq<Leaf>, idx: seq<nat>, w: nat)
    requires |ls| == |idx| && w < |ls|
    ensures IsBlock(0, w, |ls|) && BlockOf(ls, idx, 0, w) == Block([ls[w]], [idx[w]])
  {}

  // The rows of the first leaves.
  ghost predicate FirstRows(X: seq<StepRow>, ls: seq<Leaf>, indices: seq<nat>)
    requires |ls| == |indices|
    reads set x: StepRow | x in X :: x.hash
  {
    forall w :: 0 <= w < |X| ==> RowHolds(X[w], ls, indices, 0, w)
  }

  method AddLeaf(X: seq<StepRow>, blake: seq<Byte> -> seq<Byte>, header: seq<Byte>, indices: seq<nat>)
    returns (Y: seq<StepRow>)
    requires IsHash50(blake) && |X| < |indices| && FirstRows(X, Leaves(blake, header, indices), indices)
    ensures |Y| == |X| + 1 && FirstRows(Y, Leaves(blake, header, indices), indices)
  {
    ghost var ls := Leaves(blake, header, indices);
    var row := LeafRow(blake, header, indices, |X|);
    Y := X + [row];
    forall w | 0 <= w < |Y|
      ensures RowHolds(Y[w], ls, indices, 0, w)
    {
      if w < |X| {
        assert Y[w] == X[w] && RowHolds(X[w], ls, indices, 0, w);
      }
    }
  }

  /** The rows of all the leaves. */
  method InitRows(blake: seq<Byte> -> seq<Byte>, header: seq<Byte>, indices: seq<nat>) returns (X: seq<StepRow>)
    requires IsHash50(blake)
    ensures RowsHold(X, Leaves(blake, header, indices), indices, 0)
  {
    X := [];
    for i := 0 to |indices|
      invariant |X| == i && FirstRows(X, Leaves(blake, header, indices), indices)
    {
      X := AddLeaf(X, blake, header, indices);
    }
  }

  /** The rounds, down to a single row. */
  method AllRounds(X0: seq<StepRow>, ghost ls: seq<Leaf>, ghost indices: seq<nat>)
    returns (ok: bool, X: seq<StepRow>, hashLen: nat)
    requires |ls| == |indices| == N_LEAVES && Words(indices) && RowsHold(X0, ls, indices, 0)
    ensures ok <==> Passed(ls, indices)
    ensures ok ==> |X| == 1 && RowsHold(X, ls, indices, ROUNDS) && hashLen == HASH_LENGTH - 3 * ROUNDS
  {
    X := X0;
    hashLen := HASH_LENGTH;
    var lenIndices := 4;
    ghost var r := 0;
    assert Shl(1, 9) == 512;
    while |X| > 1
      invariant r <= ROUNDS && |X| == Shl(1, ROUNDS - r)
      invariant RowsHold(X, ls, indices, r)
      invariant hashLen == HASH_LENGTH - 3 * r && lenIndices == 4 * Shl(1, r)
      invariant forall q :: 0 <= q < r ==> RoundOk(ls, indices, q)
    {
      RoundSizes(r, |X|);
      var pass, Xc := Round(X, hashLen, lenIndices, ls, indices, r);
      if !pass {
        ok := false;
        return;
      }
      X := Xc;
      hashLen := hashLen - COLLISION_BYTES;
      lenIndices := lenIndices * 2;
      r := r + 1;
    }
    NineRounds(r);
    ok := true;
  }

  /** The rounds and the final zero test. */
  method Solve(X: seq<StepRow>, ghost ls: seq<Leaf>, ghost indices: seq<nat>) returns (ok: bool)
    requires |ls| == |indices| == N_LEAVES && Words(indices) && RowsHold(X, ls, indices, 0)
    ensures ok <==> Accepts(ls, indices)
  {
    var pass, last, hashLen := AllRounds(X, ls, indices);
    if !pass {
      return false;
    }
    WholeBlock(ls, indices);
    assert RowHolds(last[0], ls, indices, ROUNDS, 0);
    LastBytes(last[0].hash[..], ls, indices);
    ok := last[0].IsZero(hashLen);
    assert hashLen == 3;
    assert last[0].hash[..3] == last[0].hash[..][..3];
    assert ok <==> last[0].hash[..][..3] == ZeroBytes(3);
  }

  /** Accepts exactly the 1344-byte strings that unpack to an Equihash (200, 9) solution for the header. */
  method Verify200_9(blake: seq<Byte> -> seq<Byte>, header: seq<Byte>, soln: seq<Byte>) returns (ok: bool)
    requires IsHash50(blake)
    ensures ok <==> |soln| == SOLUTION_WIDTH && IsSolution(blake, header, Groups(soln, 21, N_LEAVES))
  {
    if |soln| != SOLUTION_WIDTH {
      return false;
    }
    var indices := GetIndicesFromMinimal(soln, 20, N_LEAVES);
    GroupWords(soln, 21, N_LEAVES);
    RoundsDecide(blake, header, indices);
    var X := InitRows(blake, header, indices);
    ok := Solve(X, Leaves(blake, header, indices), indices);
  }

  lemma RoundSizes(r: nat, n: nat)
    requires r <= ROUNDS && n == Shl(1, ROUNDS - r) && n > 1
    ensures r < ROUNDS && n % 2 == 0 && n / 2 == Shl(1, ROUNDS - (r + 1))
    ensures Shl(1, r + 1) == 2 * Shl(1, r)
    ensures HASH_LENGTH - 3 * r - 3 + 2 * (4 * Shl(1, r)) <= ROW_BYTES
  {
    ShlDouble(ROUNDS - (r + 1));
    ShlDouble(r);
    if r < 8 {
      ShlMono2(r, 8);
    }
    assert Shl(1, 8) == 256;
  }

  lemma {:induction false} ShlDouble(r: nat)
    ensures Shl(1, r + 1) == 2 * Shl(1, r)
  {
    ShlShl(1, r, 1);
  }

  lemma {:induction false} ShlMono2(r: nat, s: nat)
    requires r <= s
    ensures Shl(1, r) <= Shl(1, s)
    decreases s
  {
    if r < s {
      ShlMono2(r, s - 1);
      ShlDouble(s - 1);
    }
  }

  lemma NineRounds(r: nat)
    requires r <= ROUNDS && Shl(1, ROUNDS - r) <= 1
    ensures r == ROUNDS
  {
    if r < ROUNDS {
      ShlMono2(1, ROUNDS - r);
    }
  }

  lemma {:induction false} GroupWords(s: seq<Byte>, b: nat, n: nat)
    requires b <= 32 && n * b <= 8 * |s|
    ensures Words(Groups(s, b, n))
  {
    if n > 0 {
      assert n * b == (n - 1) * b + b;
      GroupWords(s, b, n - 1);
      GroupFitsWord(s, b, n - 1);
    }
  }

  // After nine rounds, the three bytes left decide.
  lemma LastBytes(row: seq<Byte>, ls: seq<Leaf>, idx: seq<nat>)
    requires |ls| == |idx| == N_LEAVES && Holds(row, Block(ls, idx), ROUNDS) && Passed(ls, idx)
    ensures row[..3] == ZeroBytes(3) <==> Accepts(ls, idx)
  {
    var h := BlockHash(Block(ls, idx), ROUNDS);
    HeldParts(row, Block(ls, idx), ROUNDS);
    assert h == row[..3];
    if Accepts(ls, idx) {
      assert h == ZeroBytes(3);
    } else {
      var k :| 3 * ROUNDS <= k < HASH_LENGTH && XorAll(ls, k) != 0;
      assert h[k - 3 * ROUNDS] != 0;
    }
  }

  /** No proof of work has a second encoding: byte strings that unpack to the same indices are equal. */
  lemma SolutionBytesUnique(s: seq<Byte>, t: seq<Byte>)
    requires |s| == |t| == SOLUTION_WIDTH && Groups(s, 21, N_LEAVES) == Groups(t, 21, N_LEAVES)
    ensures s == t
  {
    PackUnpack(s, 21, N_LEAVES);
    PackUnpack(t, 21, N_LEAVES);
  }
}
