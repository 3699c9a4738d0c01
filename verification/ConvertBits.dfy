/** address.cpp: convert_bits regroups a string of from-bit symbols into to-bit symbols.  The specification
    works on the bit string itself; the method keeps only the last from + to - 1 bits in its register. */
module ConvertBits {
  import opened AddressResult
  import opened Bits
  import Sequences

  // The low w bits of v, most significant first.
  function BitsOf(v: nat, w: nat): (bs: seq<bool>)
    ensures |bs| == w
    decreases w, v
  {
    if w == 0 then [] else BitsOf(v / 2, w - 1) + [v % 2 == 1]
  }

  function BitString(vs: seq<nat>, w: nat): seq<bool> {
    if vs == [] then [] else BitsOf(vs[0], w) + BitString(vs[1..], w)
  }

  function Number(bs: seq<bool>): nat {
    if bs == [] then 0 else 2 * Number(bs[..|bs| - 1]) + (if bs[|bs| - 1] then 1 else 0)
  }

  // The complete w-bit groups of a bit string, and what is left over.
  function Groups(bs: seq<bool>, w: nat): seq<nat>
    requires w > 0
  {
    if |bs| < w then [] else [Number(bs[..w])] + Groups(bs[w..], w)
  }

  function Rest(bs: seq<bool>, w: nat): (r: seq<bool>)
    requires w > 0
    ensures |r| < w
  {
    if |bs| < w then bs else Rest(bs[w..], w)
  }

  function ZeroBits(n: nat): (z: seq<bool>)
    ensures |z| == n && forall i :: 0 <= i < n ==> !z[i]
  {
    seq(n, _ => false)
  }

  predicate AllZero(bs: seq<bool>) {
    forall i :: 0 <= i < |bs| ==> !bs[i]
  }

  function PaddedGroup(r: seq<bool>, w: nat): (g: seq<nat>)
    requires |r| < w
    ensures |g| <= 1
  {
    if r == [] then [] else [Number(r + ZeroBits(w - |r|))]
  }

  /** What convert_bits computes: the complete groups, and with padding the last one filled up by zeros;
      without padding fewer than one input symbol may be left over and only zeros. */
  ghost function Regroup(vs: seq<nat>, from: nat, to: nat, pad: bool): Result<seq<nat>>
    requires from > 0 && to > 0
  {
    if !Fit(vs, from) then
      Err(BadCharacter)
    else
      var bs := BitString(vs, from);
      if pad then
        Ok(Groups(bs, to) + PaddedGroup(Rest(bs, to), to))
      else if |Rest(bs, to)| < from && AllZero(Rest(bs, to)) then
        Ok(Groups(bs, to))
      else
        Err(BadLength)
  }

  // ----- bit strings and numbers -----

  lemma {:induction false} NumberConcat(x: seq<bool>, y: seq<bool>)
    ensures Number(x + y) == Join(Number(x), Number(y), |y|)
  {
    if y == [] {
      assert x + y == x;
    } else {
      var z := y[..|y| - 1];
      NumberConcat(x, z);
      assert (x + y)[..|x + y| - 1] == x + z;
      Half(Number(z), if y[|y| - 1] then 1 else 0);
    }
  }

  lemma {:induction false} NumberFits(bs: seq<bool>)
    ensures Shr(Number(bs), |bs|) == 0 && Keep(Number(bs), |bs|) == Number(bs)
  {
    if bs != [] {
      NumberFits(bs[..|bs| - 1]);
      Half(Number(bs[..|bs| - 1]), if bs[|bs| - 1] then 1 else 0);
    }
  }

  lemma {:induction false} NumberOfBits(v: nat, w: nat)
    ensures Number(BitsOf(v, w)) == Keep(v, w)
    decreases w
  {
    if w != 0 {
      NumberOfBits(v / 2, w - 1);
      var bs := BitsOf(v, w);
      assert bs[..w - 1] == BitsOf(v / 2, w - 1);
    }
  }

  lemma {:induction false} BitsOfNumber(bs: seq<bool>)
    ensures BitsOf(Number(bs), |bs|) == bs
  {
    if bs != [] {
      var t := bs[..|bs| - 1];
      BitsOfNumber(t);
      Half(Number(t), if bs[|bs| - 1] then 1 else 0);
      assert bs == t + [bs[|bs| - 1]];
    }
  }

  lemma {:induction false} ZeroNumber(bs: seq<bool>)
    ensures Number(bs) == 0 <==> AllZero(bs)
  {
    if bs != [] {
      var t := bs[..|bs| - 1];
      ZeroNumber(t);
      assert bs == t + [bs[|bs| - 1]];
    }
  }

  // ----- grouping undoes spelling -----

  lemma {:induction false} BitStringAppend(vs: seq<nat>, v: nat, w: nat)
    ensures BitString(vs + [v], w) == BitString(vs, w) + BitsOf(v, w)
  {
    if vs == [] {
      assert [v][1..] == [];
    } else {
      BitStringAppend(vs[1..], v, w);
      assert (vs + [v])[1..] == vs[1..] + [v];
      assert BitString(vs, w) + BitsOf(v, w) == BitsOf(vs[0], w) + (BitString(vs[1..], w) + BitsOf(v, w));
    }
  }

  // A spelled string followed by less than one group is read back group by group.
  lemma {:induction false} GroupsOfSpelled(vs: seq<nat>, r: seq<bool>, w: nat)
    requires |r| < w && Fit(vs, w)
    ensures Groups(BitString(vs, w) + r, w) == vs && Rest(BitString(vs, w) + r, w) == r
  {
    if vs == [] {
      assert BitString(vs, w) + r == r;
    } else {
      GroupsOfSpelled(vs[1..], r, w);
      var a := BitsOf(vs[0], w);
      Sequences.Associates(a, BitString(vs[1..], w), r);
      FirstGroup(a, BitString(vs[1..], w) + r, w);
      NumberOfBits(vs[0], w);
      KeepFitting(vs[0], w);
      assert vs == [vs[0]] + vs[1..];
    }
  }

  lemma FirstGroup(a: seq<bool>, b: seq<bool>, w: nat)
    requires |a| == w > 0
    ensures Groups(a + b, w) == [Number(a)] + Groups(b, w) && Rest(a + b, w) == Rest(b, w)
  {
    assert (a + b)[..w] == a && (a + b)[w..] == b;
  }

  lemma {:induction false} GroupsFit(bs: seq<bool>, w: nat)
    requires w > 0
    ensures Fit(Groups(bs, w), w)
  {
    if |bs| >= w {
      GroupsFit(bs[w..], w);
      NumberFits(bs[..w]);
    }
  }

  lemma {:induction false} SpelledGroups(bs: seq<bool>, w: nat)
    requires w > 0
    ensures BitString(Groups(bs, w), w) + Rest(bs, w) == bs && Fit(Groups(bs, w), w)
  {
    GroupsFit(bs, w);
    if |bs| >= w {
      var a, t := bs[..w], bs[w..];
      var g := Groups(t, w);
      SpelledGroups(t, w);
      Sequences.TakeDrop(bs, w);
      FirstGroup(a, t, w);
      SpelledFirst(a, g, w);
      Sequences.Associates(a, BitString(g, w), Rest(t, w));
    }
  }

  lemma SpelledFirst(a: seq<bool>, g: seq<nat>, w: nat)
    requires |a| == w
    ensures BitString([Number(a)] + g, w) == a + BitString(g, w)
  {
    BitsOfNumber(a);
    assert ([Number(a)] + g)[1..] == g;
  }

  lemma SpelledLast(g: seq<nat>, a: seq<bool>, w: nat)
    requires |a| == w
    ensures BitString(g + [Number(a)], w) == BitString(g, w) + a && Shr(Number(a), w) == 0
  {
    BitStringAppend(g, Number(a), w);
    BitsOfNumber(a);
    NumberFits(a);
  }

  // Padding completes the bit string with fewer zeros than a group has bits.
  lemma SpelledPadded(bs: seq<bool>, w: nat) returns (z: seq<bool>)
    requires w > 0
    ensures |z| < w && AllZero(z)
    ensures BitString(Groups(bs, w) + PaddedGroup(Rest(bs, w), w), w) == bs + z
    ensures Fit(Groups(bs, w) + PaddedGroup(Rest(bs, w), w), w)
  {
    var g, r := Groups(bs, w), Rest(bs, w);
    SpelledGroups(bs, w);
    if r == [] {
      z := [];
      assert g + PaddedGroup(r, w) == g;
      assert bs + z == BitString(g, w);
    } else {
      z := ZeroBits(w - |r|);
      SpelledLast(g, r + z, w);
      Sequences.Associates(BitString(g, w), r, z);
    }
  }

  lemma RegroupFits(vs: seq<nat>, from: nat, to: nat, pad: bool)
    requires from > 0 && to > 0 && Regroup(vs, from, to, pad).Ok?
    ensures Fit(Regroup(vs, from, to, pad).value, to)
  {
    SpelledGroups(BitString(vs, from), to);
    if pad {
      var z := SpelledPadded(BitString(vs, from), to);
    }
  }

  lemma {:induction false} SpelledLength(vs: seq<nat>, w: nat)
    ensures |BitString(vs, w)| == w * |vs|
  {
    if vs == [] {
    } else {
      SpelledLength(vs[1..], w);
      assert w * |vs| == w + w * (|vs| - 1);
    }
  }

  // ----- the two round trips -----

  /** Regrouping bytes (or any symbols) into smaller ones with padding, and back without, is the identity. */
  lemma WidenNarrow(vs: seq<nat>, from: nat, to: nat)
    requires 0 < to <= from && Fit(vs, from)
    ensures Regroup(vs, from, to, true).Ok?
    ensures Regroup(Regroup(vs, from, to, true).value, to, from, false) == Ok(vs)
  {
    var bs := BitString(vs, from);
    var z := SpelledPadded(bs, to);
    GroupsOfSpelled(vs, z, from);
  }

  /** Where regrouping to wider symbols succeeds, regrouping the result back gives the very same symbols:
      a program has one encoding only. */
  lemma NarrowWiden(gs: seq<nat>, from: nat, to: nat)
    requires 0 < from <= to && Regroup(gs, from, to, false).Ok?
    ensures Regroup(Regroup(gs, from, to, false).value, to, from, true) == Ok(gs)
  {
    var bs := BitString(gs, from);
    var vs, r := Groups(bs, to), Rest(bs, to);
    SpelledGroups(bs, to);
    var ws := BitString(vs, to);
    var z := SpelledPadded(ws, from);
    var back := Groups(ws, from) + PaddedGroup(Rest(ws, from), from);
    SpelledLength(back, from);
    SpelledLength(gs, from);
    SameCount(from, |back|, |gs|, |z|, |r|);
    assert z == r;
    GroupsOfSpelled(gs, [], from);
    GroupsOfSpelled(back, [], from);
    assert bs + [] == bs && ws + z == bs;
  }

  lemma More(w: nat, a: nat, b: nat)
    requires a > b
    ensures w * a >= w * b + w
  {
    assert w * a == w * b + w * (a - b);
    assert w * (a - b) == w + w * (a - b - 1);
  }

  lemma SameCount(w: nat, a: nat, b: nat, p: nat, r: nat)
    requires p < w && r < w && w * a - p == w * b - r
    ensures p == r
  {
    if a > b {
      More(w, a, b);
    } else if a < b {
      More(w, b, a);
    }
  }

  /** No two symbol strings regroup to the same program. */
  lemma RegroupInjective(x: seq<nat>, y: seq<nat>, from: nat, to: nat)
    requires 0 < from <= to && Regroup(x, from, to, false).Ok?
    requires Regroup(y, from, to, false) == Regroup(x, from, to, false)
    ensures x == y
  {
    NarrowWiden(x, from, to);
    NarrowWiden(y, from, to);
  }

  // ----- the method -----

  // The register holds the end of the bit string read so far; the groups before it are written.
  ghost predicate Holds(all: seq<bool>, out: seq<nat>, acc: nat, bits: nat, from: nat, to: nat) {
    && from + to >= 1
    && Fit(out, to)
    && acc == Keep(Number(all), from + to - 1)
    && bits <= from + to - 1
    && |all| >= bits
    && all[..|all| - bits] == BitString(out, to)
  }

  // One symbol more in the register.
  lemma Feed(all: seq<bool>, acc: nat, v: nat, from: nat, to: nat)
    requires from > 0 && to > 0 && Shr(v, from) == 0 && acc == Keep(Number(all), from + to - 1)
    ensures Keep(Join(acc, v, from), from + to - 1) == Keep(Number(all + BitsOf(v, from)), from + to - 1)
  {
    NumberConcat(all, BitsOf(v, from));
    NumberOfBits(v, from);
    KeepFitting(v, from);
    KeepJoin(acc, v, from, to - 1);
    KeepJoin(Number(all), v, from, to - 1);
    KeepOfKeep(Number(all), from + to - 1, to - 1);
  }

  // The bits of all from position |all| - bits - to, read out of the register.
  lemma Extract(all: seq<bool>, acc: nat, bits: nat, w: nat, to: nat)
    requires acc == Keep(Number(all), w) && bits + to <= w && bits + to <= |all|
    ensures Keep(Shr(acc, bits), to) == Number(all[|all| - bits - to..|all| - bits])
  {
    var n := |all|;
    var a, g, r := all[..n - bits - to], all[n - bits - to..n - bits], all[n - bits..];
    assert all == (a + g) + r;
    NumberConcat(a + g, r);
    NumberConcat(a, g);
    assert Shr(Number(all), bits) == Number(a + g) by {
      JoinParts(Number(a + g), Number(r), bits);
    }
    assert Keep(Number(a + g), to) == Number(g) by {
      JoinParts(Number(a), Number(g), to);
      NumberFits(g);
    }
    ReadMiddle(Number(all), bits, to, w);
  }

  lemma ReadMiddle(x: nat, bits: nat, to: nat, w: nat)
    requires bits + to <= w
    ensures Keep(Shr(Keep(x, w), bits), to) == Keep(Shr(x, bits), to)
  {
    assert bits + (w - bits) == w;
    ShrOfKeep(x, bits, w - bits);
    KeepOfKeep(Shr(x, bits), w - bits, to);
  }

  lemma Written(all: seq<bool>, out: seq<nat>, bits: nat, to: nat)
    requires bits + to <= |all| && all[..|all| - bits - to] == BitString(out, to)
    ensures var g := Number(all[|all| - bits - to..|all| - bits]);
            all[..|all| - bits] == BitString(out + [g], to) && Shr(g, to) == 0
  {
    var n := |all|;
    var bs := all[n - bits - to..n - bits];
    SpelledLast(out, bs, to);
    assert all[..n - bits] == all[..n - bits - to] + bs;
  }

  /** The inner loop: write complete groups. */
  method Drain(ghost all: seq<bool>, start: seq<nat>, acc: nat, held: nat, from: nat, to: nat)
    returns (out: seq<nat>, bits: nat)
    requires from > 0 && to > 0 && Holds(all, start, acc, held, from, to)
    ensures Holds(all, out, acc, bits, from, to) && bits < to
  {
    out, bits := start, held;
    while bits >= to
      invariant Holds(all, out, acc, bits, from, to)
    {
      bits := bits - to;
      Extract(all, acc, bits, from + to - 1, to);
      Written(all, out, bits, to);
      AndMask(Shr(acc, bits), to);
      out := out + [And(Shr(acc, bits), Mask(to))];
    }
  }

  // What the two last tests of the source look at: the leftover bits moved up to a full group.
  lemma Leftover(all: seq<bool>, acc: nat, bits: nat, w: nat, to: nat)
    requires acc == Keep(Number(all), w) && bits < to && bits <= w && bits <= |all|
    ensures var r := all[|all| - bits..];
            Keep(Join(acc, 0, to - bits), to) == Number(r + ZeroBits(to - bits))
  {
    var n := |all|;
    var a, r := all[..n - bits], all[n - bits..];
    assert all == a + r;
    NumberConcat(a, r);
    JoinParts(Number(a), Number(r), bits);
    NumberFits(r);
    KeepOfKeep(Number(all), w, bits);
    KeepJoin(acc, 0, to - bits, bits);
    NumberConcat(r, ZeroBits(to - bits));
    ZeroNumber(ZeroBits(to - bits));
  }

  lemma ZeroAppended(r: seq<bool>, n: nat)
    ensures Number(r + ZeroBits(n)) == 0 <==> AllZero(r)
  {
    ZeroNumber(r + ZeroBits(n));
    var s := r + ZeroBits(n);
    assert forall i :: 0 <= i < |r| ==> s[i] == r[i];
  }

  // The register after reading one more symbol.
  lemma FeedHolds(vs: seq<nat>, i: nat, out: seq<nat>, acc: nat, bits: nat, next: nat, from: nat, to: nat)
    requires from > 0 && to > 0 && i < |vs| && Shr(vs[i], from) == 0 && bits < to
    requires Holds(BitString(vs[..i], from), out, acc, bits, from, to)
    requires next == Keep(Join(acc, vs[i], from), from + to - 1)
    ensures Holds(BitString(vs[..i + 1], from), out, next, bits + from, from, to)
  {
    var all := BitString(vs[..i], from);
    BitStringAppend(vs[..i], vs[i], from);
    assert vs[..i + 1] == vs[..i] + [vs[i]];
    Feed(all, acc, vs[i], from, to);
    var more := all + BitsOf(vs[i], from);
    assert more[..|more| - (bits + from)] == all[..|all| - bits];
  }

  /** Shifting left and or-ing in a symbol that fits appends its bits. */
  lemma ShiftOr(acc: nat, v: nat, n: nat)
    requires Shr(v, n) == 0
    ensures Or(Join(acc, 0, n), v) == Join(acc, v, n)
  {
    AndJoinZero(acc, v, n);
    JoinAdds(acc, v, n);
  }

  lemma {:induction false} JoinAdds(acc: nat, v: nat, n: nat)
    requires Shr(v, n) == 0
    ensures Join(acc, 0, n) + v == Join(acc, v, n)
    decreases n
  {
    if n != 0 {
      JoinAdds(acc, v / 2, n - 1);
    }
  }

  // What is written and what the register still holds, once everything is read.
  lemma HeldRest(all: seq<bool>, out: seq<nat>, acc: nat, bits: nat, from: nat, to: nat)
    requires from > 0 && to > 0 && bits < to && Holds(all, out, acc, bits, from, to)
    ensures Groups(all, to) == out && Rest(all, to) == all[|all| - bits..]
  {
    var r := all[|all| - bits..];
    assert all == BitString(out, to) + r;
    GroupsOfSpelled(out, r, to);
  }

  // The source's final tests decide what the specification asks.
  lemma Finished(vs: seq<nat>, out: seq<nat>, acc: nat, bits: nat, last: nat, from: nat, to: nat)
    requires from > 0 && to > 0 && bits < to && Holds(BitString(vs, from), out, acc, bits, from, to)
    requires Fit(vs, from) && last == Keep(Join(acc, 0, to - bits), to)
    ensures Regroup(vs, from, to, true) == Ok(if bits != 0 then out + [last] else out)
    ensures Regroup(vs, from, to, false) == if bits >= from || last != 0 then Err(BadLength) else Ok(out)
  {
    var all := BitString(vs, from);
    HeldRest(all, out, acc, bits, from, to);
    Leftover(all, acc, bits, from + to - 1, to);
    ZeroAppended(Rest(all, to), to - bits);
    assert out + [] == out;
  }

  method ConvertBits(vs: seq<nat>, from: nat, to: nat, pad: bool) returns (result: Result<seq<nat>>)
    requires 1 <= from && 1 <= to
    ensures result == Regroup(vs, from, to, pad)
  {
    var acc: nat, bits: nat, out: seq<nat> := 0, 0, [];
    KeepZero(from + to - 1);
    for i := 0 to |vs|
      invariant Fit(vs[..i], from) && bits < to
      invariant Holds(BitString(vs[..i], from), out, acc, bits, from, to)
    {
      if Shr(vs[i], from) != 0 {
        return Err(BadCharacter);
      }
      acc := FeedSymbol(vs, i, out, acc, bits, from, to);
      out, bits := Drain(BitString(vs[..i + 1], from), out, acc, bits + from, from, to);
    }
    assert vs[..|vs|] == vs;
    AndMask(Join(acc, 0, to - bits), to);
    var last := And(Join(acc, 0, to - bits), Mask(to));
    Finished(vs, out, acc, bits, last, from, to);
    if pad {
      if bits != 0 {
        out := out + [last];
      }
    } else if bits >= from || last != 0 {
      return Err(BadLength);
    }
    return Ok(out);
  }

  /** acc = ((acc << from) | v) & maxa */
  method FeedSymbol(vs: seq<nat>, i: nat, ghost out: seq<nat>, acc: nat, ghost bits: nat, from: nat, to: nat)
    returns (next: nat)
    requires from > 0 && to > 0 && i < |vs| && Shr(vs[i], from) == 0 && bits < to
    requires Holds(BitString(vs[..i], from), out, acc, bits, from, to)
    ensures Holds(BitString(vs[..i + 1], from), out, next, bits + from, from, to)
  {
    ShiftOr(acc, vs[i], from);
    AndMask(Join(acc, vs[i], from), from + to - 1);
    next := And(Or(Join(acc, 0, from), vs[i]), Mask(from + to - 1));
    FeedHolds(vs, i, out, acc, bits, next, from, to);
  }
}
