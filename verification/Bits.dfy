/** Machine words as naturals: shifts, truncation and the bitwise operators by recursion on the bits,
    and the big-endian value of a byte string.  A 32-bit register that wraps is Keep(x, 32). */
module Bits {
  type Byte = x: int | 0 <= x < 256

  // x >> k
  function Shr(x: nat, k: nat): nat
    decreases x, k
  {
    if k == 0 then x else Shr(x / 2, k - 1)
  }

  // x << k
  function Shl(x: nat, k: nat): nat
    decreases k, x
  {
    if k == 0 then x else Shl(2 * x, k - 1)
  }

  // The low k bits of x, that is x truncated to a k-bit word.
  function Keep(x: nat, k: nat): nat
    decreases x, k
  {
    if k == 0 then 0 else 2 * Keep(x / 2, k - 1) + x % 2
  }

  // x followed by the low n bits of b.
  function Join(x: nat, b: nat, n: nat): nat
    decreases b, n, x
  {
    if n == 0 then x else 2 * Join(x, b / 2, n - 1) + b % 2
  }

  // (1 << k) - 1
  function Mask(k: nat): nat {
    if k == 0 then 0 else 2 * Mask(k - 1) + 1
  }

  function ZeroBytes(n: nat): (z: seq<Byte>)
    ensures |z| == n && forall i :: 0 <= i < n ==> z[i] == 0
  {
    seq<Byte>(n, _ => 0)
  }

  // All of vs are w-bit words.
  ghost predicate Fit(vs: seq<nat>, w: nat) {
    forall i :: 0 <= i < |vs| ==> Shr(vs[i], w) == 0
  }

  function Differ(x: nat, y: nat): (r: nat)
    ensures r <= 1
  {
    if x == y then 0 else 1
  }

  function Xor(a: nat, b: nat): nat
    decreases a + b
  {
    if a == 0 && b == 0 then 0 else 2 * Xor(a / 2, b / 2) + Differ(a % 2, b % 2)
  }

  function And(a: nat, b: nat): nat
    decreases a
  {
    if a == 0 then 0 else 2 * And(a / 2, b / 2) + (if a % 2 == 1 then b % 2 else 0)
  }

  function Or(a: nat, b: nat): int {
    a + b - And(a, b)
  }

  // ----- shifting and truncating -----

  lemma Half(h: nat, l: nat)
    requires l <= 1
    ensures (2 * h + l) % 2 == l && (2 * h + l) / 2 == h
  {}

  lemma {:induction false} ShrShr(x: nat, a: nat, b: nat)
    ensures Shr(Shr(x, a), b) == Shr(x, a + b)
    decreases a
  {
    if a != 0 {
      ShrShr(x / 2, a - 1, b);
    }
  }

  lemma {:induction false} ShlShl(x: nat, a: nat, b: nat)
    ensures Shl(Shl(x, a), b) == Shl(x, a + b)
    decreases a
  {
    if a != 0 {
      ShlShl(2 * x, a - 1, b);
    }
  }

  lemma {:induction false} ShlMono(x: nat, y: nat, k: nat)
    requires x < y
    ensures Shl(x, k) < Shl(y, k)
    decreases k
  {
    if k != 0 {
      ShlMono(2 * x, 2 * y, k - 1);
    }
  }

  lemma {:induction false} ShrOfKeep(x: nat, m: nat, k: nat)
    ensures Shr(Keep(x, m + k), m) == Keep(Shr(x, m), k)
    decreases m
  {
    if m != 0 {
      ShrOfKeep(x / 2, m - 1, k);
      Half(Keep(x / 2, m - 1 + k), x % 2);
    }
  }

  lemma {:induction false} KeepOfKeep(x: nat, m: nat, k: nat)
    requires k <= m
    ensures Keep(Keep(x, m), k) == Keep(x, k)
    decreases k
  {
    if k != 0 {
      KeepOfKeep(x / 2, m - 1, k - 1);
      Half(Keep(x / 2, m - 1), x % 2);
    }
  }

  lemma {:induction false} KeepZero(k: nat)
    ensures Keep(0, k) == 0
    decreases k
  {
    if k != 0 {
      KeepZero(k - 1);
    }
  }

  lemma {:induction false} ShrZero(k: nat)
    ensures Shr(0, k) == 0
    decreases k
  {
    if k != 0 {
      ShrZero(k - 1);
    }
  }

  lemma {:induction false} KeepFitting(v: nat, w: nat)
    requires Shr(v, w) == 0
    ensures Keep(v, w) == v
    decreases w
  {
    if w != 0 {
      KeepFitting(v / 2, w - 1);
    }
  }

  // Shifting a k-bit word by k or more clears it.
  lemma ShrClears(x: nat, k: nat, t: nat)
    requires k <= t
    ensures Shr(Keep(x, k), t) == 0
  {
    ShrOfKeep(x, k, 0);
    ShrShr(Keep(x, k), k, t - k);
    ShrZero(t - k);
  }

  lemma {:induction false} MaskShift(b: nat, t: nat)
    requires t <= b
    ensures Shr(Mask(b), t) == Mask(b - t)
    decreases t
  {
    if t != 0 {
      MaskShift(b - 1, t - 1);
      Half(Mask(b - 1), 1);
    }
  }

  lemma AndOdd(a: nat, b: nat)
    ensures And(2 * a + 1, 2 * b + 1) == 2 * And(a, b) + 1
  {
    Half(a, 1);
    Half(b, 1);
  }

  lemma {:induction false} MaskKeep(b: nat, k: nat)
    ensures And(Mask(b), Mask(k)) == Mask(if b <= k then b else k)
    decreases b + k
  {
    if b != 0 && k != 0 {
      MaskKeep(b - 1, k - 1);
      AndOdd(Mask(b - 1), Mask(k - 1));
    } else {
      AndZero(Mask(b));
    }
  }

  lemma {:induction false} AndZero(x: nat)
    ensures And(x, 0) == 0
    decreases x
  {
    if x != 0 {
      AndZero(x / 2);
    }
  }

  // Masking with (1 << k) - 1 keeps the low k bits.
  lemma {:induction false} AndMask(x: nat, k: nat)
    ensures And(x, Mask(k)) == Keep(x, k)
    decreases k
  {
    if k == 0 {
      AndZero(x);
    } else if x == 0 {
      KeepZero(k);
    } else {
      AndMask(x / 2, k - 1);
      Half(Mask(k - 1), 1);
    }
  }

  lemma {:induction false} JoinParts(x: nat, b: nat, n: nat)
    ensures Shr(Join(x, b, n), n) == x
    ensures Keep(Join(x, b, n), n) == Keep(b, n)
    decreases n
  {
    if n != 0 {
      JoinParts(x, b / 2, n - 1);
      Half(Join(x, b / 2, n - 1), b % 2);
    }
  }

  lemma {:induction false} JoinOfParts(v: nat, n: nat)
    ensures Join(Shr(v, n), Keep(v, n), n) == v
    decreases n
  {
    if n != 0 {
      JoinOfParts(v / 2, n - 1);
      Half(Keep(v / 2, n - 1), v % 2);
    }
  }

  lemma {:induction false} JoinZero(v: nat, n: nat)
    ensures Join(0, v, n) == Keep(v, n)
    decreases n
  {
    if n != 0 {
      JoinZero(v / 2, n - 1);
    }
  }

  lemma {:induction false} KeepJoin(x: nat, b: nat, n: nat, k: nat)
    ensures Keep(Join(x, b, n), n + k) == Join(Keep(x, k), b, n)
    decreases n
  {
    if n != 0 {
      KeepJoin(x, b / 2, n - 1, k);
      Half(Join(x, b / 2, n - 1), b % 2);
    }
  }

  // The low bits are clear after a shift left, so or-ing a value in there adds it.
  lemma {:induction false} AndJoinZero(x: nat, b: nat, n: nat)
    requires Shr(b, n) == 0
    ensures And(Join(x, 0, n), b) == 0
    decreases n
  {
    if n == 0 {
      AndZero(x);
    } else if Join(x, 0, n) != 0 {
      AndJoinZero(x, b / 2, n - 1);
      Half(Join(x, 0, n - 1), 0);
    }
  }

  // ----- bytes: eight bits as the literal arithmetic of the source -----

  lemma ShrNibble(x: nat, m: nat)
    ensures Shr(x, 4 + m) == Shr(x / 16, m)
  {
    var a, b, c := x / 2, x / 2 / 2, x / 2 / 2 / 2;
    assert x / 16 == c / 2;
    assert Shr(x, 4 + m) == Shr(a, 3 + m) == Shr(b, 2 + m) == Shr(c, 1 + m) == Shr(c / 2, m);
  }

  lemma ShrByte(x: nat, m: nat)
    ensures Shr(x, 8 + m) == Shr(x / 256, m)
  {
    ShrNibble(x, 4 + m);
    ShrNibble(x / 16, m);
    assert x / 16 / 16 == x / 256;
  }

  lemma ByteFits(b: Byte)
    ensures Shr(b, 8) == 0
  {
    ShrByte(b, 0);
  }

  lemma KeepNibble(x: nat, m: nat)
    ensures Keep(x, 4 + m) == 16 * Keep(x / 16, m) + x % 16
  {
    var a, b, c := x / 2, x / 2 / 2, x / 2 / 2 / 2;
    assert x / 16 == c / 2 && x % 16 == 8 * (c % 2) + 4 * (b % 2) + 2 * (a % 2) + x % 2;
    assert Keep(x, 4 + m) == 2 * Keep(a, 3 + m) + x % 2;
    assert Keep(a, 3 + m) == 2 * Keep(b, 2 + m) + a % 2;
    assert Keep(b, 2 + m) == 2 * Keep(c, 1 + m) + b % 2;
    assert Keep(c, 1 + m) == 2 * Keep(c / 2, m) + c % 2;
  }

  lemma KeepByte(x: nat, m: nat)
    ensures Keep(x, 8 + m) == 256 * Keep(x / 256, m) + x % 256
  {
    KeepNibble(x, 4 + m);
    KeepNibble(x / 16, m);
    assert x / 16 / 16 == x / 256 && x % 256 == 16 * (x / 16 % 16) + x % 16;
  }

  lemma KeepIsByte(x: nat)
    ensures Keep(x, 8) == x % 256
  {
    KeepByte(x, 0);
  }

  lemma KeepShifted(x: nat, b: Byte, m: nat)
    ensures Keep(256 * x + b, 8 + m) == 256 * Keep(x, m) + b
  {
    KeepByte(256 * x + b, m);
    assert (256 * x + b) / 256 == x && (256 * x + b) % 256 == b;
  }

  lemma JoinByte(x: nat, b: Byte)
    ensures Join(x, b, 8) == 256 * x + b
  {
    var y := 256 * x + b;
    assert y / 256 == x;
    ShrByte(y, 0);
    KeepShifted(x, b, 0);
    JoinOfParts(y, 8);
  }

  // A byte shifted left leaves room for another.
  lemma OrShifted(x: nat, b: Byte)
    ensures Or(256 * x, b) == 256 * x + b
  {
    ByteFits(b);
    JoinByte(x, 0);
    AndJoinZero(x, b, 8);
  }

  // ----- exclusive or -----

  lemma {:induction false} XorIsZero(a: nat, b: nat)
    ensures Xor(a, b) == 0 <==> a == b
    decreases a + b
  {
    if a != 0 || b != 0 {
      XorIsZero(a / 2, b / 2);
    }
  }

  lemma {:induction false} XorBits(a: nat, b: nat)
    ensures Xor(a, b) % 2 == Differ(a % 2, b % 2)
    ensures Xor(a, b) / 2 == Xor(a / 2, b / 2)
  {
    Half(Xor(a / 2, b / 2), Differ(a % 2, b % 2));
  }

  lemma {:induction false} XorAssoc(a: nat, b: nat, c: nat)
    ensures Xor(Xor(a, b), c) == Xor(a, Xor(b, c))
    decreases a + b + c
  {
    if a != 0 || b != 0 || c != 0 {
      XorAssoc(a / 2, b / 2, c / 2);
      XorBits(a, b);
      XorBits(b, c);
      XorBits(Xor(a, b), c);
      XorBits(a, Xor(b, c));
    }
  }

  lemma {:induction false} XorComm(a: nat, b: nat)
    ensures Xor(a, b) == Xor(b, a)
    decreases a + b
  {
    if a != 0 || b != 0 {
      XorComm(a / 2, b / 2);
    }
  }

  // Exchanging the middle terms of a four-fold exclusive or.
  lemma XorMiddle(a: nat, b: nat, c: nat, d: nat)
    ensures Xor(Xor(a, b), Xor(c, d)) == Xor(Xor(a, c), Xor(b, d))
  {
    XorAssoc(a, b, Xor(c, d));
    XorAssoc(b, c, d);
    XorComm(b, c);
    XorAssoc(c, b, d);
    XorAssoc(a, c, Xor(b, d));
  }

  // Xor-ing the same value twice restores the other one.
  lemma XorTwice(a: nat, b: nat)
    ensures Xor(Xor(a, b), b) == a && Xor(b, Xor(b, a)) == a
  {
    XorIsZero(b, b);
    XorAssoc(a, b, b);
    XorAssoc(b, b, a);
    XorUnit(a);
  }

  lemma {:induction false} ShrXor(a: nat, b: nat, k: nat)
    ensures Shr(Xor(a, b), k) == Xor(Shr(a, k), Shr(b, k))
    decreases k
  {
    if k != 0 {
      XorBits(a, b);
      ShrXor(a / 2, b / 2, k - 1);
    }
  }

  lemma {:induction false} KeepXor(a: nat, b: nat, k: nat)
    ensures Keep(Xor(a, b), k) == Xor(Keep(a, k), Keep(b, k))
    decreases k
  {
    if k != 0 {
      XorBits(a, b);
      KeepXor(a / 2, b / 2, k - 1);
      XorPush(Keep(a / 2, k - 1), a % 2, Keep(b / 2, k - 1), b % 2);
    }
  }

  lemma XorPush(x: nat, c: nat, y: nat, d: nat)
    requires c <= 1 && d <= 1
    ensures Xor(2 * x + c, 2 * y + d) == 2 * Xor(x, y) + Differ(c, d)
  {
    Half(x, c);
    Half(y, d);
  }

  lemma {:induction false} JoinXor(x: nat, b: nat, y: nat, d: nat, n: nat)
    ensures Xor(Join(x, b, n), Join(y, d, n)) == Join(Xor(x, y), Xor(b, d), n)
    decreases n
  {
    if n != 0 {
      XorBits(b, d);
      JoinXor(x, b / 2, y, d / 2, n - 1);
      XorPush(Join(x, b / 2, n - 1), b % 2, Join(y, d / 2, n - 1), d % 2);
    }
  }

  lemma {:induction false} XorUnit(a: nat)
    ensures Xor(a, 0) == a && Xor(0, a) == a
    decreases a
  {
    if a != 0 {
      XorUnit(a / 2);
    }
  }

  lemma {:induction false} XorFits(a: nat, b: nat, k: nat)
    requires Shr(a, k) == 0 && Shr(b, k) == 0
    ensures Shr(Xor(a, b), k) == 0
    decreases k
  {
    if k != 0 {
      XorFits(a / 2, b / 2, k - 1);
      XorBits(a, b);
    }
  }

  function XorByte(a: Byte, b: Byte): Byte {
    ByteFits(a);
    ByteFits(b);
    XorFits(a, b, 8);
    ShrByte(Xor(a, b), 0);
    Xor(a, b)
  }

  // ----- big-endian byte strings -----

  // The number a byte string spells, most significant byte first.
  function BE(s: seq<Byte>): nat {
    if s == [] then 0 else 256 * BE(s[..|s| - 1]) + s[|s| - 1]
  }

  // The n low bytes of v, most significant first.
  function ToBE(v: nat, n: nat): (s: seq<Byte>)
    ensures |s| == n
  {
    if n == 0 then [] else ToBE(v / 256, n - 1) + [v % 256]
  }

  lemma {:induction false} ToBEOfBE(s: seq<Byte>)
    ensures ToBE(BE(s), |s|) == s
  {
    if s != [] {
      var t := s[..|s| - 1];
      ToBEOfBE(t);
      assert s == t + [s[|s| - 1]];
    }
  }

  lemma LastByte(v: nat, n: nat)
    requires n > 0
    ensures BE(ToBE(v, n)) == 256 * BE(ToBE(v / 256, n - 1)) + v % 256
  {
    var s := ToBE(v, n);
    assert s[..|s| - 1] == ToBE(v / 256, n - 1);
  }

  lemma {:induction false} BEOfToBE(v: nat, n: nat)
    ensures BE(ToBE(v, n)) == Keep(v, 8 * n)
  {
    if n > 0 {
      BEOfToBE(v / 256, n - 1);
      LastByte(v, n);
      KeepByte(v, 8 * (n - 1));
    }
  }

  // A prefix spells the value shifted right past the bytes that are cut off.
  lemma {:induction false} BEPrefix(s: seq<Byte>, i: nat)
    requires i <= |s|
    ensures BE(s[..i]) == Shr(BE(s), 8 * (|s| - i))
    decreases |s|
  {
    if i == |s| {
      assert s[..i] == s;
    } else {
      var t := s[..|s| - 1];
      BEPrefix(t, i);
      assert t[..i] == s[..i];
      ShrByte(BE(s), 8 * (|t| - i));
    }
  }

  lemma {:induction false} ToBEAt(v: nat, n: nat, x: nat)
    requires x < n
    ensures ToBE(v, n)[x] == Keep(Shr(v, 8 * (n - 1 - x)), 8)
  {
    if x == n - 1 {
      KeepIsByte(v);
    } else {
      ToBEAt(v / 256, n - 1, x);
      ShrByte(v, 8 * (n - 2 - x));
      assert 8 + 8 * (n - 2 - x) == 8 * (n - 1 - x);
    }
  }
}
