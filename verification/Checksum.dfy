/** address.cpp: the two polynomial checksums (bech32_polymod and cashaddr_polymod).  A register of n
    five-bit symbols is shifted by one symbol a step and the symbol that falls out selects which of five
    constants are folded back in.  The facts below hold for any five constants whose low five bits are
    linearly independent, which is then checked for both tables. */
module Checksum {
  import opened Bits
  import Powers
  import Sequences

  datatype Code = Code(taps: seq<nat>, symbols: nat)

  const BECH32 := Code([0x3b6a57b2, 0x26508e6d, 0x1ea119fa, 0x3d4233dd, 0x2a1462b3], 6)
  const CASHADDR := Code([0x98f2bc8e61, 0x79b76d99e2, 0xf33e5fb3c4, 0xae2eabe2a8, 0x1e4f43e470], 8)

  function Bit(x: nat, i: nat): bool {
    Shr(x, i) % 2 == 1
  }

  function Picked(taps: seq<nat>, b: nat, i: nat): nat
    requires i < |taps|
  {
    if Bit(b, i) then taps[i] else 0
  }

  // The constants selected by the low n bits of b.
  function Tap(taps: seq<nat>, b: nat, n: nat): nat
    requires n <= |taps|
  {
    if n == 0 then 0 else Xor(Tap(taps, b, n - 1), Picked(taps, b, n - 1))
  }

  // The register width without its first symbol.
  function Low(code: Code): nat
    requires code.symbols >= 1
  {
    5 * (code.symbols - 1)
  }

  function Step(code: Code, c: nat, v: nat): nat
    requires |code.taps| == 5 && code.symbols >= 1
  {
    Xor(Join(Keep(c, Low(code)), v, 5), Tap(code.taps, Shr(c, Low(code)), 5))
  }

  function Run(code: Code, c: nat, vs: seq<nat>): nat
    requires |code.taps| == 5 && code.symbols >= 1
  {
    if vs == [] then c else Step(code, Run(code, c, vs[..|vs| - 1]), vs[|vs| - 1])
  }

  ghost predicate IsState(code: Code, c: nat) {
    Shr(c, 5 * code.symbols) == 0
  }

  // Folded-back constants are told apart by their last symbol, so no feedback is lost.
  ghost predicate Independent(taps: seq<nat>)
    requires |taps| == 5
  {
    forall b: nat :: Shr(b, 5) == 0 && Keep(Tap(taps, b, 5), 5) == 0 ==> b == 0
  }

  ghost predicate Good(code: Code) {
    && |code.taps| == 5 && code.symbols >= 1
    && (forall i :: 0 <= i < 5 ==> IsState(code, code.taps[i]))
    && Independent(code.taps)
  }

  // ----- the two tables are good -----

  lemma {:induction false} BitXor(a: nat, b: nat, i: nat)
    ensures Bit(Xor(a, b), i) <==> Bit(a, i) != Bit(b, i)
  {
    ShrXor(a, b, i);
    XorBits(Shr(a, i), Shr(b, i));
  }

  lemma ZeroBit(i: nat)
    ensures !Bit(0, i)
  {
    ShrZero(i);
  }

  lemma TapBit(taps: seq<nat>, b: nat, n: nat, j: nat)
    requires n < |taps|
    ensures Bit(Tap(taps, b, n + 1), j) <==> Bit(Tap(taps, b, n), j) != (Bit(b, n) && Bit(taps[n], j))
  {
    BitXor(Tap(taps, b, n), Picked(taps, b, n), j);
    ZeroBit(j);
  }

  lemma TapBits(taps: seq<nat>, b: nat, j: nat)
    requires |taps| == 5
    ensures Bit(Tap(taps, b, 5), j) <==>
              ((((Bit(b, 0) && Bit(taps[0], j)) != (Bit(b, 1) && Bit(taps[1], j))) != (Bit(b, 2) && Bit(taps[2], j)))
               != (Bit(b, 3) && Bit(taps[3], j))) != (Bit(b, 4) && Bit(taps[4], j))
  {
    ZeroBit(j);
    TapBit(taps, b, 0, j);
    TapBit(taps, b, 1, j);
    TapBit(taps, b, 2, j);
    TapBit(taps, b, 3, j);
    TapBit(taps, b, 4, j);
  }

  lemma KeptBits(x: nat)
    requires Keep(x, 5) == 0
    ensures !Bit(x, 0) && !Bit(x, 1) && !Bit(x, 2) && !Bit(x, 3) && !Bit(x, 4)
  {
    var a, b, c, d := x / 2, x / 2 / 2, x / 2 / 2 / 2, x / 2 / 2 / 2 / 2;
    assert Keep(x, 5) == 2 * Keep(a, 4) + x % 2;
    assert Keep(a, 4) == 2 * Keep(b, 3) + a % 2;
    assert Keep(b, 3) == 2 * Keep(c, 2) + b % 2;
    assert Keep(c, 2) == 2 * Keep(d, 1) + c % 2;
    assert Keep(d, 1) == d % 2;
    ShiftedBits(x);
  }

  lemma ShiftedBits(x: nat)
    ensures Shr(x, 1) == x / 2 && Shr(x, 2) == x / 2 / 2 && Shr(x, 3) == x / 2 / 2 / 2
    ensures Shr(x, 4) == x / 2 / 2 / 2 / 2 && Shr(x, 5) == x / 2 / 2 / 2 / 2 / 2
  {
    assert Shr(x, 2) == Shr(x / 2, 1);
    assert Shr(x, 3) == Shr(x / 2, 2) == Shr(x / 2 / 2, 1);
    assert Shr(x, 4) == Shr(x / 2, 3) == Shr(x / 2 / 2, 2) == Shr(x / 2 / 2 / 2, 1);
    assert Shr(x, 5) == Shr(x / 2, 4) == Shr(x / 2 / 2, 3) == Shr(x / 2 / 2 / 2, 2) == Shr(x / 2 / 2 / 2 / 2, 1);
  }

  lemma NoBits(b: nat)
    requires Shr(b, 5) == 0
    requires !Bit(b, 0) && !Bit(b, 1) && !Bit(b, 2) && !Bit(b, 3) && !Bit(b, 4)
    ensures b == 0
  {
    ShiftedBits(b);
  }

  // The bits of the five constants, so that independence is a propositional fact.
  lemma IndependentTaps(taps: seq<nat>)
    requires |taps| == 5
    requires forall b0, b1, b2, b3, b4 :: BitsCancel(taps, b0, b1, b2, b3, b4) ==> !b0 && !b1 && !b2 && !b3 && !b4
    ensures Independent(taps)
  {
    forall b: nat | Shr(b, 5) == 0 && Keep(Tap(taps, b, 5), 5) == 0
      ensures b == 0
    {
      KeptBits(Tap(taps, b, 5));
      TapBits(taps, b, 0);
      TapBits(taps, b, 1);
      TapBits(taps, b, 2);
      TapBits(taps, b, 3);
      TapBits(taps, b, 4);
      assert BitsCancel(taps, Bit(b, 0), Bit(b, 1), Bit(b, 2), Bit(b, 3), Bit(b, 4));
      NoBits(b);
    }
  }

  ghost predicate ColumnCancels(taps: seq<nat>, j: nat, b0: bool, b1: bool, b2: bool, b3: bool, b4: bool)
    requires |taps| == 5
  {
    !(((((b0 && Bit(taps[0], j)) != (b1 && Bit(taps[1], j))) != (b2 && Bit(taps[2], j)))
       != (b3 && Bit(taps[3], j))) != (b4 && Bit(taps[4], j)))
  }

  ghost predicate BitsCancel(taps: seq<nat>, b0: bool, b1: bool, b2: bool, b3: bool, b4: bool)
    requires |taps| == 5
  {
    && ColumnCancels(taps, 0, b0, b1, b2, b3, b4)
    && ColumnCancels(taps, 1, b0, b1, b2, b3, b4)
    && ColumnCancels(taps, 2, b0, b1, b2, b3, b4)
    && ColumnCancels(taps, 3, b0, b1, b2, b3, b4)
    && ColumnCancels(taps, 4, b0, b1, b2, b3, b4)
  }

  lemma Fits30(x: nat)
    requires x < 0x4000_0000
    ensures Shr(x, 30) == 0
  {
    ShrByte(x, 22);
    ShrByte(x / 256, 14);
    ShrByte(x / 256 / 256, 6);
    var y := x / 256 / 256 / 256;
    ShiftedBits(y);
    ShrShr(y, 5, 1);
    ShiftedBits(Shr(y, 5));
  }

  lemma Fits40(x: nat)
    requires x < 0x100_0000_0000
    ensures Shr(x, 40) == 0
  {
    ShrByte(x, 32);
    ShrByte(x / 256, 24);
    ShrByte(x / 256 / 256, 16);
    ShrByte(x / 256 / 256 / 256, 8);
    ShrByte(x / 256 / 256 / 256 / 256, 0);
  }

  lemma Bech32Good()
    ensures Good(BECH32)
  {
    var taps := BECH32.taps;
    Fits30(taps[0]);
    Fits30(taps[1]);
    Fits30(taps[2]);
    Fits30(taps[3]);
    Fits30(taps[4]);
    FeedbackColumns();
    IndependentTaps(taps);
  }

  lemma CashAddrGood()
    ensures Good(CASHADDR)
  {
    var taps := CASHADDR.taps;
    Fits40(taps[0]);
    Fits40(taps[1]);
    Fits40(taps[2]);
    Fits40(taps[3]);
    Fits40(taps[4]);
    CashAddrColumns();
    IndependentTaps(taps);
  }

  lemma LowBits(x: nat, p0: bool, p1: bool, p2: bool, p3: bool, p4: bool)
    requires (x % 2 == 1) == p0 && (x / 2 % 2 == 1) == p1 && (x / 4 % 2 == 1) == p2 && (x / 8 % 2 == 1) == p3
    requires (x / 16 % 2 == 1) == p4
    ensures Bit(x, 0) == p0 && Bit(x, 1) == p1 && Bit(x, 2) == p2 && Bit(x, 3) == p3 && Bit(x, 4) == p4
  {
    ShiftedBits(x);
  }

  // ----- the step is linear -----

  lemma {:induction false} TapXor(taps: seq<nat>, a: nat, b: nat, n: nat)
    requires n <= |taps|
    ensures Tap(taps, Xor(a, b), n) == Xor(Tap(taps, a, n), Tap(taps, b, n))
  {
    if n != 0 {
      TapXor(taps, a, b, n - 1);
      BitXor(a, b, n - 1);
      XorIsZero(taps[n - 1], taps[n - 1]);
      XorUnit(taps[n - 1]);
      XorMiddle(Tap(taps, a, n - 1), Tap(taps, b, n - 1), Picked(taps, a, n - 1), Picked(taps, b, n - 1));
    }
  }

  lemma StepXor(code: Code, c: nat, d: nat, v: nat, u: nat)
    requires |code.taps| == 5 && code.symbols >= 1
    ensures Xor(Step(code, c, v), Step(code, d, u)) == Step(code, Xor(c, d), Xor(v, u))
  {
    var w := Low(code);
    KeepXor(c, d, w);
    JoinXor(Keep(c, w), v, Keep(d, w), u, 5);
    ShrXor(c, d, w);
    TapXor(code.taps, Shr(c, w), Shr(d, w), 5);
    XorMiddle(Join(Keep(c, w), v, 5), Tap(code.taps, Shr(c, w), 5),
              Join(Keep(d, w), u, 5), Tap(code.taps, Shr(d, w), 5));
  }

  lemma {:induction false} TapFits(code: Code, b: nat, n: nat)
    requires Good(code) && n <= 5
    ensures IsState(code, Tap(code.taps, b, n))
  {
    ShrZero(5 * code.symbols);
    if n != 0 {
      TapFits(code, b, n - 1);
      XorFits(Tap(code.taps, b, n - 1), Picked(code.taps, b, n - 1), 5 * code.symbols);
    }
  }

  lemma JoinFits(x: nat, v: nat, m: nat)
    requires Shr(x, m) == 0
    ensures Shr(Join(x, v, 5), 5 + m) == 0
  {
    JoinParts(x, v, 5);
    ShrShr(Join(x, v, 5), 5, m);
  }

  lemma StepState(code: Code, c: nat, v: nat)
    requires Good(code)
    ensures IsState(code, Step(code, c, v))
  {
    var w := Low(code);
    ShrClears(c, w, w);
    JoinFits(Keep(c, w), v, w);
    TapFits(code, Shr(c, w), 5);
    XorFits(Join(Keep(c, w), v, 5), Tap(code.taps, Shr(c, w), 5), 5 * code.symbols);
  }

  lemma {:induction false} RunState(code: Code, c: nat, vs: seq<nat>)
    requires Good(code) && IsState(code, c)
    ensures IsState(code, Run(code, c, vs))
  {
    if vs != [] {
      StepState(code, Run(code, c, vs[..|vs| - 1]), vs[|vs| - 1]);
    }
  }

  // ----- the step is a bijection -----

  // A state that steps to zero on the zero symbol is zero.
  lemma StepKernel(code: Code, x: nat)
    requires Good(code) && IsState(code, x) && Step(code, x, 0) == 0
    ensures x == 0
  {
    var w := Low(code);
    var b, t := Shr(x, w), Tap(code.taps, Shr(x, w), 5);
    XorIsZero(Join(Keep(x, w), 0, 5), t);
    JoinParts(Keep(x, w), 0, 5);
    KeepZero(5);
    ShrShr(x, w, 5);
    assert b == 0;
    TapOfZero(code.taps, 5);
    ShrZero(5);
    JoinOfParts(x, w);
    JoinZeros(w);
  }

  lemma {:induction false} TapOfZero(taps: seq<nat>, n: nat)
    requires n <= |taps|
    ensures Tap(taps, 0, n) == 0
  {
    if n != 0 {
      TapOfZero(taps, n - 1);
      ZeroBit(n - 1);
    }
  }

  lemma {:induction false} JoinZeros(n: nat)
    ensures Join(0, 0, n) == 0
    decreases n
  {
    if n != 0 {
      JoinZeros(n - 1);
    }
  }

  /** For a fixed symbol, different states step to different states. */
  lemma StepInjective(code: Code, c: nat, d: nat, v: nat)
    requires Good(code) && IsState(code, c) && IsState(code, d) && Step(code, c, v) == Step(code, d, v)
    ensures c == d
  {
    StepXor(code, c, d, v, v);
    XorIsZero(v, v);
    XorIsZero(Step(code, c, v), Step(code, d, v));
    XorFits(c, d, 5 * code.symbols);
    StepKernel(code, Xor(c, d));
    XorIsZero(c, d);
  }

  // Constants that select, for each low symbol, the feedback ending in that symbol.
  ghost predicate Inverts(inverse: seq<nat>, taps: seq<nat>)
    requires |inverse| == 5 && |taps| == 5
  {
    forall x: nat :: Shr(x, 5) == 0 ==>
      Keep(Tap(taps, Tap(inverse, x, 5), 5), 5) == x && Shr(Tap(inverse, x, 5), 5) == 0
  }

  /** For a fixed symbol, every state is reached from some state. */
  lemma StepSurjective(code: Code, inverse: seq<nat>, t: nat, v: nat) returns (c: nat)
    requires Good(code) && |inverse| == 5 && Inverts(inverse, code.taps)
    requires IsState(code, t) && Shr(v, 5) == 0
    ensures IsState(code, c) && Step(code, c, v) == t
  {
    var w := Low(code);
    var x := Xor(Keep(t, 5), v);
    ShrClears(t, 5, 5);
    XorFits(Keep(t, 5), v, 5);
    var b := Tap(inverse, x, 5);
    var f := Tap(code.taps, b, 5);
    var y := Xor(t, f);
    TapFits(code, b, 5);
    XorFits(t, f, 5 * code.symbols);
    KeepXor(t, f, 5);
    assert Keep(f, 5) == x;
    XorTwice(v, Keep(t, 5));
    assert Keep(y, 5) == v;
    c := Join(b, Shr(y, 5), w);
    Refilled(b, y, w);
    XorTwice(t, f);
  }

  // A state with these top five bits over the rest of y.
  lemma Refilled(b: nat, y: nat, w: nat)
    requires Shr(b, 5) == 0 && Shr(y, w + 5) == 0
    ensures var c := Join(b, Shr(y, 5), w);
            Shr(c, w + 5) == 0 && Shr(c, w) == b && Join(Keep(c, w), Keep(y, 5), 5) == y
  {
    var hi := Shr(y, 5);
    ShrShr(y, 5, w);
    JoinParts(b, hi, w);
    KeepFitting(hi, w);
    ShrShr(Join(b, hi, w), w, 5);
    JoinOfParts(y, 5);
  }

  ghost predicate SameBits(x: nat, y: nat) {
    && Bit(x, 0) == Bit(y, 0) && Bit(x, 1) == Bit(y, 1) && Bit(x, 2) == Bit(y, 2)
    && Bit(x, 3) == Bit(y, 3) && Bit(x, 4) == Bit(y, 4)
  }

  lemma SameTwice(x: nat, y: nat, z: nat)
    requires SameBits(x, y) && SameBits(y, z)
    ensures SameBits(x, z)
  {}

  // A five-bit number is determined by its bits.
  lemma SameLowBits(x: nat, y: nat)
    requires Shr(x, 5) == 0 && Shr(y, 5) == 0 && SameBits(x, y)
    ensures x == y
  {
    BitsAre(x);
    BitsAre(y);
  }

  lemma BitsAre(x: nat)
    requires Shr(x, 5) == 0
    ensures x == BitValue(x, 0) + 2 * BitValue(x, 1) + 4 * BitValue(x, 2) + 8 * BitValue(x, 3) + 16 * BitValue(x, 4)
  {
    ShiftedBits(x);
  }

  function BitValue(x: nat, i: nat): nat {
    if Bit(x, i) then 1 else 0
  }

  lemma KeptBit(x: nat, j: nat)
    requires j < 5
    ensures Bit(Keep(x, 5), j) == Bit(x, j)
  {
    ShrOfKeep(x, j, 5 - j);
    assert j + (5 - j) == 5;
  }

  lemma {:induction false} SmallTapFits(inverse: seq<nat>, x: nat, n: nat)
    requires n <= |inverse| && forall i :: 0 <= i < |inverse| ==> inverse[i] < 32
    ensures Shr(Tap(inverse, x, n), 5) == 0
  {
    ShrZero(5);
    if n != 0 {
      SmallTapFits(inverse, x, n - 1);
      ShiftedBits(inverse[n - 1]);
      XorFits(Tap(inverse, x, n - 1), Picked(inverse, x, n - 1), 5);
    }
  }

  lemma InverseHolds(inverse: seq<nat>, taps: seq<nat>, x: nat)
    requires |inverse| == 5 && |taps| == 5 && Shr(x, 5) == 0
    requires forall i :: 0 <= i < 5 ==> inverse[i] < 32
    requires SameBits(Tap(taps, Tap(inverse, x, 5), 5), x)
    ensures Keep(Tap(taps, Tap(inverse, x, 5), 5), 5) == x && Shr(Tap(inverse, x, 5), 5) == 0
  {
    var f := Tap(taps, Tap(inverse, x, 5), 5);
    SmallTapFits(inverse, x, 5);
    ShrClears(f, 5, 5);
    KeptBit(f, 0);
    KeptBit(f, 1);
    KeptBit(f, 2);
    KeptBit(f, 3);
    KeptBit(f, 4);
    SameLowBits(Keep(f, 5), x);
  }

  const BECH32_INVERSE := [17, 11, 22, 5, 10]
  const CASHADDR_INVERSE := [1, 2, 4, 8, 16]

  // Which of the constants have bit j.
  ghost predicate Column(taps: seq<nat>, j: nat, p0: bool, p1: bool, p2: bool, p3: bool, p4: bool)
    requires |taps| == 5
  {
    Bit(taps[0], j) == p0 && Bit(taps[1], j) == p1 && Bit(taps[2], j) == p2 && Bit(taps[3], j) == p3
    && Bit(taps[4], j) == p4
  }

  lemma ColumnBit(taps: seq<nat>, b: nat, j: nat, p0: bool, p1: bool, p2: bool, p3: bool, p4: bool)
    requires |taps| == 5 && Column(taps, j, p0, p1, p2, p3, p4)
    ensures Bit(Tap(taps, b, 5), j) <==>
              ((((Bit(b, 0) && p0) != (Bit(b, 1) && p1)) != (Bit(b, 2) && p2)) != (Bit(b, 3) && p3))
              != (Bit(b, 4) && p4)
  {
    TapBits(taps, b, j);
  }

  lemma InverseColumns()
    ensures |BECH32_INVERSE| == 5
    ensures Column(BECH32_INVERSE, 0, true, true, false, true, false)
    ensures Column(BECH32_INVERSE, 1, false, true, true, false, true)
    ensures Column(BECH32_INVERSE, 2, false, false, true, true, false)
    ensures Column(BECH32_INVERSE, 3, false, true, false, false, true)
    ensures Column(BECH32_INVERSE, 4, true, false, true, false, false)
  {
    LowBits(BECH32_INVERSE[0], true, false, false, false, true);
    LowBits(BECH32_INVERSE[1], true, true, false, true, false);
    LowBits(BECH32_INVERSE[2], false, true, true, false, true);
    LowBits(BECH32_INVERSE[3], true, false, true, false, false);
    LowBits(BECH32_INVERSE[4], false, true, false, true, false);
  }

  lemma InverseBits(x: nat)
    ensures |BECH32_INVERSE| == 5
    ensures Bit(Tap(BECH32_INVERSE, x, 5), 0) <==> ((Bit(x, 0) != Bit(x, 1)) != Bit(x, 3))
    ensures Bit(Tap(BECH32_INVERSE, x, 5), 1) <==> ((Bit(x, 1) != Bit(x, 2)) != Bit(x, 4))
    ensures Bit(Tap(BECH32_INVERSE, x, 5), 2) <==> (Bit(x, 2) != Bit(x, 3))
    ensures Bit(Tap(BECH32_INVERSE, x, 5), 3) <==> (Bit(x, 1) != Bit(x, 4))
    ensures Bit(Tap(BECH32_INVERSE, x, 5), 4) <==> (Bit(x, 0) != Bit(x, 2))
  {
    InverseColumns();
    ColumnBit(BECH32_INVERSE, x, 0, true, true, false, true, false);
    ColumnBit(BECH32_INVERSE, x, 1, false, true, true, false, true);
    ColumnBit(BECH32_INVERSE, x, 2, false, false, true, true, false);
    ColumnBit(BECH32_INVERSE, x, 3, false, true, false, false, true);
    ColumnBit(BECH32_INVERSE, x, 4, true, false, true, false, false);
  }

  lemma FeedbackColumns()
    ensures Column(BECH32.taps, 0, false, true, false, true, true)
    ensures Column(BECH32.taps, 1, true, false, true, false, true)
    ensures Column(BECH32.taps, 2, false, true, false, true, false)
    ensures Column(BECH32.taps, 3, false, true, true, true, false)
    ensures Column(BECH32.taps, 4, true, false, true, true, true)
  {
    LowBits(BECH32.taps[0], false, true, false, false, true);
    LowBits(BECH32.taps[1], true, false, true, true, false);
    LowBits(BECH32.taps[2], false, true, false, true, true);
    LowBits(BECH32.taps[3], true, false, true, true, true);
    LowBits(BECH32.taps[4], true, true, false, false, true);
  }

  lemma FeedbackBits(b: nat)
    ensures Bit(Tap(BECH32.taps, b, 5), 0) <==> ((Bit(b, 1) != Bit(b, 3)) != Bit(b, 4))
    ensures Bit(Tap(BECH32.taps, b, 5), 1) <==> ((Bit(b, 0) != Bit(b, 2)) != Bit(b, 4))
    ensures Bit(Tap(BECH32.taps, b, 5), 2) <==> (Bit(b, 1) != Bit(b, 3))
    ensures Bit(Tap(BECH32.taps, b, 5), 3) <==> ((Bit(b, 1) != Bit(b, 2)) != Bit(b, 3))
    ensures Bit(Tap(BECH32.taps, b, 5), 4) <==> (((Bit(b, 0) != Bit(b, 2)) != Bit(b, 3)) != Bit(b, 4))
  {
    FeedbackColumns();
    ColumnBit(BECH32.taps, b, 0, false, true, false, true, true);
    ColumnBit(BECH32.taps, b, 1, true, false, true, false, true);
    ColumnBit(BECH32.taps, b, 2, false, true, false, true, false);
    ColumnBit(BECH32.taps, b, 3, false, true, true, true, false);
    ColumnBit(BECH32.taps, b, 4, true, false, true, true, true);
  }

  lemma InverseThenFeedback(x: nat)
    ensures |BECH32_INVERSE| == 5 && SameBits(Tap(BECH32.taps, Tap(BECH32_INVERSE, x, 5), 5), x)
  {
    InverseBits(x);
    FeedbackBits(Tap(BECH32_INVERSE, x, 5));
  }

  lemma Bech32Inverse()
    ensures Inverts(BECH32_INVERSE, BECH32.taps)
  {
    forall x: nat | Shr(x, 5) == 0
      ensures Keep(Tap(BECH32.taps, Tap(BECH32_INVERSE, x, 5), 5), 5) == x && Shr(Tap(BECH32_INVERSE, x, 5), 5) == 0
    {
      InverseThenFeedback(x);
      InverseHolds(BECH32_INVERSE, BECH32.taps, x);
    }
  }

  // Constants ending in 1, 2, 4, 8 and 16 feed a symbol back onto itself.
  ghost predicate UnitColumns(taps: seq<nat>)
    requires |taps| == 5
  {
    && Column(taps, 0, true, false, false, false, false) && Column(taps, 1, false, true, false, false, false)
    && Column(taps, 2, false, false, true, false, false) && Column(taps, 3, false, false, false, true, false)
    && Column(taps, 4, false, false, false, false, true)
  }

  lemma UnitBits(taps: seq<nat>, b: nat)
    requires |taps| == 5 && UnitColumns(taps)
    ensures SameBits(Tap(taps, b, 5), b)
  {
    ColumnBit(taps, b, 0, true, false, false, false, false);
    ColumnBit(taps, b, 1, false, true, false, false, false);
    ColumnBit(taps, b, 2, false, false, true, false, false);
    ColumnBit(taps, b, 3, false, false, false, true, false);
    ColumnBit(taps, b, 4, false, false, false, false, true);
  }

  lemma UnitInverseColumns()
    ensures UnitColumns(CASHADDR_INVERSE)
  {
    LowBits(CASHADDR_INVERSE[0], true, false, false, false, false);
    LowBits(CASHADDR_INVERSE[1], false, true, false, false, false);
    LowBits(CASHADDR_INVERSE[2], false, false, true, false, false);
    LowBits(CASHADDR_INVERSE[3], false, false, false, true, false);
    LowBits(CASHADDR_INVERSE[4], false, false, false, false, true);
  }

  lemma CashAddrColumns()
    ensures UnitColumns(CASHADDR.taps)
  {
    LowBits(CASHADDR.taps[0], true, false, false, false, false);
    LowBits(CASHADDR.taps[1], false, true, false, false, false);
    LowBits(CASHADDR.taps[2], false, false, true, false, false);
    LowBits(CASHADDR.taps[3], false, false, false, true, false);
    LowBits(CASHADDR.taps[4], false, false, false, false, true);
  }

  lemma CashAddrInverse()
    ensures Inverts(CASHADDR_INVERSE, CASHADDR.taps)
  {
    forall x: nat | Shr(x, 5) == 0
      ensures Keep(Tap(CASHADDR.taps, Tap(CASHADDR_INVERSE, x, 5), 5), 5) == x
      ensures Shr(Tap(CASHADDR_INVERSE, x, 5), 5) == 0
    {
      UnitInverseColumns();
      CashAddrColumns();
      UnitBits(CASHADDR_INVERSE, x);
      UnitBits(CASHADDR.taps, Tap(CASHADDR_INVERSE, x, 5));
      SameTwice(Tap(CASHADDR.taps, Tap(CASHADDR_INVERSE, x, 5), 5), Tap(CASHADDR_INVERSE, x, 5), x);
      InverseHolds(CASHADDR_INVERSE, CASHADDR.taps, x);
    }
  }

  lemma {:induction false} RunInjective(code: Code, c: nat, d: nat, vs: seq<nat>)
    requires Good(code) && IsState(code, c) && IsState(code, d) && Run(code, c, vs) == Run(code, d, vs)
    ensures c == d
  {
    if vs != [] {
      var us := vs[..|vs| - 1];
      RunState(code, c, us);
      RunState(code, d, us);
      StepInjective(code, Run(code, c, us), Run(code, d, us), vs[|vs| - 1]);
      RunInjective(code, c, d, us);
    }
  }

  // ----- bursts -----

  // Symbols written one after the other.
  function Joined(vs: seq<nat>): nat {
    if vs == [] then 0 else Join(Joined(vs[..|vs| - 1]), vs[|vs| - 1], 5)
  }

  lemma {:induction false} JoinedFits(vs: seq<nat>)
    ensures Shr(Joined(vs), 5 * |vs|) == 0
  {
    if vs != [] {
      JoinedFits(vs[..|vs| - 1]);
      JoinFits(Joined(vs[..|vs| - 1]), vs[|vs| - 1], 5 * (|vs| - 1));
    }
  }

  lemma {:induction false} JoinedInjective(x: seq<nat>, y: seq<nat>)
    requires |x| == |y| && Fit(x, 5) && Fit(y, 5) && Joined(x) == Joined(y)
    ensures x == y
  {
    if x != [] {
      var x', y', a, b := x[..|x| - 1], y[..|y| - 1], x[|x| - 1], y[|y| - 1];
      JoinParts(Joined(x'), a, 5);
      JoinParts(Joined(y'), b, 5);
      KeepFitting(a, 5);
      KeepFitting(b, 5);
      JoinedInjective(x', y');
      assert x == x' + [a] && y == y' + [b];
    }
  }

  // Fed from the same state, two strings no longer than the register differ exactly as the strings do.
  lemma {:induction false} RunDifference(code: Code, c: nat, x: seq<nat>, y: seq<nat>)
    requires Good(code) && |x| == |y| <= code.symbols
    ensures Xor(Run(code, c, x), Run(code, c, y)) == Xor(Joined(x), Joined(y))
  {
    if x == [] {
      XorIsZero(c, c);
    } else {
      var x', y', a, b := x[..|x| - 1], y[..|y| - 1], x[|x| - 1], y[|y| - 1];
      RunDifference(code, c, x', y');
      StepXor(code, Run(code, c, x'), Run(code, c, y'), a, b);
      JoinedFits(x');
      JoinedFits(y');
      var d := Xor(Joined(x'), Joined(y'));
      XorFits(Joined(x'), Joined(y'), 5 * |x'|);
      NoFeedback(code, d, Xor(a, b), 5 * |x'|);
      JoinXor(Joined(x'), a, Joined(y'), b, 5);
    }
  }

  // Nothing falls out of a register whose first symbol is zero.
  lemma NoFeedback(code: Code, d: nat, v: nat, m: nat)
    requires |code.taps| == 5 && code.symbols >= 1 && m <= Low(code) && Shr(d, m) == 0
    ensures Step(code, d, v) == Join(d, v, 5)
  {
    var w := Low(code);
    ShrShr(d, m, w - m);
    ShrZero(w - m);
    TapOfZero(code.taps, 5);
    JoinOfParts(d, w);
    JoinZero(Keep(d, w), w);
    KeepOfKeep(d, w, w);
    XorUnit(Join(d, v, 5));
  }

  lemma {:induction false} RunConcat(code: Code, c: nat, x: seq<nat>, y: seq<nat>)
    requires |code.taps| == 5 && code.symbols >= 1
    ensures Run(code, c, x + y) == Run(code, Run(code, c, x), y)
  {
    if y == [] {
      assert x + y == x;
    } else {
      RunConcat(code, c, x, y[..|y| - 1]);
      assert (x + y)[..|x + y| - 1] == x + y[..|y| - 1];
    }
  }

  /** Changing symbols within a window no longer than the register always changes the checksum,
      whatever the length of the string. */
  lemma BurstDetected(code: Code, c: nat, p: seq<nat>, x: seq<nat>, y: seq<nat>, s: seq<nat>)
    requires Good(code) && IsState(code, c) && |x| == |y| <= code.symbols && Fit(x, 5) && Fit(y, 5) && x != y
    ensures Run(code, c, p + x + s) != Run(code, c, p + y + s)
  {
    RunConcat(code, c, p + x, s);
    RunConcat(code, c, p + y, s);
    RunConcat(code, c, p, x);
    RunConcat(code, c, p, y);
    var q := Run(code, c, p);
    RunState(code, c, p);
    RunState(code, q, x);
    RunState(code, q, y);
    if Run(code, c, p + x + s) == Run(code, c, p + y + s) {
      RunInjective(code, Run(code, q, x), Run(code, q, y), s);
      RunDifference(code, q, x, y);
      XorIsZero(Run(code, q, x), Run(code, q, y));
      XorIsZero(Joined(x), Joined(y));
      JoinedInjective(x, y);
    }
  }

  /** Replacing one symbol always changes the checksum. */
  lemma SubstitutionDetected(code: Code, c: nat, vs: seq<nat>, i: nat, v: nat)
    requires Good(code) && IsState(code, c) && i < |vs| && Shr(vs[i], 5) == 0 && Shr(v, 5) == 0 && v != vs[i]
    ensures Run(code, c, vs[i := v]) != Run(code, c, vs)
  {
    var p, s := vs[..i], vs[i + 1..];
    assert vs == p + [vs[i]] + s && vs[i := v] == p + [v] + s;
    BurstDetected(code, c, p, [v], [vs[i]], s);
  }

  // ----- every data string has exactly one checksum -----

  // The n low symbols of x.
  function Split(x: nat, n: nat): (vs: seq<nat>)
    ensures |vs| == n
    decreases n, x
  {
    if n == 0 then [] else Split(Shr(x, 5), n - 1) + [Keep(x, 5)]
  }

  lemma {:induction false} SplitJoined(x: nat, n: nat)
    requires Shr(x, 5 * n) == 0
    ensures Joined(Split(x, n)) == x && Fit(Split(x, n), 5)
    decreases n
  {
    if n != 0 {
      ShrShr(x, 5, 5 * (n - 1));
      SplitJoined(Shr(x, 5), n - 1);
      var vs := Split(x, n);
      assert vs[..n - 1] == Split(Shr(x, 5), n - 1);
      JoinSame(Shr(x, 5), x, 5);
      JoinOfParts(x, 5);
      ShrClears(x, 5, 5);
    }
  }

  lemma {:induction false} JoinSame(a: nat, x: nat, n: nat)
    ensures Join(a, Keep(x, n), n) == Join(a, x, n)
    decreases n
  {
    if n != 0 {
      JoinSame(a, x / 2, n - 1);
      Half(Keep(x / 2, n - 1), x % 2);
    }
  }

  // The symbols that take state c to the target.
  function Tail(code: Code, c: nat, target: nat): (vs: seq<nat>)
    requires |code.taps| == 5 && code.symbols >= 1
    ensures |vs| == code.symbols
  {
    Split(Xor(Run(code, c, Powers.Zeros(code.symbols)), target), code.symbols)
  }

  lemma {:induction false} JoinedOfZeros(n: nat)
    ensures Joined(Powers.Zeros(n)) == 0
  {
    if n != 0 {
      JoinedOfZeros(n - 1);
      assert Powers.Zeros(n)[..n - 1] == Powers.Zeros(n - 1);
      JoinZeros(5);
    }
  }

  /** Appending the tail reaches the target. */
  lemma TailReaches(code: Code, c: nat, target: nat)
    requires Good(code) && IsState(code, c) && IsState(code, target)
    ensures Fit(Tail(code, c, target), 5) && Run(code, c, Tail(code, c, target)) == target
  {
    var n := code.symbols;
    var z, t := Powers.Zeros(n), Tail(code, c, target);
    RunState(code, c, z);
    XorFits(Run(code, c, z), target, 5 * n);
    SplitJoined(Xor(Run(code, c, z), target), n);
    RunDifference(code, c, z, t);
    JoinedOfZeros(n);
    XorUnit(Joined(t));
    XorTwice(target, Run(code, c, z));
    XorTwice(Run(code, c, t), Run(code, c, z));
  }

  /** No other tail does. */
  lemma TailUnique(code: Code, c: nat, target: nat, t: seq<nat>)
    requires Good(code) && IsState(code, c) && IsState(code, target)
    requires |t| == code.symbols && Fit(t, 5) && Run(code, c, t) == target
    ensures t == Tail(code, c, target)
  {
    var u := Tail(code, c, target);
    TailReaches(code, c, target);
    RunDifference(code, c, t, u);
    XorIsZero(target, target);
    XorIsZero(Joined(t), Joined(u));
    JoinedInjective(t, u);
  }

  // The checksum of a whole string fed after a prefix.
  function Sum(code: Code, prefix: seq<nat>, data: seq<nat>, target: nat): (t: seq<nat>)
    requires |code.taps| == 5 && code.symbols >= 1
    ensures |t| == code.symbols
  {
    Tail(code, Run(code, 1, prefix + data), target)
  }

  /** Data followed by its checksum, and by nothing else of that length, reaches the target. */
  lemma SumReaches(code: Code, prefix: seq<nat>, data: seq<nat>, target: nat, t: seq<nat>)
    requires Good(code) && IsState(code, 1) && IsState(code, target) && |t| == code.symbols && Fit(t, 5)
    ensures Fit(Sum(code, prefix, data, target), 5)
    ensures Run(code, 1, prefix + (data + t)) == target <==> t == Sum(code, prefix, data, target)
  {
    RunState(code, 1, prefix + data);
    TailExactly(code, Run(code, 1, prefix + data), target, t);
    RunAfter(code, prefix, data, t);
  }

  lemma RunAfter(code: Code, prefix: seq<nat>, data: seq<nat>, t: seq<nat>)
    requires |code.taps| == 5 && code.symbols >= 1
    ensures Run(code, 1, prefix + (data + t)) == Run(code, Run(code, 1, prefix + data), t)
  {
    RunConcat(code, 1, prefix + data, t);
    Sequences.Associates(prefix, data, t);
  }

  lemma TailExactly(code: Code, c: nat, target: nat, t: seq<nat>)
    requires Good(code) && IsState(code, c) && IsState(code, target) && |t| == code.symbols && Fit(t, 5)
    ensures Fit(Tail(code, c, target), 5) && (Run(code, c, t) == target <==> t == Tail(code, c, target))
  {
    TailReaches(code, c, target);
    if Run(code, c, t) == target {
      TailUnique(code, c, target, t);
    }
  }

  lemma SumFits(code: Code, prefix: seq<nat>, data: seq<nat>, target: nat)
    requires Good(code) && IsState(code, 1) && IsState(code, target)
    ensures Fit(Sum(code, prefix, data, target), 5)
  {
    RunState(code, 1, prefix + data);
    TailReaches(code, Run(code, 1, prefix + data), target);
  }

  // ----- the methods -----

  /** The five conditional folds of one step. */
  method FoldTaps(taps: seq<nat>, base: nat, b: nat) returns (chk: nat)
    requires |taps| == 5
    ensures chk == Xor(base, Tap(taps, b, 5))
  {
    chk := base;
    XorUnit(base);
    for i := 0 to 5
      invariant chk == Xor(base, Tap(taps, b, i))
    {
      XorAssoc(base, Tap(taps, b, i), Picked(taps, b, i));
      XorUnit(chk);
      AndOne(Shr(b, i));
      if And(Shr(b, i), 1) == 1 {
        chk := Xor(chk, taps[i]);
      }
    }
  }

  lemma AndOne(x: nat)
    ensures And(x, 1) == x % 2
  {
    AndZero(x / 2);
  }

  lemma MaskByte(k: nat)
    ensures Mask(k + 8) == 256 * Mask(k) + 255
  {
    assert Mask(k + 8) == 2 * Mask(k + 7) + 1;
    assert Mask(k + 7) == 2 * Mask(k + 6) + 1;
    assert Mask(k + 6) == 2 * Mask(k + 5) + 1;
    assert Mask(k + 5) == 2 * Mask(k + 4) + 1;
    assert Mask(k + 4) == 2 * Mask(k + 3) + 1;
    assert Mask(k + 3) == 2 * Mask(k + 2) + 1;
    assert Mask(k + 2) == 2 * Mask(k + 1) + 1;
    assert Mask(k + 1) == 2 * Mask(k) + 1;
  }

  lemma RunOneMore(code: Code, vs: seq<nat>, i: nat)
    requires |code.taps| == 5 && code.symbols >= 1 && i < |vs|
    ensures Run(code, 1, vs[..i + 1]) == Step(code, Run(code, 1, vs[..i]), vs[i])
  {
    assert vs[..i + 1][..i] == vs[..i];
  }

  lemma RegisterMasks()
    ensures Mask(25) == 0x1ffffff && Mask(35) == 0x07ffffffff
  {
    MaskByte(1);
    MaskByte(9);
    MaskByte(17);
    assert Mask(3) == 7;
    MaskByte(3);
    MaskByte(11);
    MaskByte(19);
    MaskByte(27);
  }

  lemma LowSymbolClear(x: nat, v: nat)
    requires Shr(v, 5) == 0
    ensures Xor(Join(x, 0, 5), v) == Join(x, v, 5)
  {
    JoinXor(x, 0, 0, v, 5);
    JoinZero(v, 5);
    KeepFitting(v, 5);
    XorUnit(x);
    XorUnit(v);
  }

  /** bech32_polymod: the register starts at 1. */
  method Bech32Polymod(values: seq<nat>) returns (chk: nat)
    requires Fit(values, 5)
    ensures chk == Run(BECH32, 1, values)
  {
    chk := 1;
    RegisterMasks();
    for i := 0 to |values|
      invariant chk == Run(BECH32, 1, values[..i])
    {
      var b := Shr(chk, 25);
      RunOneMore(BECH32, values, i);
      AndMask(chk, 25);
      LowSymbolClear(Keep(chk, 25), values[i]);
      var shifted := Xor(Join(And(chk, 0x1ffffff), 0, 5), values[i]);
      chk := FoldTaps(BECH32.taps, shifted, b);
    }
    assert values[..|values|] == values;
  }

  /** cashaddr_polymod: the same on a 40-bit register, with the last bit flipped at the end. */
  method CashAddrPolymod(v: seq<nat>) returns (r: nat)
    requires Fit(v, 5)
    ensures r == Xor(Run(CASHADDR, 1, v), 1)
    ensures r == 0 <==> Run(CASHADDR, 1, v) == 1
  {
    var c := 1;
    RegisterMasks();
    for i := 0 to |v|
      invariant c == Run(CASHADDR, 1, v[..i])
    {
      var c0 := Shr(c, 35);
      RunOneMore(CASHADDR, v, i);
      AndMask(c, 35);
      LowSymbolClear(Keep(c, 35), v[i]);
      var shifted := Xor(Join(And(c, 0x07ffffffff), 0, 5), v[i]);
      c := FoldTaps(CASHADDR.taps, shifted, c0);
    }
    assert v[..|v|] == v;
    XorIsZero(c, 1);
    r := Xor(c, 1);
  }
}
