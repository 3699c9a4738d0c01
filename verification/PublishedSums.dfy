/** The checksums that BIP 173, BIP 350 and the CashAddr specification publish for an empty payload are the ones
    this model's encoders write.  A register is written here as the row of its five-bit symbols, on which a step
    of either loop of address.cpp is easily followed. */
module PublishedSums {
  import Bech32
  import opened Bits
  import CashAddr
  import opened Charset
  import Checksum
  import Sequences

  // ----- exclusive or of five-bit symbols -----

  function One(b: bool): nat {
    if b then 1 else 0
  }

  ghost predicate Digits(a: nat, p4: nat, p3: nat, p2: nat, p1: nat, p0: nat) {
    && p4 <= 1 && p3 <= 1 && p2 <= 1 && p1 <= 1 && p0 <= 1
    && a == 2 * (2 * (2 * (2 * p4 + p3) + p2) + p1) + p0
  }

  lemma DigitsOf(a: bv5)
    ensures Digits(a as nat, One(a & 16 == 16), One(a & 8 == 8), One(a & 4 == 4), One(a & 2 == 2), One(a & 1 == 1))
  {}

  lemma Push(x: nat, c: nat, y: nat, d: nat, a: nat, b: nat)
    requires c <= 1 && d <= 1 && a == 2 * x + c && b == 2 * y + d
    ensures Xor(a, b) == 2 * Xor(x, y) + Differ(c, d)
  {
    XorPush(x, c, y, d);
  }

  lemma XorDigits(a: nat, p4: nat, p3: nat, p2: nat, p1: nat, p0: nat,
                  b: nat, q4: nat, q3: nat, q2: nat, q1: nat, q0: nat, c: nat)
    requires Digits(a, p4, p3, p2, p1, p0) && Digits(b, q4, q3, q2, q1, q0)
    requires Digits(c, Differ(p4, q4), Differ(p3, q3), Differ(p2, q2), Differ(p1, q1), Differ(p0, q0))
    ensures Xor(a, b) == c
  {
    XorUnit(0);
    Push(0, p4, 0, q4, p4, q4);
    var x3: nat, y3: nat := 2 * p4 + p3, 2 * q4 + q3;
    Push(p4, p3, q4, q3, x3, y3);
    var x2: nat, y2: nat := 2 * x3 + p2, 2 * y3 + q2;
    Push(x3, p2, y3, q2, x2, y2);
    var x1: nat, y1: nat := 2 * x2 + p1, 2 * y2 + q1;
    Push(x2, p1, y2, q1, x1, y1);
    Push(x1, p0, y1, q0, a, b);
  }

  lemma XorDigit(a: bv5, b: bv5, m: bv5)
    requires m == 1 || m == 2 || m == 4 || m == 8 || m == 16
    ensures One((a ^ b) & m == m) == Differ(One(a & m == m), One(b & m == m))
  {}

  lemma DigitsOfXor(a: bv5, b: bv5)
    ensures Digits((a ^ b) as nat, Differ(One(a & 16 == 16), One(b & 16 == 16)),
                   Differ(One(a & 8 == 8), One(b & 8 == 8)), Differ(One(a & 4 == 4), One(b & 4 == 4)),
                   Differ(One(a & 2 == 2), One(b & 2 == 2)), Differ(One(a & 1 == 1), One(b & 1 == 1)))
  {
    DigitsOf(a ^ b);
    XorDigit(a, b, 16);
    XorDigit(a, b, 8);
    XorDigit(a, b, 4);
    XorDigit(a, b, 2);
    XorDigit(a, b, 1);
  }

  lemma XorSymbol(a: bv5, b: bv5)
    ensures Xor(a as nat, b as nat) == (a ^ b) as nat
  {
    DigitsOf(a);
    DigitsOf(b);
    DigitsOfXor(a, b);
    XorDigits(a as nat, One(a & 16 == 16), One(a & 8 == 8), One(a & 4 == 4), One(a & 2 == 2), One(a & 1 == 1),
              b as nat, One(b & 16 == 16), One(b & 8 == 8), One(b & 4 == 4), One(b & 2 == 2), One(b & 1 == 1),
              (a ^ b) as nat);
  }

  // ----- registers as rows of symbols -----

  function Nats(s: seq<bv5>): seq<nat> {
    seq<nat>(|s|, i requires 0 <= i < |s| => s[i] as nat)
  }

  function Word(s: seq<bv5>): nat {
    if s == [] then 0 else Join(Word(s[..|s| - 1]), s[|s| - 1] as nat, 5)
  }

  function Both(a: seq<bv5>, b: seq<bv5>): (r: seq<bv5>)
    requires |a| == |b|
    ensures |r| == |a| && forall i :: 0 <= i < |r| ==> r[i] == a[i] ^ b[i]
  {
    seq<bv5>(|a|, i requires 0 <= i < |a| => a[i] ^ b[i])
  }

  lemma WordMore(s: seq<bv5>, v: bv5)
    ensures Word(s + [v]) == Join(Word(s), v as nat, 5)
  {
    assert (s + [v])[..|s|] == s;
  }

  lemma BothInit(a: seq<bv5>, b: seq<bv5>)
    requires |a| == |b| > 0
    ensures Both(a, b)[..|a| - 1] == Both(a[..|a| - 1], b[..|a| - 1])
  {}

  lemma {:induction false} XorWord(a: seq<bv5>, b: seq<bv5>)
    requires |a| == |b|
    ensures Xor(Word(a), Word(b)) == Word(Both(a, b))
  {
    if a == [] {
      XorUnit(0);
    } else {
      var n := |a| - 1;
      XorWord(a[..n], b[..n]);
      XorSymbol(a[n], b[n]);
      JoinXor(Word(a[..n]), a[n] as nat, Word(b[..n]), b[n] as nat, 5);
      BothInit(a, b);
    }
  }

  lemma SymbolFits(v: bv5)
    ensures Keep(v as nat, 5) == v as nat && Shr(v as nat, 5) == 0
  {
    FiveBits(v as nat);
    KeepFitting(v as nat, 5);
  }

  lemma RowEnds(h: bv5, t: seq<bv5>)
    requires t != []
    ensures Word(t) == Join(Word(t[..|t| - 1]), t[|t| - 1] as nat, 5)
    ensures Word([h] + t) == Join(Word([h] + t[..|t| - 1]), t[|t| - 1] as nat, 5)
  {
    Sequences.LastOf(t);
    Sequences.Associates([h], t[..|t| - 1], [t[|t| - 1]]);
    WordMore([h] + t[..|t| - 1], t[|t| - 1]);
  }

  // The first symbol of a row, and the rest of it.
  lemma {:induction false} WordParts(h: bv5, t: seq<bv5>)
    ensures Shr(Word([h] + t), 5 * |t|) == h as nat && Keep(Word([h] + t), 5 * |t|) == Word(t)
    decreases |t|
  {
    if t == [] {
      assert [h] + t == [] + [h];
      WordMore([], h);
      JoinZero(h as nat, 5);
      SymbolFits(h);
    } else {
      var m := |t| - 1;
      var u, v := t[..m], t[m];
      WordParts(h, u);
      RowEnds(h, t);
      WordTail(Word([h] + u), v, 5 * m);
    }
  }

  lemma WordTail(x: nat, v: bv5, m: nat)
    ensures Shr(Join(x, v as nat, 5), m + 5) == Shr(x, m)
    ensures Keep(Join(x, v as nat, 5), m + 5) == Join(Keep(x, m), v as nat, 5)
  {
    JoinParts(x, v as nat, 5);
    ShrShr(Join(x, v as nat, 5), 5, m);
    KeepJoin(x, v as nat, 5, m);
  }

  // ----- steps -----

  /** A step drops the first symbol, appends the new one and folds in the row t that the dropped one selects. */
  lemma Feed(code: Checksum.Code, h: bv5, s: seq<bv5>, v: bv5, t: seq<bv5>)
    requires |code.taps| == 5 && |s| + 1 == |t| == code.symbols && Checksum.Tap(code.taps, h as nat, 5) == Word(t)
    ensures Checksum.Step(code, Word([h] + s), v as nat) == Word(Both(s + [v], t))
  {
    WordParts(h, s);
    WordMore(s, v);
    XorWord(s + [v], t);
  }

  // Nothing is folded in while the first symbol of the register is zero.
  lemma {:induction false} Filling(code: Checksum.Code, x: seq<bv5>)
    requires |code.taps| == 5 && |x| < code.symbols
    ensures Checksum.Run(code, 1, Nats(x)) == Word([1] + x)
  {
    if x == [] {
      WordMore([], 1);
      JoinZero(1, 5);
      SymbolFits(1);
      assert [1] + x == [] + [1];
    } else {
      var n := |x| - 1;
      Filling(code, x[..n]);
      assert Nats(x)[..n] == Nats(x[..n]);
      assert x == x[..n] + [x[n]] && [1] + x == [1] + x[..n] + [x[n]];
      WordMore([1] + x[..n], x[n]);
      RowFits([1] + x[..n]);
      Checksum.NoFeedback(code, Word([1] + x[..n]), x[n] as nat, 5 * |x|);
    }
  }

  lemma RowFits(s: seq<bv5>)
    requires s != []
    ensures Shr(Word(s), 5 * |s|) == 0
  {
    assert s == [s[0]] + s[1..];
    WordParts(s[0], s[1..]);
    SymbolFits(s[0]);
    ShrShr(Word(s), 5 * (|s| - 1), 5);
  }

  // ----- the constants as rows -----

  lemma JoinSymbol(x: nat, v: nat)
    requires v < 32
    ensures Join(x, v, 5) == 32 * x + v
  {
    var y := 32 * x + v;
    Checksum.ShiftedBits(y);
    assert y / 2 / 2 / 2 / 2 / 2 == x;
    KeepSymbol(y, x, v);
    JoinOfParts(y, 5);
  }

  lemma KeepSymbol(y: nat, x: nat, v: nat)
    requires y == 32 * x + v && v < 32
    ensures Keep(y, 5) == v
  {
    KeepNibble(y, 1);
    assert Keep(y / 16, 1) == y / 16 % 2;
    assert y / 16 == 2 * x + v / 16 && y % 16 == v % 16;
  }

  // The value of a row, symbol by symbol.
  lemma Grow(s: seq<bv5>, v: bv5)
    ensures Word(s + [v]) == 32 * Word(s) + v as nat
  {
    WordMore(s, v);
    JoinSymbol(Word(s), v as nat);
  }

  lemma GrowTwo(s: seq<bv5>, a: bv5, b: bv5)
    ensures Word(s + [a, b]) == 1024 * Word(s) + (32 * a as nat + b as nat)
  {
    Grow(s, a);
    Grow(s + [a], b);
    assert s + [a, b] == s + [a] + [b];
  }

  lemma Row6(a: bv5, b: bv5, c: bv5, d: bv5, e: bv5, f: bv5)
    ensures Word([a, b, c, d, e, f]) ==
            1024 * (1024 * (32 * a as nat + b as nat) + (32 * c as nat + d as nat)) + (32 * e as nat + f as nat)
  {
    GrowTwo([], a, b);
    GrowTwo([a, b], c, d);
    GrowTwo([a, b, c, d], e, f);
    assert [a, b, c, d, e, f] == [a, b, c, d] + [e, f] && [a, b, c, d] == [a, b] + [c, d] && [a, b] == [] + [a, b];
  }

  lemma Row8(a: bv5, b: bv5, c: bv5, d: bv5, e: bv5, f: bv5, g: bv5, h: bv5)
    ensures Word([a, b, c, d, e, f, g, h]) ==
            1024 * (1024 * (1024 * (32 * a as nat + b as nat) + (32 * c as nat + d as nat))
                    + (32 * e as nat + f as nat)) + (32 * g as nat + h as nat)
  {
    Row6(a, b, c, d, e, f);
    GrowTwo([a, b, c, d, e, f], g, h);
    assert [a, b, c, d, e, f, g, h] == [a, b, c, d, e, f] + [g, h];
  }

  const BECH32_ROWS: seq<seq<bv5>> := [
    [29, 22, 20, 21, 29, 18], [19, 5, 1, 3, 19, 13], [15, 10, 2, 6, 15, 26], [30, 20, 4, 12, 30, 29],
    [21, 1, 8, 24, 21, 19]]

  const CASHADDR_ROWS: seq<seq<bv5>> := [
    [19, 3, 25, 11, 25, 3, 19, 1], [15, 6, 27, 22, 27, 6, 15, 2], [30, 12, 31, 5, 31, 12, 30, 4],
    [21, 24, 23, 10, 23, 24, 21, 8], [3, 25, 7, 20, 7, 25, 3, 16]]

  // The rows of g are the constants of the code.
  ghost predicate Rows(code: Checksum.Code, g: seq<seq<bv5>>) {
    && |code.taps| == 5 && |g| == 5 && code.symbols >= 1
    && forall i :: 0 <= i < 5 ==> |g[i]| == code.symbols && code.taps[i] == Word(g[i])
  }

  lemma Bech32Rows()
    ensures Rows(Checksum.BECH32, BECH32_ROWS)
  {
    Row6(29, 22, 20, 21, 29, 18);
    Row6(19, 5, 1, 3, 19, 13);
    Row6(15, 10, 2, 6, 15, 26);
    Row6(30, 20, 4, 12, 30, 29);
    Row6(21, 1, 8, 24, 21, 19);
  }

  lemma CashAddrRows()
    ensures Rows(Checksum.CASHADDR, CASHADDR_ROWS)
  {
    Row8(19, 3, 25, 11, 25, 3, 19, 1);
    Row8(15, 6, 27, 22, 27, 6, 15, 2);
    Row8(30, 12, 31, 5, 31, 12, 30, 4);
    Row8(21, 24, 23, 10, 23, 24, 21, 8);
    Row8(3, 25, 7, 20, 7, 25, 3, 16);
  }

  // ----- what the dropped symbol selects -----

  function Zeros(n: nat): (r: seq<bv5>)
    ensures |r| == n
  {
    seq<bv5>(n, _ => 0)
  }

  lemma {:induction false} ZerosWord(n: nat)
    ensures Word(Zeros(n)) == 0
  {
    if n != 0 {
      ZerosWord(n - 1);
      assert Zeros(n) == Zeros(n - 1) + [0];
      Grow(Zeros(n - 1), 0);
    }
  }

  function Chosen(on: bool, row: seq<bv5>): (r: seq<bv5>)
    ensures |r| == |row| && forall j :: 0 <= j < |r| ==> r[j] == if on then row[j] else 0
  {
    if on then row else Zeros(|row|)
  }

  function Selected(g: seq<seq<bv5>>, h: bv5): (r: seq<bv5>)
    requires |g| == 5 && forall i :: 0 <= i < 5 ==> |g[i]| == |g[0]|
    ensures |r| == |g[0]|
  {
    Both(Both(Both(Both(Chosen(h & 1 == 1, g[0]), Chosen(h & 2 == 2, g[1])), Chosen(h & 4 == 4, g[2])),
              Chosen(h & 8 == 8, g[3])), Chosen(h & 16 == 16, g[4]))
  }

  lemma PickedRow(taps: seq<nat>, b: nat, i: nat, on: bool, row: seq<bv5>)
    requires i < |taps| && taps[i] == Word(row) && Checksum.Bit(b, i) == on
    ensures Checksum.Picked(taps, b, i) == Word(Chosen(on, row))
  {
    ZerosWord(|row|);
  }

  // One more bit of the selection.
  lemma TapMore(taps: seq<nat>, b: nat, i: nat, s: seq<bv5>, on: bool, row: seq<bv5>)
    requires i < |taps| && taps[i] == Word(row) && Checksum.Bit(b, i) == on
    requires |s| == |row| && Checksum.Tap(taps, b, i) == Word(s)
    ensures Checksum.Tap(taps, b, i + 1) == Word(Both(s, Chosen(on, row)))
  {
    PickedRow(taps, b, i, on, row);
    XorWord(s, Chosen(on, row));
  }

  lemma TapFirst(taps: seq<nat>, b: nat, on: bool, row: seq<bv5>)
    requires |taps| > 0 && taps[0] == Word(row) && Checksum.Bit(b, 0) == on
    ensures Checksum.Tap(taps, b, 1) == Word(Chosen(on, row))
  {
    PickedRow(taps, b, 0, on, row);
    XorUnit(Word(Chosen(on, row)));
  }

  lemma SymbolBits(h: bv5)
    ensures var b := h as nat;
            && Checksum.Bit(b, 0) == (h & 1 == 1) && Checksum.Bit(b, 1) == (h & 2 == 2)
            && Checksum.Bit(b, 2) == (h & 4 == 4) && Checksum.Bit(b, 3) == (h & 8 == 8)
            && Checksum.Bit(b, 4) == (h & 16 == 16)
  {
    DigitsOf(h);
    DigitBits(h as nat, One(h & 16 == 16), One(h & 8 == 8), One(h & 4 == 4), One(h & 2 == 2), One(h & 1 == 1));
  }

  lemma DigitBits(b: nat, p4: nat, p3: nat, p2: nat, p1: nat, p0: nat)
    requires Digits(b, p4, p3, p2, p1, p0)
    ensures && Checksum.Bit(b, 0) == (p0 == 1) && Checksum.Bit(b, 1) == (p1 == 1) && Checksum.Bit(b, 2) == (p2 == 1)
            && Checksum.Bit(b, 3) == (p3 == 1) && Checksum.Bit(b, 4) == (p4 == 1)
  {
    var x1, x2, x3 := 2 * (2 * (2 * p4 + p3) + p2) + p1, 2 * (2 * p4 + p3) + p2, 2 * p4 + p3;
    Half(x1, p0);
    Half(x2, p1);
    Half(x3, p2);
    Half(p4, p3);
    Checksum.ShiftedBits(b);
  }

  lemma TapSelected(taps: seq<nat>, g: seq<seq<bv5>>, h: bv5)
    requires |taps| == 5 && |g| == 5
    requires forall i :: 0 <= i < 5 ==> |g[i]| == |g[0]| && taps[i] == Word(g[i])
    ensures Checksum.Tap(taps, h as nat, 5) == Word(Selected(g, h))
  {
    SymbolBits(h);
    var b := h as nat;
    var r0 := Chosen(h & 1 == 1, g[0]);
    var r1 := Both(r0, Chosen(h & 2 == 2, g[1]));
    var r2 := Both(r1, Chosen(h & 4 == 4, g[2]));
    var r3 := Both(r2, Chosen(h & 8 == 8, g[3]));
    TapFirst(taps, b, h & 1 == 1, g[0]);
    TapMore(taps, b, 1, r0, h & 2 == 2, g[1]);
    TapMore(taps, b, 2, r1, h & 4 == 4, g[2]);
    TapMore(taps, b, 3, r2, h & 8 == 8, g[3]);
    TapMore(taps, b, 4, r3, h & 16 == 16, g[4]);
  }

  // The row after one more symbol.
  function Next(g: seq<seq<bv5>>, s: seq<bv5>, v: bv5): (r: seq<bv5>)
    requires s != [] && |g| == 5 && forall i :: 0 <= i < 5 ==> |g[i]| == |s|
    ensures |r| == |s|
  {
    Both(s[1..] + [v], Selected(g, s[0]))
  }

  lemma StepIsNext(code: Checksum.Code, g: seq<seq<bv5>>, s: seq<bv5>, v: bv5)
    requires Rows(code, g) && |s| == code.symbols
    ensures Checksum.Step(code, Word(s), v as nat) == Word(Next(g, s, v))
  {
    var t := Selected(g, s[0]);
    TapSelected(code.taps, g, s[0]);
    Feed(code, s[0], s[1..], v, t);
    Sequences.FirstOf(s, 0);
    Sequences.TakeDrop(s, 0);
  }

  // One symbol more.
  lemma Fed(code: Checksum.Code, g: seq<seq<bv5>>, x: seq<nat>, s: seq<bv5>, v: bv5)
    requires Rows(code, g) && |s| == code.symbols && Checksum.Run(code, 1, x) == Word(s)
    ensures Checksum.Run(code, 1, x + [v as nat]) == Word(Next(g, s, v))
  {
    StepIsNext(code, g, s, v);
    Sequences.TakeAppended(x, [v as nat]);
    var y := x + [v as nat];
    assert y[..|y| - 1] == x && y[|y| - 1] == v as nat;
  }

  // Three symbols more.
  lemma FedThree(code: Checksum.Code, g: seq<seq<bv5>>, x: seq<nat>, r0: seq<bv5>, v1: bv5, r1: seq<bv5>,
                 v2: bv5, r2: seq<bv5>, v3: bv5)
    requires Rows(code, g) && |r0| == code.symbols && Checksum.Run(code, 1, x) == Word(r0)
    requires r1 == Next(g, r0, v1) && r2 == Next(g, r1, v2)
    ensures Checksum.Run(code, 1, x + [v1 as nat] + [v2 as nat] + [v3 as nat]) == Word(Next(g, r2, v3))
  {
    Fed(code, g, x, r0, v1);
    Fed(code, g, x + [v1 as nat], r1, v2);
    Fed(code, g, x + [v1 as nat] + [v2 as nat], r2, v3);
  }

  // ----- both tables, symbol by symbol -----

  // The three first symbols that a published checksum drops, and what each selects.
  lemma Bech32Selects()
    ensures Selected(BECH32_ROWS, 1) == [29, 22, 20, 21, 29, 18]
    ensures Selected(BECH32_ROWS, 30) == [23, 26, 15, 17, 23, 25]
    ensures Selected(BECH32_ROWS, 18) == [6, 4, 9, 27, 6, 30]
  {}

  lemma CashAddrSelects()
    ensures Selected(CASHADDR_ROWS, 1) == [19, 3, 25, 11, 25, 3, 19, 1]
    ensures Selected(CASHADDR_ROWS, 3) == [28, 5, 2, 29, 2, 5, 28, 3]
    ensures Selected(CASHADDR_ROWS, 31) == [20, 8, 13, 6, 13, 8, 20, 31]
  {}

  // ----- the published checksums -----

  lemma Same6(r: seq<bv5>, a: bv5, b: bv5, c: bv5, d: bv5, e: bv5, f: bv5)
    requires |r| == 6 && r[0] == a && r[1] == b && r[2] == c && r[3] == d && r[4] == e && r[5] == f
    ensures r == [a, b, c, d, e, f]
  {}

  lemma Bech32First()
    ensures Next(BECH32_ROWS, [1, 3, 0, 1, 10, 28], 25) == [30, 22, 21, 31, 1, 11]
  {
    Bech32Selects();
    Same6(Next(BECH32_ROWS, [1, 3, 0, 1, 10, 28], 25), 30, 22, 21, 31, 1, 11);
  }

  lemma Bech32Second()
    ensures Next(BECH32_ROWS, [30, 22, 21, 31, 1, 11], 31) == [1, 15, 16, 16, 28, 6]
  {
    Bech32Selects();
    Same6(Next(BECH32_ROWS, [30, 22, 21, 31, 1, 11], 31), 1, 15, 16, 16, 28, 6);
  }

  lemma Bech32Third()
    ensures Next(BECH32_ROWS, [1, 15, 16, 16, 28, 6], 20) == [18, 6, 4, 9, 27, 6]
  {
    Bech32Selects();
    Same6(Next(BECH32_ROWS, [1, 15, 16, 16, 28, 6], 20), 18, 6, 4, 9, 27, 6);
  }

  lemma Bech32Fourth()
    ensures Next(BECH32_ROWS, [18, 6, 4, 9, 27, 6], 31) == [0, 0, 0, 0, 0, 1]
  {
    Bech32Selects();
    Same6(Next(BECH32_ROWS, [18, 6, 4, 9, 27, 6], 31), 0, 0, 0, 0, 0, 1);
  }

  lemma Bech32mFirst()
    ensures Next(BECH32_ROWS, [1, 3, 0, 1, 31, 0], 9) == [30, 22, 21, 10, 29, 27]
  {
    Bech32Selects();
    Same6(Next(BECH32_ROWS, [1, 3, 0, 1, 31, 0], 9), 30, 22, 21, 10, 29, 27);
  }

  lemma Bech32mSecond()
    ensures Next(BECH32_ROWS, [30, 22, 21, 10, 29, 27], 19) == [1, 15, 5, 12, 12, 10]
  {
    Bech32Selects();
    Same6(Next(BECH32_ROWS, [30, 22, 21, 10, 29, 27], 19), 1, 15, 5, 12, 12, 10);
  }

  lemma Bech32mThird()
    ensures Next(BECH32_ROWS, [1, 15, 5, 12, 12, 10], 17) == [18, 19, 24, 25, 23, 3]
  {
    Bech32Selects();
    Same6(Next(BECH32_ROWS, [1, 15, 5, 12, 12, 10], 17), 18, 19, 24, 25, 23, 3);
  }

  lemma Bech32mFourth()
    ensures Next(BECH32_ROWS, [18, 19, 24, 25, 23, 3], 29) == [21, 28, 16, 12, 5, 3]
  {
    Bech32Selects();
    Same6(Next(BECH32_ROWS, [18, 19, 24, 25, 23, 3], 29), 21, 28, 16, 12, 5, 3);
  }

  lemma Same8(r: seq<bv5>, a: bv5, b: bv5, c: bv5, d: bv5, e: bv5, f: bv5, g: bv5, h: bv5)
    requires |r| == 8 && r[0] == a && r[1] == b && r[2] == c && r[3] == d
    requires r[4] == e && r[5] == f && r[6] == g && r[7] == h
    ensures r == [a, b, c, d, e, f, g, h]
  {}

  lemma CashAddrFirst()
    ensures Next(CASHADDR_ROWS, [1, 16, 0, 8, 1, 9, 7, 27], 21) == [3, 3, 17, 10, 16, 4, 8, 20]
  {
    CashAddrSelects();
    Same8(Next(CASHADDR_ROWS, [1, 16, 0, 8, 1, 9, 7, 27], 21), 3, 3, 17, 10, 16, 4, 8, 20);
  }

  lemma CashAddrSecond()
    ensures Next(CASHADDR_ROWS, [3, 3, 17, 10, 16, 4, 8, 20], 23) == [31, 20, 8, 13, 6, 13, 8, 20]
  {
    CashAddrSelects();
    Same8(Next(CASHADDR_ROWS, [3, 3, 17, 10, 16, 4, 8, 20], 23), 31, 20, 8, 13, 6, 13, 8, 20);
  }

  lemma CashAddrThird()
    ensures Next(CASHADDR_ROWS, [31, 20, 8, 13, 6, 13, 8, 20], 30) == [0, 0, 0, 0, 0, 0, 0, 1]
  {
    CashAddrSelects();
    Same8(Next(CASHADDR_ROWS, [31, 20, 8, 13, 6, 13, 8, 20], 30), 0, 0, 0, 0, 0, 0, 0, 1);
  }

  ghost predicate Spelt(s: string, vs: seq<nat>, i: nat) {
    i < |s| && i < |vs| && vs[i] < |CHARSET| && CHARSET[vs[i]] == s[i]
  }

  lemma ReadIs(s: string, vs: seq<nat>)
    requires |s| == |vs| && forall i :: 0 <= i < |s| ==> Spelt(s, vs, i)
    ensures AllKnown(s) && Read(s) == vs
  {
    forall i | 0 <= i < |s|
      ensures Known(s[i]) && Read(s)[i] == vs[i]
    {
      assert Spelt(s, vs, i);
      FindIs(s[i], vs[i]);
    }
  }

  lemma ReadBech32()
    ensures AllKnown("2uel5l") && Read("2uel5l") == [10, 28, 25, 31, 20, 31]
  {
    var s, vs := "2uel5l", [10, 28, 25, 31, 20, 31];
    assert Spelt(s, vs, 0) && Spelt(s, vs, 1) && Spelt(s, vs, 2) && Spelt(s, vs, 3);
    assert Spelt(s, vs, 4) && Spelt(s, vs, 5);
    ReadIs(s, vs);
  }

  lemma ReadBech32m()
    ensures AllKnown("lqfn3a") && Read("lqfn3a") == [31, 0, 9, 19, 17, 29]
  {
    var s, vs := "lqfn3a", [31, 0, 9, 19, 17, 29];
    assert Spelt(s, vs, 0) && Spelt(s, vs, 1) && Spelt(s, vs, 2) && Spelt(s, vs, 3);
    assert Spelt(s, vs, 4) && Spelt(s, vs, 5);
    ReadIs(s, vs);
  }

  lemma ReadCashAddr()
    ensures AllKnown("gpf8m4h7") && Read("gpf8m4h7") == [8, 1, 9, 7, 27, 21, 23, 30]
  {
    var s, vs := "gpf8m4h7", [8, 1, 9, 7, 27, 21, 23, 30];
    assert Spelt(s, vs, 0) && Spelt(s, vs, 1) && Spelt(s, vs, 2) && Spelt(s, vs, 3);
    assert Spelt(s, vs, 4) && Spelt(s, vs, 5) && Spelt(s, vs, 6) && Spelt(s, vs, 7);
    ReadIs(s, vs);
  }

  lemma Bech32Symbols(a: bv5, b: bv5, c: bv5, d: bv5, e: bv5, f: bv5)
    ensures Nats([3, 0, 1, a, b]) + [c as nat] + [d as nat] + [e as nat] + [f as nat] ==
            [3, 0, 1] + [a as nat, b as nat, c as nat, d as nat, e as nat, f as nat]
  {}

  lemma CashAddrSymbols(a: bv5, b: bv5, c: bv5, d: bv5, e: bv5, f: bv5, g: bv5, h: bv5)
    ensures Nats([16, 0, a, b, c, d, e]) + [f as nat] + [g as nat] + [h as nat] ==
            [16, 0] + [a as nat, b as nat, c as nat, d as nat, e as nat, f as nat, g as nat, h as nat]
  {}

  lemma Bech32Run(a: bv5, b: bv5, c: bv5, r0: seq<bv5>, d: bv5, r1: seq<bv5>, e: bv5, r2: seq<bv5>, f: bv5,
                  r3: seq<bv5>)
    requires |r0| == |r1| == |r2| == 6
    requires r0 == Next(BECH32_ROWS, [1, 3, 0, 1, a, b], c) && r1 == Next(BECH32_ROWS, r0, d)
    requires r2 == Next(BECH32_ROWS, r1, e) && r3 == Next(BECH32_ROWS, r2, f)
    ensures Checksum.Run(Checksum.BECH32, 1, [3, 0, 1] + [a as nat, b as nat, c as nat, d as nat, e as nat, f as nat])
            == Word(r3)
  {
    var x: seq<bv5> := [3, 0, 1, a, b];
    Bech32Rows();
    Filling(Checksum.BECH32, x);
    Row5(1, 3, 0, 1, a, b);
    Fed(Checksum.BECH32, BECH32_ROWS, Nats(x), [1, 3, 0, 1, a, b], c);
    FedThree(Checksum.BECH32, BECH32_ROWS, Nats(x) + [c as nat], r0, d, r1, e, r2, f);
    Bech32Symbols(a, b, c, d, e, f);
  }

  lemma Row5(h: bv5, a: bv5, b: bv5, c: bv5, d: bv5, e: bv5)
    ensures [h] + [a, b, c, d, e] == [h, a, b, c, d, e]
  {}

  lemma Row7(h: bv5, a: bv5, b: bv5, c: bv5, d: bv5, e: bv5, f: bv5, g: bv5)
    ensures [h] + [a, b, c, d, e, f, g] == [h, a, b, c, d, e, f, g]
  {}

  lemma CashAddrRun(a: bv5, b: bv5, c: bv5, d: bv5, e: bv5, f: bv5, r1: seq<bv5>, g: bv5, r2: seq<bv5>, h: bv5,
                    r3: seq<bv5>)
    requires |r1| == |r2| == 8
    requires r1 == Next(CASHADDR_ROWS, [1, 16, 0, a, b, c, d, e], f)
    requires r2 == Next(CASHADDR_ROWS, r1, g) && r3 == Next(CASHADDR_ROWS, r2, h)
    ensures Checksum.Run(Checksum.CASHADDR, 1, [16, 0] + [a as nat, b as nat, c as nat, d as nat, e as nat, f as nat,
                                                          g as nat, h as nat]) == Word(r3)
  {
    var x: seq<bv5> := [16, 0, a, b, c, d, e];
    CashAddrRows();
    Filling(Checksum.CASHADDR, x);
    Row7(1, 16, 0, a, b, c, d, e);
    FedThree(Checksum.CASHADDR, CASHADDR_ROWS, Nats(x), [1, 16, 0, a, b, c, d, e], f, r1, g, r2, h);
    CashAddrSymbols(a, b, c, d, e, f, g, h);
  }

  lemma ExpandA()
    ensures Bech32.Expand("a") == [3, 0, 1] && CashAddr.Expand("p") == [16, 0]
  {
    Checksum.ShiftedBits(97);
    KeepNibble(97, 1);
    KeepNibble(112, 1);
    assert Keep(6, 1) == 0 && Keep(7, 1) == 1;
  }

  lemma Bech32Residue()
    ensures Bech32.Residue("a", [10, 28, 25, 31, 20, 31]) == 1
  {
    ExpandA();
    Bech32First();
    Bech32Second();
    Bech32Third();
    Bech32Fourth();
    Bech32Run(10, 28, 25, [30, 22, 21, 31, 1, 11], 31, [1, 15, 16, 16, 28, 6], 20, [18, 6, 4, 9, 27, 6], 31,
              [0, 0, 0, 0, 0, 1]);
    Row6(0, 0, 0, 0, 0, 1);
  }

  lemma Bech32mResidue()
    ensures Bech32.Residue("a", [31, 0, 9, 19, 17, 29]) == 0x2bc830a3
  {
    ExpandA();
    Bech32mFirst();
    Bech32mSecond();
    Bech32mThird();
    Bech32mFourth();
    Bech32Run(31, 0, 9, [30, 22, 21, 10, 29, 27], 19, [1, 15, 5, 12, 12, 10], 17, [18, 19, 24, 25, 23, 3], 29,
              [21, 28, 16, 12, 5, 3]);
    Row6(21, 28, 16, 12, 5, 3);
  }

  lemma CashAddrResidue()
    ensures Checksum.Run(Checksum.CASHADDR, 1, [16, 0] + [8, 1, 9, 7, 27, 21, 23, 30]) == 1
  {
    CashAddrFirst();
    CashAddrSecond();
    CashAddrThird();
    CashAddrRun(8, 1, 9, 7, 27, 21, [3, 3, 17, 10, 16, 4, 8, 20], 23, [31, 20, 8, 13, 6, 13, 8, 20], 30,
                [0, 0, 0, 0, 0, 0, 0, 1]);
    Row8(0, 0, 0, 0, 0, 0, 0, 1);
  }

  /** The strings a12uel5l (BIP 173) and a1lqfn3a (BIP 350) carry no data under the part "a": one is the Bech32
      encoding of it and the other the Bech32m encoding. */
  lemma Bech32Published()
    ensures Bech32.SumOf("a", Bech32.Text(0, [])) == Read("2uel5l")
    ensures Bech32.SumOf("a", Bech32.Text(1, [])) == Read("lqfn3a")
  {
    ReadBech32();
    ReadBech32m();
    Bech32Residue();
    Bech32mResidue();
    SumIs("a", 0, "2uel5l");
    SumIs("a", 1, "lqfn3a");
  }

  lemma SumIs(hrp: string, encoding: nat, t: string)
    requires AllKnown(t) && |t| == 6 && Bech32.Residue(hrp, Read(t)) == Bech32.Target(encoding)
    ensures Bech32.SumOf(hrp, Bech32.Text(encoding, [])) == Read(t)
  {
    ReadFits(t);
    Sequences.Unit(Read(t));
    Bech32.SumReaches(hrp, Bech32.Text(encoding, []), Read(t));
  }

  /** The string p:gpf8m4h7 of the CashAddr specification carries no data under the prefix "p". */
  lemma CashAddrPublished()
    ensures CashAddr.SumOf("p", []) == Read("gpf8m4h7")
  {
    ReadCashAddr();
    ExpandA();
    CashAddrResidue();
    ReadFits("gpf8m4h7");
    Sequences.Unit(Read("gpf8m4h7"));
    CashAddr.SumReaches("p", [], Read("gpf8m4h7"));
  }
}
