/** address.cpp: Base58 decoding through a base-256 accumulator whose size is guessed as 733/1000 of the
    input length.  The guess is always large enough, and decoding is the inverse of the standard
    Base58 encoding. */
module Base58 {
  import opened AddressResult
  import Bits
  import opened Powers
  import Sequences

  type Byte = Bits.Byte
  type Digit58 = x: nat | x < 58

  // ----- the alphabet -----

  const ALPHABET := "123456789" + "ABCDEFGH" + "JKLMN" + "PQRSTUVWXYZ" + "abcdefghijk" + "mnopqrstuvwxyz"

  // The decoder's table: the position of c among the first n characters of the alphabet, -1 when absent.
  function Lookup(c: char, n: nat): (d: int)
    requires n <= |ALPHABET|
    ensures -1 <= d < n
    decreases n, c
  {
    if n == 0 then -1 else if ALPHABET[n - 1] == c then n - 1 else Lookup(c, n - 1)
  }

  function DigitOf(c: char): (d: int)
    ensures -1 <= d < 58
  {
    Lookup(c, |ALPHABET|)
  }

  ghost predicate Run(s: string, first: char) {
    forall i :: 0 <= i < |s| ==> s[i] as int == first as int + i
  }

  lemma Runs()
    ensures Run("123456789", '1') && Run("ABCDEFGH", 'A') && Run("JKLMN", 'J')
    ensures Run("PQRSTUVWXYZ", 'P') && Run("abcdefghijk", 'a') && Run("mnopqrstuvwxyz", 'm')
  {}

  lemma AlphabetAscends(i: nat, j: nat)
    requires i < j < |ALPHABET|
    ensures ALPHABET[i] < ALPHABET[j]
  {
    Runs();
  }

  lemma {:induction false} LookupFinds(c: char, n: nat, d: nat)
    requires d < n <= |ALPHABET|
    ensures Lookup(c, n) == d <==> ALPHABET[d] == c
  {
    if ALPHABET[n - 1] == c {
      if d < n - 1 {
        AlphabetAscends(d, n - 1);
      }
    } else if d < n - 1 {
      LookupFinds(c, n - 1, d);
    }
  }

  /** c has digit d exactly when it is character d of the alphabet. */
  lemma DigitOfAlphabet(c: char, d: Digit58)
    ensures |ALPHABET| == 58
    ensures DigitOf(c) == d <==> ALPHABET[d] == c
  {
    LookupFinds(c, 58, d);
  }

  ghost predicate InAlphabet(s: string) {
    forall i :: 0 <= i < |s| ==> DigitOf(s[i]) >= 0
  }

  function DigitsOf(s: string): (ds: seq<nat>)
    requires InAlphabet(s)
    ensures |ds| == |s| && AreDigits(ds, 58)
    ensures forall i :: 0 <= i < |s| ==> ds[i] == DigitOf(s[i])
  {
    seq<nat>(|s|, i requires 0 <= i < |s| => DigitOf(s[i]))
  }

  // ----- the standard encoding -----

  lemma OneIsZero()
    ensures DigitOf('1') == 0
  {
    DigitOfAlphabet('1', 0);
  }

  function LeadingOnes(s: string): (z: nat)
    ensures z <= |s| && (forall i :: 0 <= i < z ==> s[i] == '1')
    ensures z < |s| ==> s[z] != '1'
  {
    if s == "" || s[0] != '1' then 0 else 1 + LeadingOnes(s[1..])
  }

  function LeadingZeros(b: seq<Byte>): (z: nat)
    ensures z <= |b| && (forall i :: 0 <= i < z ==> b[i] == 0)
    ensures z < |b| ==> b[z] != 0
  {
    if b == [] || b[0] != 0 then 0 else 1 + LeadingZeros(b[1..])
  }

  function Spell(ds: seq<nat>): (s: string)
    requires AreDigits(ds, 58)
    ensures |s| == |ds| && forall i :: 0 <= i < |ds| ==> s[i] == ALPHABET[ds[i]]
  {
    seq<char>(|ds|, i requires 0 <= i < |ds| => ALPHABET[ds[i]])
  }

  // Spelling digits and reading them back.
  lemma ReadSpelled(ds: seq<nat>)
    requires AreDigits(ds, 58)
    ensures InAlphabet(Spell(ds)) && DigitsOf(Spell(ds)) == ds
  {
    forall i | 0 <= i < |ds|
      ensures DigitOf(Spell(ds)[i]) == ds[i]
    {
      DigitOfAlphabet(Spell(ds)[i], ds[i]);
    }
  }

  lemma SpellRead(s: string)
    requires InAlphabet(s)
    ensures Spell(DigitsOf(s)) == s
  {
    forall i | 0 <= i < |s|
      ensures Spell(DigitsOf(s))[i] == s[i]
    {
      DigitOfAlphabet(s[i], DigitOf(s[i]));
    }
  }

  lemma DigitsConcat(s: string, t: string)
    requires InAlphabet(s) && InAlphabet(t)
    ensures InAlphabet(s + t) && DigitsOf(s + t) == DigitsOf(s) + DigitsOf(t)
  {}

  function Ones(n: nat): (s: string)
    ensures |s| == n && forall i :: 0 <= i < n ==> s[i] == '1'
  {
    seq(n, _ => '1')
  }

  // One '1' per leading zero byte, then the number the bytes spell, in base 58.
  function Encode(b: seq<Byte>): string {
    DigitsSpell(Value(b, 256), 58);
    Ones(LeadingZeros(b)) + Spell(Digits(Value(b, 256), 58))
  }

  // What the decoder returns on a string over the alphabet.
  function Decoded(s: string): seq<nat>
    requires InAlphabet(s)
  {
    Zeros(LeadingOnes(s)) + Digits(Value(DigitsOf(s), 58), 256)
  }

  // ----- the accumulator is large enough -----

  lemma Pow58At71()
    ensures Pow(58, 71) == 268965015114358137726910587140455987105619365599731777536
                         * 268965015114358137726910587140455987105619365599731777536 * 2207984167552
  {
    Pow58At8();
    PowAdd(58, 8, 8);
    assert Pow(58, 16) == 16400152899115243850138976256;
    PowAdd(58, 16, 16);
    assert Pow(58, 32) == 268965015114358137726910587140455987105619365599731777536;
    PowAdd(58, 32, 32);
    PowAdd(58, 64, 7);
  }

  lemma Pow58At8()
    ensures Pow(58, 7) == 2207984167552 && Pow(58, 8) == 128063081718016
  {
    assert Pow(58, 3) == 195112 && Pow(58, 4) == 11316496;
    PowAdd(58, 4, 3);
    PowAdd(58, 4, 4);
  }

  lemma Pow256At52()
    ensures Pow(256, 52) == 0x1_0000000000000000_0000000000000000_0000000000000000 * 0x1_0000_0000
                          * 0x1_0000000000000000_0000000000000000_0000000000000000
  {
    assert Pow(256, 4) == 0x1_0000_0000;
    PowAdd(256, 4, 4);
    PowAdd(256, 8, 8);
    PowAdd(256, 16, 8);
    PowAdd(256, 24, 4);
    PowAdd(256, 28, 24);
  }

  lemma PowerGap()
    ensures Pow(58, 71) < Pow(256, 52)
  {
    Pow58At71();
    Pow256At52();
  }

  // The size of the accumulator for n characters.
  function Capacity(n: nat): nat {
    n * 733 / 1000 + 1
  }

  /** 58^n < 256^(733 n / 1000 + 1) for every n, since 58^71 < 256^52 and 52/71 < 733/1000. */
  lemma RoomFor(n: nat)
    ensures Pow(58, n) < Pow(256, Capacity(n))
  {
    var c := Capacity(n);
    PowerGap();
    calc {
      Pow(Pow(58, n), 71);
      { PowPow(58, n, 71); }
      Pow(58, n * 71);
      { PowPow(58, 71, n); assert n * 71 == 71 * n; }
      Pow(Pow(58, 71), n);
    <=
      { PowMonoBase(Pow(58, 71), Pow(256, 52), n); }
      Pow(Pow(256, 52), n);
      { PowPow(256, 52, n); }
      Pow(256, 52 * n);
    <
      { assert 52 * n < 71 * c; PowGrows(256, 52 * n, 71 * c); }
      Pow(256, 71 * c);
      { PowPow(256, c, 71); assert 71 * c == c * 71; }
      Pow(Pow(256, c), 71);
    }
    if Pow(256, c) <= Pow(58, n) {
      PowMonoBase(Pow(256, c), Pow(58, n), 71);
    }
  }

  // ----- the decoder -----

  /** The carry loop: b256 := 58 * b256 + digit, from the last byte to the first. */
  method MultiplyAdd(b256: array<Byte>, digit: nat) returns (carry: nat)
    requires digit < 58
    modifies b256
    ensures carry * Pow(256, b256.Length) + Value(b256[..], 256) == 58 * old(Value(b256[..], 256)) + digit
  {
    carry := digit;
    var j := b256.Length;
    ghost var was := b256[..];
    while j > 0
      invariant 0 <= j <= b256.Length && carry < 58
      invariant b256[..j] == was[..j]
      invariant carry * Pow(256, b256.Length - j) + Value(b256[j..], 256) == 58 * Value(was[j..], 256) + digit
    {
      j := j - 1;
      ghost var hi, lo := carry, b256[j + 1..];
      var byte: nat := b256[j];
      carry := carry + 58 * byte;
      CarryStep(carry, hi, was[j], lo, was[j + 1..], digit);
      b256[j] := carry % 256;
      carry := carry / 256;
      assert b256[j..] == [b256[j]] + lo;
      Sequences.FirstOf(was, j);
    }
    assert b256[0..] == b256[..] && was[0..] == was;
  }

  lemma CarryStep(c: nat, hi: nat, b: Byte, lo: seq<Byte>, was: seq<Byte>, digit: nat)
    requires c == hi + 58 * b && |lo| == |was|
    requires hi * Pow(256, |lo|) + Value(lo, 256) == 58 * Value(was, 256) + digit
    ensures c / 256 * Pow(256, |lo| + 1) + Value([c % 256] + lo, 256) == 58 * Value([b] + was, 256) + digit
  {
    ValueConcat([c % 256], lo, 256);
    ValueConcat([b], was, 256);
    ValueOne(c % 256, 256);
    ValueOne(b, 256);
    CarryArithmetic(c, hi, b, Pow(256, |lo|), Value(lo, 256), Value(was, 256), digit);
  }

  lemma ValueOne(d: nat, b: nat)
    ensures Value([d], b) == d
  {
    assert [d][..0] == [];
  }

  lemma CarryArithmetic(c: nat, hi: nat, b: nat, p: nat, lo: nat, was: nat, digit: nat)
    requires c == hi + 58 * b && hi * p + lo == 58 * was + digit
    ensures c / 256 * (256 * p) + (c % 256 * p + lo) == 58 * (b * p + was) + digit
  {
    var q, r := c / 256, c % 256;
    assert c == 256 * q + r;
    assert q * (256 * p) == 256 * q * p;
    assert 256 * q * p + r * p == c * p;
    assert c * p == hi * p + 58 * b * p;
    assert 58 * b * p == 58 * (b * p);
  }

  lemma {:induction false} OnesAreZero(s: string)
    requires InAlphabet(s) && forall i :: 0 <= i < |s| ==> s[i] == '1'
    ensures Value(DigitsOf(s), 58) == 0
  {
    if s != "" {
      OneIsZero();
      OnesAreZero(s[..|s| - 1]);
      assert DigitsOf(s)[..|s| - 1] == DigitsOf(s[..|s| - 1]);
    }
  }

  lemma DigitAppended(s: string, i: nat)
    requires i < |s| && InAlphabet(s[..i]) && DigitOf(s[i]) >= 0
    ensures InAlphabet(s[..i + 1])
    ensures Value(DigitsOf(s[..i + 1]), 58) == 58 * Value(DigitsOf(s[..i]), 58) + DigitOf(s[i])
  {
    assert s[..i + 1][..i] == s[..i];
    var ds := DigitsOf(s[..i + 1]);
    assert ds[..i] == DigitsOf(s[..i]);
  }

  lemma FitsCapacity(ds: seq<nat>, n: nat)
    requires AreDigits(ds, 58) && |ds| <= n
    ensures Value(ds, 58) < Pow(256, Capacity(n))
  {
    ValueBound(ds, 58);
    RoomFor(n);
    if |ds| < n {
      PowGrows(58, |ds|, n);
    }
  }

  lemma LeadingOnesIs(s: string, z: nat)
    requires z <= |s| && (forall i :: 0 <= i < z ==> s[i] == '1') && (z < |s| ==> s[z] != '1')
    ensures LeadingOnes(s) == z
  {}

  // The accumulator spells in base 256 what the digits of a string spell in base 58.
  ghost predicate Took(acc: seq<Byte>, s: string) {
    InAlphabet(s) && Value(acc, 256) == Value(DigitsOf(s), 58)
  }

  // One digit: the accumulator takes it in and the last carry is zero.
  method PushDigit(s: string, i: nat, b256: array<Byte>, digit: nat) returns (carry: nat)
    requires i < |s| && b256.Length == Capacity(|s|) && digit == DigitOf(s[i])
    requires Took(b256[..], s[..i])
    modifies b256
    ensures Took(b256[..], s[..i + 1]) && carry == 0
  {
    DigitAppended(s, i);
    FitsCapacity(DigitsOf(s[..i + 1]), |s|);
    carry := MultiplyAdd(b256, digit);
    NoCarry(carry, Pow(256, b256.Length), Value(b256[..], 256));
  }

  /** The main loop: the digits after the leading ones go into a zeroed accumulator. */
  method Accumulate(s: string, zeros: nat, b256: array<Byte>) returns (error: Result<()>)
    requires zeros <= |s| && b256.Length == Capacity(|s|)
    requires Took(b256[..], s[..zeros])
    modifies b256
    ensures error == if InAlphabet(s) then Ok(()) else Err(BadCharacter)
    ensures InAlphabet(s) ==> Took(b256[..], s)
  {
    for i := zeros to |s|
      invariant Took(b256[..], s[..i])
    {
      var d := DigitOf(s[i]);
      if d < 0 {
        return Err(BadCharacter);
      }
      var carry := PushDigit(s, i, b256, d);
      if carry != 0 {
        // The source returns BadLength here.
        assert false;
      }
    }
    assert s[..|s|] == s;
    error := Ok(());
  }

  lemma NoCarry(carry: nat, p: nat, v: nat)
    ensures carry * p + v < p ==> carry == 0
  {
    if carry > 0 {
      MulMono(1, carry, p);
    }
  }

  method Base58Decode(s: string) returns (r: Result<seq<Byte>>)
    ensures r == if InAlphabet(s) then Ok(Decoded(s)) else Err(BadCharacter)
  {
    var zeros := 0;
    while zeros < |s| && s[zeros] == '1'
      invariant zeros <= |s| && forall i :: 0 <= i < zeros ==> s[i] == '1'
      decreases |s| - zeros
    {
      zeros := zeros + 1;
    }
    LeadingOnesIs(s, zeros);
    OneIsZero();
    OnesAreZero(s[..zeros]);
    var b256 := new Byte[Capacity(|s|)](_ => 0);
    assert b256[..] == Zeros(b256.Length);
    ZeroValue(b256.Length, 256);
    var error := Accumulate(s, zeros, b256);
    if error.Err? {
      return Err(error.error);
    }
    var first := 0;
    while first < b256.Length && b256[first] == 0
      invariant first <= b256.Length && b256[..first] == Zeros(first)
    {
      first := first + 1;
    }
    Stripped(b256[..], first);
    assert b256[first..] == b256[..][first..];
    r := Ok(seq<Byte>(zeros, _ => 0) + b256[first..]);
    assert seq<Byte>(zeros, _ => 0) == Zeros(zeros);
  }

  lemma Stripped(b: seq<Byte>, first: nat)
    requires first <= |b| && b[..first] == Zeros(first) && (first < |b| ==> b[first] != 0)
    ensures b[first..] == Digits(Value(b, 256), 256)
  {
    assert b == Zeros(first) + b[first..];
    ValueZeros(first, b[first..], 256);
    DigitsUnique(b[first..], 256);
  }

  // ----- decoding inverts the standard encoding -----

  // Leading symbols for zero do not change the value; what follows is minimal.
  lemma SplitZeros(ds: seq<nat>, z: nat, b: nat)
    requires b >= 2 && AreDigits(ds, b) && z <= |ds|
    requires (forall i :: 0 <= i < z ==> ds[i] == 0) && (z < |ds| ==> ds[z] != 0)
    ensures Digits(Value(ds, b), b) == ds[z..]
  {
    assert ds == Zeros(z) + ds[z..];
    ValueZeros(z, ds[z..], b);
    DigitsUnique(ds[z..], b);
  }

  // '1's in front of digits with no leading zero.
  lemma OnesThenDigits(z: nat, ds: seq<nat>)
    requires AreDigits(ds, 58) && (ds != [] ==> ds[0] != 0)
    ensures var s := Ones(z) + Spell(ds);
            InAlphabet(s) && LeadingOnes(s) == z && DigitsOf(s) == Zeros(z) + ds
  {
    OneIsZero();
    ReadSpelled(ds);
    DigitsConcat(Ones(z), Spell(ds));
    assert DigitsOf(Ones(z)) == Zeros(z);
    if ds != [] {
      assert DigitOf(Spell(ds)[0]) == DigitsOf(Spell(ds))[0];
    }
    LeadingOnesIs(Ones(z) + Spell(ds), z);
  }

  /** Decoding an encoded byte string gives it back. */
  lemma DecodeEncode(b: seq<Byte>)
    ensures InAlphabet(Encode(b)) && Decoded(Encode(b)) == b
  {
    var z, v := LeadingZeros(b), Value(b, 256);
    SplitZeros(b, z, 256);
    DigitsSpell(v, 58);
    var ds := Digits(v, 58);
    OnesThenDigits(z, ds);
    ValueZeros(z, ds, 58);
    assert Decoded(Encode(b)) == Zeros(z) + Digits(v, 256);
    ZerosInFront(b, z);
  }

  lemma ZerosInFront(b: seq<nat>, z: nat)
    requires z <= |b| && forall i :: 0 <= i < z ==> b[i] == 0
    ensures b == Zeros(z) + b[z..]
  {}

  function AsBytes(ds: seq<nat>): (b: seq<Byte>)
    requires AreDigits(ds, 256)
    ensures b == ds
  {
    seq<Byte>(|ds|, i requires 0 <= i < |ds| => ds[i])
  }

  lemma LeadingZerosIs(b: seq<Byte>, z: nat)
    requires z <= |b| && (forall i :: 0 <= i < z ==> b[i] == 0) && (z < |b| ==> b[z] != 0)
    ensures LeadingZeros(b) == z
  {}

  lemma DecodedBytes(s: string)
    requires InAlphabet(s)
    ensures AreDigits(Decoded(s), 256) && LeadingZeros(AsBytes(Decoded(s))) == LeadingOnes(s)
    ensures Value(Decoded(s), 256) == Value(DigitsOf(s), 58)
  {
    var v, z := Value(DigitsOf(s), 58), LeadingOnes(s);
    DigitsSpell(v, 256);
    ValueZeros(z, Digits(v, 256), 256);
    LeadingZerosIs(AsBytes(Decoded(s)), z);
  }

  /** Encoding what a string decodes to gives the string back, so no two strings decode alike. */
  lemma EncodeDecode(s: string)
    requires InAlphabet(s)
    ensures AreDigits(Decoded(s), 256) && Encode(AsBytes(Decoded(s))) == s
  {
    DecodedBytes(s);
    SpelledAgain(s);
  }

  // Ones and the digits of the value, spelled, are the string.
  lemma SpelledAgain(s: string)
    requires InAlphabet(s)
    ensures var v := Value(DigitsOf(s), 58);
            AreDigits(Digits(v, 58), 58) && Ones(LeadingOnes(s)) + Spell(Digits(v, 58)) == s
  {
    var ds, z := DigitsOf(s), LeadingOnes(s);
    NotOne(s, z);
    SplitZeros(ds, z, 58);
    RestSpelled(s, z);
    OnesInFront(s, z);
  }

  lemma RestSpelled(s: string, z: nat)
    requires InAlphabet(s) && z <= |s|
    ensures AreDigits(DigitsOf(s)[z..], 58) && Spell(DigitsOf(s)[z..]) == s[z..]
  {
    SpellRead(s[z..]);
    assert DigitsOf(s[z..]) == DigitsOf(s)[z..];
  }

  lemma OnesInFront(s: string, z: nat)
    requires z <= |s| && forall i :: 0 <= i < z ==> s[i] == '1'
    ensures Ones(z) + s[z..] == s
  {
    assert Ones(z) == s[..z];
  }

  lemma NotOne(s: string, z: nat)
    requires InAlphabet(s) && z == LeadingOnes(s)
    ensures forall i :: 0 <= i < z ==> DigitsOf(s)[i] == 0
    ensures z < |s| ==> DigitsOf(s)[z] != 0
  {
    OneIsZero();
    if z < |s| {
      DigitOfAlphabet(s[z], 0);
      DigitOfAlphabet('1', 0);
    }
  }
}
