/** address.cpp: CashAddr strings.  Decoding accepts exactly the strings the encoder below writes (payload in
    one letter case, prefix optional when it is bitcoincash) and gives back what was encoded.  That encoder frames
    any five-bit type; IsStandard says which of them the CashAddr specification writes. */
module CashAddr {
  import opened AddressResult
  import opened Bits
  import opened Charset
  import opened Checksum
  import opened ConvertBits

  datatype Cash = Cash(prefix: string, kind: nat, hash: seq<nat>)

  // ----- prefix and payload -----

  function FirstColon(s: string, i: nat): (p: nat)
    requires i <= |s|
    ensures i <= p <= |s| && (p < |s| ==> s[p] == ':')
    ensures forall k :: i <= k < p ==> s[k] != ':'
    decreases |s| - i
  {
    if i == |s| || s[i] == ':' then i else FirstColon(s, i + 1)
  }

  function PrefixOf(s: string): string {
    var p := FirstColon(s, 0);
    if p < |s| then s[..p] else "bitcoincash"
  }

  function PayloadOf(s: string): string {
    var p := FirstColon(s, 0);
    if p < |s| then s[p + 1..] else s
  }

  // The low bits of every character, then a zero.
  function Expand(prefix: string): (vs: seq<nat>)
    ensures |vs| == |prefix| + 1
  {
    seq<nat>(|prefix|, i requires 0 <= i < |prefix| => Keep(prefix[i] as int, 5)) + [0]
  }

  lemma ExpandFits(prefix: string)
    ensures Fit(Expand(prefix), 5)
  {
    var vs := Expand(prefix);
    FiveBits(0);
    forall i | 0 <= i < |vs|
      ensures Shr(vs[i], 5) == 0
    {
      if i < |prefix| {
        ShrClears(prefix[i] as int, 5, 5);
      }
    }
  }

  method ExpandPrefix(prefix: string) returns (out: seq<nat>)
    ensures out == Expand(prefix)
  {
    out := [];
    for i := 0 to |prefix|
      invariant out == Expand(prefix)[..i]
    {
      AndMask(prefix[i] as int, 5);
      LowMasks();
      out := out + [And(prefix[i] as int, 0x1f)];
    }
    out := out + [0];
  }

  // ----- the version byte -----

  const SIZES := [20, 24, 28, 32, 40, 48, 56, 64]

  function Kind(version: nat): nat {
    Keep(Shr(version, 3), 5)
  }

  function SizeCode(version: nat): (k: nat)
    ensures k < 8
  {
    KeepThree(version);
    Keep(version, 3)
  }

  lemma KeepThree(v: nat)
    ensures Keep(v, 3) == v % 8
  {
    var a, b := v / 2, v / 2 / 2;
    assert Keep(b, 1) == b % 2;
    assert Keep(a, 2) == 2 * (b % 2) + a % 2;
    assert Keep(v, 3) == 4 * (b % 2) + 2 * (a % 2) + v % 2;
    assert v == 8 * (b / 2) + (4 * (b % 2) + 2 * (a % 2) + v % 2);
  }

  lemma VersionParts(version: nat)
    requires Shr(version, 8) == 0
    ensures version == 8 * Kind(version) + SizeCode(version)
  {
    ShrShr(version, 3, 5);
    KeepFitting(Shr(version, 3), 5);
    KeepThree(version);
    ShiftedBits(version);
  }

  lemma VersionOfParts(kind: nat, code: nat)
    requires kind < 32 && code < 8
    ensures Shr(8 * kind + code, 8) == 0 && Kind(8 * kind + code) == kind && SizeCode(8 * kind + code) == code
  {
    var v := 8 * kind + code;
    FiveBits(kind);
    KeepFitting(kind, 5);
    KeepThree(v);
    EighthOf(kind, code);
    ShrShr(v, 3, 5);
  }

  lemma EighthOf(kind: nat, code: nat)
    requires code < 8
    ensures Shr(8 * kind + code, 3) == kind && (8 * kind + code) % 8 == code
  {
    ShiftedBits(8 * kind + code);
    assert (8 * kind + code) / 2 / 2 / 2 == (8 * kind + code) / 8;
  }

  // ----- what is decoded -----

  ghost function Unpacked(prefix: string, bytes: seq<nat>): Result<Cash> {
    if bytes == [] then Err(BadLength)
    else if |bytes| - 1 != SIZES[SizeCode(bytes[0])] then Err(BadLength)
    else Ok(Cash(prefix, Kind(bytes[0]), bytes[1..]))
  }

  ghost function Checked(prefix: string, values: seq<nat>): Result<Cash> {
    if |values| < 8 then Err(BadLength)
    else if Run(CASHADDR, 1, Expand(prefix) + values) != 1 then Err(BadChecksum)
    else match Regroup(values[..|values| - 8], 5, 8, false)
      case Err(e) => Err(e)
      case Ok(bytes) => Unpacked(prefix, bytes)
  }

  /** The branches of cashaddr_decode, in order. */
  ghost function Decoded(s: string): Result<Cash> {
    var payload := PayloadOf(s);
    if Mixed(payload) then Err(BadCharacter)
    else if !AllKnown(Lower(payload)) then Err(BadCharacter)
    else Checked(Lower(PrefixOf(s)), Read(Lower(payload)))
  }

  method Unpack(prefix: string, bytes: seq<nat>) returns (result: Result<Cash>)
    ensures result == Unpacked(prefix, bytes)
  {
    if bytes == [] {
      return Err(BadLength);
    }
    var version := bytes[0];
    LowMasks();
    AndMask(Shr(version, 3), 5);
    AndMask(version, 3);
    var kind := And(Shr(version, 3), 0x1f);
    var sizeBits := And(version, 0x07);
    var sizeMap := [160, 192, 224, 256, 320, 384, 448, 512];
    var expected := sizeMap[SizeCode(version)] / 8;
    assert sizeBits == SizeCode(version);
    if |bytes| - 1 != expected {
      return Err(BadLength);
    }
    return Ok(Cash(prefix, kind, bytes[1..]));
  }

  method CashAddrDecode(s: string) returns (result: Result<Cash>)
    ensures result == Decoded(s)
  {
    var colon := FirstColon(s, 0);
    var prefix, payload := "bitcoincash", s;
    if colon < |s| {
      prefix, payload := s[..colon], s[colon + 1..];
    }
    var mixed := IsMixed(payload);
    if mixed {
      return Err(BadCharacter);
    }
    prefix := ToLower(prefix);
    var lower := ToLower(payload);
    var known, values := ReadSymbols(lower);
    if !known {
      return Err(BadCharacter);
    }
    ReadFits(lower);
    result := CheckAndUnpack(prefix, values);
  }

  method CheckAndUnpack(prefix: string, values: seq<nat>) returns (result: Result<Cash>)
    requires Fit(values, 5)
    ensures result == Checked(prefix, values)
  {
    if |values| < 8 {
      return Err(BadLength);
    }
    var expand := ExpandPrefix(prefix);
    ExpandFits(prefix);
    FitConcat(expand, values);
    var polymod := CashAddrPolymod(expand + values);
    if polymod != 0 {
      return Err(BadChecksum);
    }
    var bytes := ConvertBits.ConvertBits(values[..|values| - 8], 5, 8, false);
    if bytes.Err? {
      return Err(bytes.error);
    }
    result := Unpack(prefix, bytes.value);
  }

  // ----- the encoder -----

  // The size codes: the CashAddr specification admits eight hash lengths.
  function CodeOf(size: nat): int {
    if size == 20 then 0 else if size == 24 then 1 else if size == 28 then 2 else if size == 32 then 3
    else if size == 40 then 4 else if size == 48 then 5 else if size == 56 then 6 else if size == 64 then 7 else -1
  }

  // What the version byte can frame: any five-bit type, the reserved top bit included.
  ghost predicate IsCash(cash: Cash) {
    cash.kind < 32 && Fit(cash.hash, 8) && CodeOf(|cash.hash|) >= 0
  }

  // What the specification writes: the top bit of the version byte is zero, type 0 is a key hash, type 1 a script
  // hash, and no other type is assigned.
  ghost predicate IsStandard(cash: Cash) {
    IsCash(cash) && cash.kind <= 1
  }

  function Packed(cash: Cash): seq<nat>
    requires CodeOf(|cash.hash|) >= 0
  {
    [8 * cash.kind + CodeOf(|cash.hash|)] + cash.hash
  }

  ghost function DataOf(cash: Cash): seq<nat>
    requires IsCash(cash)
  {
    PackedFits(cash);
    Regroup(Packed(cash), 8, 5, true).value
  }

  lemma PackedFits(cash: Cash)
    requires IsCash(cash)
    ensures Fit(Packed(cash), 8) && Unpacked(cash.prefix, Packed(cash)) == Ok(cash)
    ensures Regroup(Packed(cash), 8, 5, true).Ok?
  {
    VersionOfParts(cash.kind, CodeOf(|cash.hash|));
    var bytes := Packed(cash);
    assert bytes[1..] == cash.hash;
  }

  function SumOf(prefix: string, data: seq<nat>): (t: seq<nat>)
    ensures |t| == 8
  {
    Sum(CASHADDR, Expand(prefix), data, 1)
  }

  lemma States()
    ensures Good(CASHADDR) && IsState(CASHADDR, 1)
  {
    CashAddrGood();
    Fits40(1);
  }

  lemma PayloadFits(cash: Cash)
    requires IsCash(cash)
    ensures Fit(DataOf(cash), 5) && Fit(SumOf(cash.prefix, DataOf(cash)), 5)
    ensures Fit(DataOf(cash) + SumOf(cash.prefix, DataOf(cash)), 5)
  {
    PackedFits(cash);
    States();
    RegroupFits(Packed(cash), 8, 5, true);
    SumFits(CASHADDR, Expand(cash.prefix), DataOf(cash), 1);
    FitConcat(DataOf(cash), SumOf(cash.prefix, DataOf(cash)));
  }

  ghost function Encoded(cash: Cash): string
    requires IsCash(cash)
  {
    PayloadFits(cash);
    Spell(DataOf(cash) + SumOf(cash.prefix, DataOf(cash)))
  }

  // ----- decoding is the inverse of encoding -----

  lemma SumReaches(prefix: string, data: seq<nat>, t: seq<nat>)
    requires |t| == 8 && Fit(t, 5)
    ensures Run(CASHADDR, 1, Expand(prefix) + (data + t)) == 1 <==> t == SumOf(prefix, data)
  {
    States();
    Checksum.SumReaches(CASHADDR, Expand(prefix), data, 1, t);
  }

  lemma EncodedChecks(cash: Cash)
    requires IsCash(cash)
    ensures Checked(cash.prefix, DataOf(cash) + SumOf(cash.prefix, DataOf(cash))) == Ok(cash)
  {
    PayloadFits(cash);
    PackedFits(cash);
    var data := DataOf(cash);
    SumReaches(cash.prefix, data, SumOf(cash.prefix, data));
    WidenNarrow(Packed(cash), 8, 5);
    ReachingUnpacks(cash.prefix, data, SumOf(cash.prefix, data));
  }

  lemma ReachingUnpacks(prefix: string, data: seq<nat>, t: seq<nat>)
    requires |t| == 8 && Run(CASHADDR, 1, Expand(prefix) + (data + t)) == 1 && Regroup(data, 5, 8, false).Ok?
    ensures Checked(prefix, data + t) == Unpacked(prefix, Regroup(data, 5, 8, false).value)
  {
    var values := data + t;
    assert values[..|values| - 8] == data;
  }

  lemma UnpackedPacks(prefix: string, bytes: seq<nat>)
    requires Fit(bytes, 8) && Unpacked(prefix, bytes).Ok?
    ensures IsCash(Unpacked(prefix, bytes).value) && Packed(Unpacked(prefix, bytes).value) == bytes
  {
    var cash := Unpacked(prefix, bytes).value;
    VersionParts(bytes[0]);
    ShrClears(Shr(bytes[0], 3), 5, 5);
    FiveBits(Kind(bytes[0]));
    assert CodeOf(SIZES[SizeCode(bytes[0])]) == SizeCode(bytes[0]);
    assert Fit(bytes[1..], 8);
    assert bytes == [bytes[0]] + bytes[1..];
  }

  lemma CheckedWasEncoded(prefix: string, values: seq<nat>)
    requires Fit(values, 5) && Checked(prefix, values).Ok?
    ensures var cash := Checked(prefix, values).value;
            IsCash(cash) && cash.prefix == prefix && values == DataOf(cash) + SumOf(prefix, DataOf(cash))
  {
    var data, t := values[..|values| - 8], values[|values| - 8..];
    assert values == data + t;
    SumReaches(prefix, data, t);
    var bytes := Regroup(data, 5, 8, false).value;
    RegroupFits(data, 5, 8, false);
    UnpackedPacks(prefix, bytes);
    NarrowWiden(data, 5, 8);
  }

  lemma SpelledPlain(vs: seq<nat>)
    requires Fit(vs, 5)
    ensures AllKnown(Spell(vs)) && forall i :: 0 <= i < |vs| ==> Plain(Spell(vs)[i])
  {
    ReadSpelled(vs);
    forall i | 0 <= i < |vs|
      ensures Plain(Spell(vs)[i])
    {
      KnownIsPlain(Spell(vs)[i]);
    }
  }

  /** A string decodes to a type and hash under a prefix exactly when its payload is their encoding for that prefix,
      in one letter case. */
  lemma DecodesExactly(s: string, cash: Cash)
    ensures Decoded(s) == Ok(cash) <==>
              && IsCash(cash) && Lower(PrefixOf(s)) == cash.prefix
              && !Mixed(PayloadOf(s)) && Lower(PayloadOf(s)) == Encoded(cash)
  {
    var l := Lower(PayloadOf(s));
    if IsCash(cash) && Lower(PrefixOf(s)) == cash.prefix && !Mixed(PayloadOf(s)) && l == Encoded(cash) {
      PayloadFits(cash);
      ReadSpelled(DataOf(cash) + SumOf(cash.prefix, DataOf(cash)));
      EncodedChecks(cash);
    }
    if Decoded(s) == Ok(cash) {
      SpellRead(l);
      CheckedWasEncoded(Lower(PrefixOf(s)), Read(l));
    }
  }

  // The type is the top five bits of the first byte and so the first symbol.
  lemma TypeFirst(cash: Cash)
    requires IsCash(cash)
    ensures DataOf(cash) != [] && DataOf(cash)[0] == cash.kind
  {
    PackedFits(cash);
    var v := Packed(cash)[0];
    var bs := BitString(Packed(cash), 8);
    TopBits(cash.kind, CodeOf(|cash.hash|));
    NumberOfBits(cash.kind, 5);
    FiveBits(cash.kind);
    KeepFitting(cash.kind, 5);
    assert bs == BitsOf(v, 8) + BitString(Packed(cash)[1..], 8);
    assert bs[..5] == BitsOf(v, 8)[..5];
  }

  lemma TopBits(kind: nat, code: nat)
    requires code < 8
    ensures BitsOf(8 * kind + code, 8)[..5] == BitsOf(kind, 5)
  {
    var v := 8 * kind + code;
    var a, b := v / 2, v / 2 / 2;
    assert b / 2 == kind;
    assert BitsOf(v, 8)[..7] == BitsOf(a, 7);
    assert BitsOf(a, 7)[..6] == BitsOf(b, 6);
    assert BitsOf(b, 6)[..5] == BitsOf(kind, 5);
  }

  /** The type of an address shows in the first character of its payload: q for 0, p for 1. */
  lemma TypeShown(s: string, cash: Cash)
    requires Decoded(s) == Ok(cash)
    ensures PayloadOf(s) != "" && cash.kind < |CHARSET| && LowerChar(PayloadOf(s)[0]) == CHARSET[cash.kind]
    ensures LowerChar(PayloadOf(s)[0]) == 'q' <==> cash.kind == 0
    ensures LowerChar(PayloadOf(s)[0]) == 'p' <==> cash.kind == 1
  {
    DecodesExactly(s, cash);
    TypeFirst(cash);
    PayloadFits(cash);
    assert Lower(PayloadOf(s))[0] == CHARSET[cash.kind];
    FirstLetters(cash.kind);
  }

  lemma FirstLetters(k: nat)
    requires k < |CHARSET|
    ensures CHARSET[k] == 'q' <==> k == 0
    ensures CHARSET[k] == 'p' <==> k == 1
  {
    FindIs(CHARSET[k], k);
    FindIs('q', 0);
    FindIs('p', 1);
  }

  lemma FirstColonIs(s: string, p: nat)
    requires p < |s| && s[p] == ':' && forall i :: 0 <= i < p ==> s[i] != ':'
    ensures FirstColon(s, 0) == p
  {
    assert FirstColon(s, 0) <= p;
  }

  /** Writing and reading: with the prefix in front, and without it for bitcoincash. */
  lemma RoundTrip(cash: Cash)
    requires IsCash(cash) && Lower(cash.prefix) == cash.prefix && ':' !in cash.prefix
    ensures Decoded(cash.prefix + ":" + Encoded(cash)) == Ok(cash)
    ensures cash.prefix == "bitcoincash" ==> Decoded(Encoded(cash)) == Ok(cash)
  {
    var e := Encoded(cash);
    EncodedPlain(cash);
    Prefixed(cash.prefix, e);
    DecodesExactly(cash.prefix + ":" + e, cash);
    if cash.prefix == "bitcoincash" {
      DecodesExactly(e, cash);
    }
  }

  // An encoding has no capitals and no colon.
  lemma EncodedPlain(cash: Cash)
    requires IsCash(cash)
    ensures var e := Encoded(cash);
            !Mixed(e) && Lower(e) == e && FirstColon(e, 0) == |e|
  {
    PayloadFits(cash);
    SpelledPlain(DataOf(cash) + SumOf(cash.prefix, DataOf(cash)));
    PlainIsLower(Encoded(cash));
  }

  lemma Prefixed(prefix: string, e: string)
    requires ':' !in prefix
    ensures PrefixOf(prefix + ":" + e) == prefix && PayloadOf(prefix + ":" + e) == e
  {
    var s := prefix + ":" + e;
    FirstColonIs(s, |prefix|);
    assert s[..|prefix|] == prefix && s[|prefix| + 1..] == e;
  }
}
