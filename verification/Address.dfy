/** address.cpp: decode tries CashAddr, then Bech32 under eight prefixes, then Base58Check, and
    script_pubkey_hex writes the output script.  Trying them in turn accepts every string that one of the three
    standard encoders writes, with its meaning: no decoder shadows another, and the length limit excludes none.
    Beyond them it accepts exactly the CashAddr strings of a type that the standard does not assign, and reads
    these as script hashes. */
module Address {
  import opened AddressResult
  import opened Bits
  import opened Options
  import opened Powers
  import Base58
  import Bech32
  import CashAddr
  import Charset
  import ConvertBits
  import Sequences

  datatype Network = BitcoinMainnet | BitcoinTestnet | BitcoinRegtest | BchMainnet | BchTestnet | BchRegtest
  datatype Kind = P2PKH | P2SH | P2WPKH | P2WSH | P2TR | BchP2PKH | BchP2SH

  datatype Decoded = Decoded(kind: Kind, network: Network, program: seq<nat>)

  // The first four bytes of the double SHA-256.
  type Check = seq<nat> -> seq<nat>

  ghost predicate IsCheck(check: Check) {
    forall x :: |check(x)| == 4 && AreDigits(check(x), 256)
  }

  const MAX_LENGTH := 128

  const HRPS := [("bc", BitcoinMainnet), ("tb", BitcoinTestnet), ("bcrt", BitcoinRegtest), ("ltc", BitcoinMainnet),
                 ("tltc", BitcoinTestnet), ("dgb", BitcoinMainnet), ("dgbt", BitcoinTestnet), ("tdgb", BitcoinTestnet)]

  // ----- CashAddr -----

  function CashNetwork(prefix: string): Option<Network> {
    if prefix == "bitcoincash" || prefix == "ecash" || prefix == "bitcoincashii" then Some(BchMainnet)
    else if prefix == "bchtest" || prefix == "ectest" then Some(BchTestnet)
    else if prefix == "bchreg" || prefix == "ecreg" then Some(BchRegtest)
    else None
  }

  function FromCash(cash: CashAddr.Cash): Result<Decoded> {
    match CashNetwork(cash.prefix)
    case None => Err(UnsupportedNetwork)
    case Some(network) => Ok(Decoded(if cash.kind == 0 then BchP2PKH else BchP2SH, network, cash.hash))
  }

  predicate HasColon(addr: string) {
    CashAddr.FirstColon(addr, 0) < |addr|
  }

  predicate StartsAsCash(addr: string) {
    addr != ""
    && (Charset.LowerChar(addr[0]) == 'q' || Charset.LowerChar(addr[0]) == 'p' || Charset.LowerChar(addr[0]) == 'r')
  }

  // ----- Bech32 -----

  function SegwitKind(info: Bech32.SegwitInfo): Option<Kind> {
    if info.version == 0 && |info.program| == 20 then Some(P2WPKH)
    else if info.version == 0 && |info.program| == 32 then Some(P2WSH)
    else if info.version == 1 && |info.program| == 32 then Some(P2TR)
    else None
  }

  // The quick look before an address is decoded under a prefix.
  predicate LooksLike(addr: string, hrp: string)
    requires |hrp| >= 2
  {
    && |addr| > |hrp| + 1
    && Charset.LowerChar(addr[0]) == hrp[0] && Charset.LowerChar(addr[1]) == hrp[1]
    && (addr[|hrp|] == '1' || (|hrp| >= 3 && Charset.LowerChar(addr[2]) == hrp[2]))
  }

  ghost function Tried(addr: string, hrp: string, network: Network): Option<Decoded>
    requires |hrp| >= 2
  {
    if !LooksLike(addr, hrp) then None
    else match Bech32.SegwitDecoded(hrp, addr)
      case Err(_) => None
      case Ok(info) =>
        if SegwitKind(info).Some? then Some(Decoded(SegwitKind(info).value, network, info.program)) else None
  }

  // The first prefix from the i-th on under which the address decodes.
  ghost function FirstTried(addr: string, i: nat): Option<Decoded>
    requires i <= |HRPS|
    decreases |HRPS| - i
  {
    if i == |HRPS| then None
    else
      var d := Tried(addr, HRPS[i].0, HRPS[i].1);
      if d.Some? then d else FirstTried(addr, i + 1)
  }

  // ----- Base58Check -----

  // Zcash has two version bytes, everything else one.
  function Version(v: seq<nat>): Option<(Kind, Network)> {
    if |v| == 2 then
      if v == [0x1c, 0xb8] then Some((P2PKH, BitcoinMainnet))
      else if v == [0x1c, 0xbd] then Some((P2SH, BitcoinMainnet))
      else if v == [0x1d, 0x25] then Some((P2PKH, BitcoinTestnet))
      else if v == [0x1c, 0xba] then Some((P2SH, BitcoinTestnet))
      else None
    else if |v| == 1 then
      if v[0] == 0x00 || v[0] == 0x30 || v[0] == 0x1e then Some((P2PKH, BitcoinMainnet))
      else if v[0] == 0x05 || v[0] == 0x32 || v[0] == 0x16 || v[0] == 0x3f then Some((P2SH, BitcoinMainnet))
      else if v[0] == 0x6f || v[0] == 0x71 || v[0] == 0x7e then Some((P2PKH, BitcoinTestnet))
      else if v[0] == 0xc4 || v[0] == 0x3a || v[0] == 0x8c then Some((P2SH, BitcoinTestnet))
      else None
    else None
  }

  function FromRaw(check: Check, raw: seq<nat>): Result<Decoded> {
    if |raw| < 5 then Err(BadLength)
    else if check(raw[..|raw| - 4]) != raw[|raw| - 4..] then Err(BadChecksum)
    else
      var n := if |raw| == 26 then 2 else 1;
      if |raw| - 4 - n != 20 then Err(BadLength)
      else if Version(raw[..n]).None? then Err(UnsupportedVersion)
      else Ok(Decoded(Version(raw[..n]).value.0, Version(raw[..n]).value.1, raw[n..|raw| - 4]))
  }

  ghost function FromBase58(check: Check, addr: string): Result<Decoded> {
    if Base58.InAlphabet(addr) then FromRaw(check, Base58.Decoded(addr)) else Err(UnknownPrefix)
  }

  // ----- the dispatcher -----

  /** The branches of decode_impl, in order. */
  ghost function Decode(check: Check, addr: string): Result<Decoded> {
    var cash := CashAddr.Decoded(addr);
    if addr == "" then Err(Empty)
    else if |addr| > MAX_LENGTH then Err(BadLength)
    else if (HasColon(addr) || StartsAsCash(addr)) && cash.Ok? then FromCash(cash.value)
    else if HasColon(addr) then Err(cash.error)
    else if FirstTried(addr, 0).Some? then Ok(FirstTried(addr, 0).value)
    else FromBase58(check, addr)
  }

  // ----- the three standard encoders -----

  ghost predicate IsCashAddress(addr: string, d: Decoded, cash: CashAddr.Cash) {
    && CashAddr.IsStandard(cash) && Charset.Lower(CashAddr.PrefixOf(addr)) == cash.prefix
    && !Charset.Mixed(CashAddr.PayloadOf(addr)) && Charset.Lower(CashAddr.PayloadOf(addr)) == CashAddr.Encoded(cash)
    && CashNetwork(cash.prefix) == Some(d.network)
    && d == Decoded(if cash.kind == 0 then BchP2PKH else BchP2SH, d.network, cash.hash)
  }

  ghost predicate IsSegwitAddress(addr: string, d: Decoded, i: nat, info: Bech32.SegwitInfo) {
    && i < |HRPS| && Bech32.IsProgram(info) && d == Decoded(d.kind, HRPS[i].1, info.program)
    && SegwitKind(info) == Some(d.kind) && !Charset.Mixed(addr)
    && (Bech32.SegwitTextIs(info); Charset.Lower(addr) == Bech32.Encoded(HRPS[i].0, Bech32.SegwitText(info)))
  }

  // Version, program and check bytes.
  function Payload(check: Check, v: seq<nat>, program: seq<nat>): seq<nat> {
    v + program + check(v + program)
  }

  ghost predicate IsBase58Address(check: Check, addr: string, d: Decoded, v: seq<nat>) {
    && Version(v) == Some((d.kind, d.network)) && |d.program| == 20
    && AreDigits(Payload(check, v, d.program), 256)
    && addr == Base58.Encode(Base58.AsBytes(Payload(check, v, d.program)))
  }

  ghost predicate IsAddress(check: Check, addr: string, d: Decoded) {
    || (exists cash :: IsCashAddress(addr, d, cash))
    || (exists i, info :: IsSegwitAddress(addr, d, i, info))
    || (exists v :: IsBase58Address(check, addr, d, v))
  }

  // ----- what is accepted: the same with CashAddr strings of any type -----

  ghost predicate IsCashString(addr: string, d: Decoded, cash: CashAddr.Cash) {
    && CashAddr.IsCash(cash) && Charset.Lower(CashAddr.PrefixOf(addr)) == cash.prefix
    && !Charset.Mixed(CashAddr.PayloadOf(addr)) && Charset.Lower(CashAddr.PayloadOf(addr)) == CashAddr.Encoded(cash)
    && FromCash(cash) == Ok(d) && (HasColon(addr) || StartsAsCash(addr))
  }

  ghost predicate Accepted(check: Check, addr: string, d: Decoded) {
    || (exists cash :: IsCashString(addr, d, cash))
    || (exists i, info :: IsSegwitAddress(addr, d, i, info))
    || (exists v :: IsBase58Address(check, addr, d, v))
  }

  // A CashAddr of a type that the standard does not assign, read as a script hash.
  ghost predicate Misread(addr: string, d: Decoded) {
    exists cash :: IsCashString(addr, d, cash) && cash.kind > 1
  }

  // ----- how long addresses are -----

  // Eight-bit symbols regrouped into five-bit ones with padding.
  lemma WidenedLength(vs: seq<nat>)
    requires Fit(vs, 8)
    ensures var out := ConvertBits.Regroup(vs, 8, 5, true);
            out.Ok? && 8 * |vs| <= 5 * |out.value| < 8 * |vs| + 5
  {
    var bs := ConvertBits.BitString(vs, 8);
    var z := ConvertBits.SpelledPadded(bs, 5);
    ConvertBits.SpelledLength(vs, 8);
    ConvertBits.SpelledLength(ConvertBits.Regroup(vs, 8, 5, true).value, 5);
  }

  lemma HashLengths(cash: CashAddr.Cash)
    requires CashAddr.IsCash(cash)
    ensures 20 <= |cash.hash| <= 64
  {}

  lemma EncodedCashLength(cash: CashAddr.Cash)
    requires CashAddr.IsCash(cash)
    ensures 42 <= |CashAddr.Encoded(cash)| <= 112
  {
    HashLengths(cash);
    CashAddr.PackedFits(cash);
    WidenedLength(CashAddr.Packed(cash));
    CashAddr.PayloadFits(cash);
    assert |CashAddr.Packed(cash)| == 1 + |cash.hash|;
    assert |CashAddr.Encoded(cash)| == |CashAddr.DataOf(cash)| + 8;
  }

  lemma KnownPrefixShort(cash: CashAddr.Cash)
    requires FromCash(cash).Ok?
    ensures |cash.prefix| <= 13
  {}

  lemma PartLengths(addr: string)
    ensures |CashAddr.PayloadOf(addr)| <= |addr| <= |CashAddr.PrefixOf(addr)| + 1 + |CashAddr.PayloadOf(addr)|
  {}

  lemma CashLength(addr: string, d: Decoded, cash: CashAddr.Cash)
    requires IsCashString(addr, d, cash)
    ensures 42 <= |CashAddr.PayloadOf(addr)| <= |addr| <= 126
  {
    EncodedCashLength(cash);
    KnownPrefixShort(cash);
    PartLengths(addr);
    assert |Charset.Lower(CashAddr.PayloadOf(addr))| == |CashAddr.PayloadOf(addr)|;
    assert |Charset.Lower(CashAddr.PrefixOf(addr))| == |CashAddr.PrefixOf(addr)|;
  }

  lemma HrpLength(i: nat)
    requires i < |HRPS|
    ensures 2 <= |HRPS[i].0| <= 4
  {}

  lemma EncodedLength(hrp: string, info: Bech32.SegwitInfo)
    requires Bech32.IsProgram(info)
    ensures Bech32.IsText(Bech32.SegwitText(info))
    ensures var n := |Bech32.Encoded(hrp, Bech32.SegwitText(info))| - |hrp| - 8;
            8 * |info.program| <= 5 * n < 8 * |info.program| + 5
  {
    WidenedLength(info.program);
    Bech32.SegwitTextIs(info);
    Bech32.SumOfFits(hrp, Bech32.SegwitText(info));
  }

  lemma SegwitLength(addr: string, d: Decoded, i: nat, info: Bech32.SegwitInfo)
    requires IsSegwitAddress(addr, d, i, info)
    ensures 42 <= |addr| <= 64
  {
    HrpLength(i);
    EncodedLength(HRPS[i].0, info);
    assert |Charset.Lower(addr)| == |addr|;
  }

  // A number with so many digits is at least a power of the base.
  lemma {:induction false} DigitsLength(v: nat, b: nat)
    requires b >= 2 && v > 0
    ensures Digits(v, b) != [] && Pow(b, |Digits(v, b)| - 1) <= v
  {
    DivMod(v, b);
    if v / b > 0 {
      Smaller(v, b);
      DigitsLength(v / b, b);
      MulMono(Pow(b, |Digits(v / b, b)| - 1), v / b, b);
    }
  }

  // 58^3 > 256^2, so two bytes take at most three digits.
  lemma ThreeForTwo(n: nat, k: nat)
    requires 2 * k >= 3 * n + 2
    ensures Pow(256, n) < Pow(58, k)
  {
    var m := (n + 1) / 2;
    assert Pow(256, 2) == 65536 && Pow(58, 3) == 195112;
    PowPow(256, 2, m);
    PowPow(58, 3, m);
    PowMonoBase(65536, 195112, m);
    if n < 2 * m {
      PowGrows(256, n, 2 * m);
    }
    if 3 * m < k {
      PowGrows(58, 3 * m, k);
    }
  }

  // A number of n bytes has few digits.
  lemma FewDigits(v: nat, n: nat)
    requires n <= 26 && 0 < v < Pow(256, n)
    ensures |Digits(v, 58)| <= 15 + n
  {
    DigitsLength(v, 58);
    var k := |Digits(v, 58)| - 1;
    if k >= 15 + n {
      ThreeForTwo(n, k);
    }
  }

  lemma SignificantBytes(b: seq<nat>, z: nat)
    requires z <= |b| && AreDigits(b, 256) && forall i :: 0 <= i < z ==> b[i] == 0
    ensures Value(b, 256) < Pow(256, |b| - z)
  {
    Base58.ZerosInFront(b, z);
    ValueZeros(z, b[z..], 256);
    ValueBound(b[z..], 256);
  }

  lemma Base58Length(b: seq<Byte>)
    requires |b| <= 26
    ensures |Base58.Encode(b)| <= 41
  {
    var z, v := Base58.LeadingZeros(b), Value(b, 256);
    SignificantBytes(b, z);
    DigitsSpell(v, 58);
    if v > 0 {
      FewDigits(v, |b| - z);
    }
  }

  // ----- CashAddr strings -----

  lemma CashAccepted(check: Check, addr: string, d: Decoded, cash: CashAddr.Cash)
    requires IsCashString(addr, d, cash) && 0 < |addr| <= MAX_LENGTH
    ensures Decode(check, addr) == Ok(d)
  {
    CashAddr.DecodesExactly(addr, cash);
  }

  lemma CashWas(addr: string, d: Decoded)
    requires HasColon(addr) || StartsAsCash(addr)
    requires CashAddr.Decoded(addr).Ok? && FromCash(CashAddr.Decoded(addr).value) == Ok(d)
    ensures IsCashString(addr, d, CashAddr.Decoded(addr).value)
  {
    CashAddr.DecodesExactly(addr, CashAddr.Decoded(addr).value);
  }

  // ----- Bech32 strings -----

  lemma HrpLetters(i: nat)
    requires i < |HRPS|
    ensures var h := HRPS[i].0;
            (h[0] == 'b' || h[0] == 't' || h[0] == 'l' || h[0] == 'd') && forall k :: 0 <= k < |h| ==> h[k] != ':'
  {}

  lemma HrpsDiffer(i: nat, j: nat)
    requires i < |HRPS| && j < |HRPS| && HRPS[i].0 == HRPS[j].0
    ensures i == j
  {
    var h := HRPS[i].0;
    assert h == "bc" ==> i == 0 == j;
    assert h == "tb" ==> i == 1 == j;
    assert h == "bcrt" ==> i == 2 == j;
  }

  // An address of prefix i in lower case: prefix, separator, alphabet.
  lemma SegwitShape(addr: string, d: Decoded, i: nat, info: Bech32.SegwitInfo) returns (rest: string)
    requires IsSegwitAddress(addr, d, i, info)
    ensures Charset.Lower(addr) == HRPS[i].0 + "1" + rest && Charset.AllKnown(rest)
  {
    var hrp, text := HRPS[i].0, Bech32.SegwitText(info);
    Bech32.SegwitTextIs(info);
    Bech32.SpelledWhole(hrp, text);
    rest := Charset.Spell(text.data + Bech32.SumOf(hrp, text));
    Charset.ReadSpelled(text.data + Bech32.SumOf(hrp, text));
  }

  lemma NoColonIn(addr: string, hrp: string, rest: string)
    requires Charset.Lower(addr) == hrp + "1" + rest && Charset.AllKnown(rest)
    requires forall k :: 0 <= k < |hrp| ==> hrp[k] != ':'
    ensures !HasColon(addr)
  {
    var l := Charset.Lower(addr);
    forall k | 0 <= k < |addr|
      ensures l[k] != ':'
    {
      if k > |hrp| {
        Charset.KnownIsPlain(rest[k - |hrp| - 1]);
      }
    }
  }

  lemma LooksRight(addr: string, hrp: string, rest: string)
    requires |hrp| >= 2 && rest != "" && Charset.Lower(addr) == hrp + "1" + rest
    ensures LooksLike(addr, hrp)
  {
    var l := Charset.Lower(addr);
    assert l[0] == hrp[0] && l[1] == hrp[1] && l[|hrp|] == '1';
  }

  lemma SegwitTried(addr: string, d: Decoded, i: nat, info: Bech32.SegwitInfo)
    requires IsSegwitAddress(addr, d, i, info)
    ensures |HRPS[i].0| >= 2 && Tried(addr, HRPS[i].0, HRPS[i].1) == Some(d)
    ensures !HasColon(addr) && !StartsAsCash(addr)
  {
    HrpLength(i);
    HrpLetters(i);
    SegwitLength(addr, d, i, info);
    var rest := SegwitShape(addr, d, i, info);
    NoColonIn(addr, HRPS[i].0, rest);
    LooksRight(addr, HRPS[i].0, rest);
    assert Charset.Lower(addr)[0] == HRPS[i].0[0];
    Bech32.SegwitDecodesExactly(HRPS[i].0, addr, info);
  }

  lemma TriedWas(addr: string, i: nat) returns (info: Bech32.SegwitInfo)
    requires i < |HRPS| && |HRPS[i].0| >= 2 && Tried(addr, HRPS[i].0, HRPS[i].1).Some?
    ensures IsSegwitAddress(addr, Tried(addr, HRPS[i].0, HRPS[i].1).value, i, info)
  {
    info := Bech32.SegwitDecoded(HRPS[i].0, addr).value;
    Bech32.SegwitDecodesExactly(HRPS[i].0, addr, info);
  }

  // An address has one prefix.
  lemma OneHrp(addr: string, d: Decoded, i: nat, info: Bech32.SegwitInfo, e: Decoded, j: nat, other: Bech32.SegwitInfo)
    requires IsSegwitAddress(addr, d, i, info) && IsSegwitAddress(addr, e, j, other)
    ensures i == j
  {
    var rest := SegwitShape(addr, d, i, info);
    var tail := SegwitShape(addr, e, j, other);
    Bech32.Separated(HRPS[i].0, rest);
    Bech32.Separated(HRPS[j].0, tail);
    HrpsDiffer(i, j);
  }

  lemma TriedFirst(addr: string, i: nat)
    requires i < |HRPS|
    ensures |HRPS[i].0| >= 2
    ensures var d := Tried(addr, HRPS[i].0, HRPS[i].1);
            FirstTried(addr, i) == if d.Some? then d else FirstTried(addr, i + 1)
  {
    HrpLength(i);
  }

  lemma {:induction false} FirstTriedWas(addr: string, i: nat) returns (j: nat, info: Bech32.SegwitInfo)
    requires i <= |HRPS| && FirstTried(addr, i).Some?
    ensures IsSegwitAddress(addr, FirstTried(addr, i).value, j, info)
    decreases |HRPS| - i
  {
    TriedFirst(addr, i);
    if Tried(addr, HRPS[i].0, HRPS[i].1).Some? {
      j := i;
      info := TriedWas(addr, i);
    } else {
      j, info := FirstTriedWas(addr, i + 1);
    }
  }

  lemma FirstTriedFinds(addr: string, i: nat, d: Decoded, j: nat, info: Bech32.SegwitInfo)
    requires i <= j < |HRPS| && IsSegwitAddress(addr, d, j, info)
    ensures FirstTried(addr, i) == Some(d)
  {
    HrpsLong();
    SegwitTried(addr, d, j, info);
    NoneBefore(addr, i, d, j, info);
    FirstIs(addr, i, j);
  }

  lemma NoneBefore(addr: string, i: nat, d: Decoded, j: nat, info: Bech32.SegwitInfo)
    requires j < |HRPS| && (forall k :: 0 <= k < |HRPS| ==> |HRPS[k].0| >= 2) && IsSegwitAddress(addr, d, j, info)
    ensures forall k :: i <= k < j ==> Tried(addr, HRPS[k].0, HRPS[k].1).None?
  {
    forall k | i <= k < j
      ensures Tried(addr, HRPS[k].0, HRPS[k].1).None?
    {
      NoneEarlier(addr, k, d, j, info);
    }
  }

  lemma HrpsLong()
    ensures forall i :: 0 <= i < |HRPS| ==> |HRPS[i].0| >= 2
  {}

  lemma {:induction false} FirstIs(addr: string, i: nat, j: nat)
    requires i <= j < |HRPS| && forall k :: i <= k <= j ==> |HRPS[k].0| >= 2
    requires forall k :: i <= k < j ==> Tried(addr, HRPS[k].0, HRPS[k].1).None?
    requires Tried(addr, HRPS[j].0, HRPS[j].1).Some?
    ensures FirstTried(addr, i) == Tried(addr, HRPS[j].0, HRPS[j].1)
    decreases j - i
  {
    if i < j {
      FirstIs(addr, i + 1, j);
    }
  }

  lemma NoneEarlier(addr: string, i: nat, d: Decoded, j: nat, info: Bech32.SegwitInfo)
    requires i < j < |HRPS| && |HRPS[i].0| >= 2 && IsSegwitAddress(addr, d, j, info)
    ensures Tried(addr, HRPS[i].0, HRPS[i].1).None?
  {
    if Tried(addr, HRPS[i].0, HRPS[i].1).Some? {
      var other := TriedWas(addr, i);
      OneHrp(addr, d, j, info, Tried(addr, HRPS[i].0, HRPS[i].1).value, i, other);
    }
  }

  // ----- Base58 strings -----

  lemma AlphabetNoColon(addr: string)
    requires Base58.InAlphabet(addr)
    ensures !HasColon(addr)
  {
    var p := CashAddr.FirstColon(addr, 0);
    if p < |addr| {
      var k := Base58.DigitOf(addr[p]);
      Base58.DigitOfAlphabet(addr[p], k);
      Base58.Runs();
    }
  }

  lemma PayloadParts(check: Check, v: seq<nat>, program: seq<nat>)
    requires IsCheck(check) && |program| == 20 && 1 <= |v| <= 2
    ensures var raw := Payload(check, v, program);
            && |raw| == |v| + 24 && raw[..|v|] == v && raw[|v|..|raw| - 4] == program
            && raw[..|raw| - 4] == v + program && raw[|raw| - 4..] == check(v + program)
  {}

  lemma Base58Was(check: Check, addr: string, d: Decoded) returns (v: seq<nat>)
    requires FromBase58(check, addr) == Ok(d)
    ensures IsBase58Address(check, addr, d, v)
  {
    var raw := Base58.Decoded(addr);
    Base58.EncodeDecode(addr);
    v := raw[..if |raw| == 26 then 2 else 1];
    Sequences.ThreeParts(raw, |v|, |raw| - 4);
  }

  lemma Base58Accepted(check: Check, addr: string, d: Decoded, v: seq<nat>)
    requires IsCheck(check) && IsBase58Address(check, addr, d, v)
    ensures FromBase58(check, addr) == Ok(d) && 0 < |addr| <= 41
  {
    var raw := Payload(check, v, d.program);
    PayloadParts(check, v, d.program);
    Base58.DecodeEncode(Base58.AsBytes(raw));
    Base58Length(Base58.AsBytes(raw));
    assert Base58.Decoded(addr) == raw;
    EmptyDecodes(addr);
  }

  lemma EmptyDecodes(addr: string)
    requires Base58.InAlphabet(addr) && Base58.Decoded(addr) != []
    ensures addr != ""
  {}

  // ----- the dispatcher is exact -----

  lemma Sound(check: Check, addr: string, d: Decoded)
    requires Decode(check, addr) == Ok(d)
    ensures Accepted(check, addr, d)
  {
    if (HasColon(addr) || StartsAsCash(addr)) && CashAddr.Decoded(addr).Ok? {
      CashWas(addr, d);
    } else if FirstTried(addr, 0).Some? {
      var j, info := FirstTriedWas(addr, 0);
    } else {
      var v := Base58Was(check, addr, d);
    }
  }

  // Without a prefix the network is known.
  lemma PlainCash(addr: string, cash: CashAddr.Cash)
    requires !HasColon(addr) && Charset.Lower(CashAddr.PrefixOf(addr)) == cash.prefix
    ensures FromCash(cash).Ok?
  {
    var plain := "bitcoincash";
    Charset.PlainIsLower(plain);
    assert CashAddr.PrefixOf(addr) == plain;
    assert cash.prefix == plain;
  }

  // Too short to be a CashAddr or a segwit string.
  lemma TooShortForCash(addr: string)
    requires |addr| <= 41 && StartsAsCash(addr) && !HasColon(addr)
    ensures CashAddr.Decoded(addr).Err?
  {
    if CashAddr.Decoded(addr).Ok? {
      var cash := CashAddr.Decoded(addr).value;
      CashAddr.DecodesExactly(addr, cash);
      PlainCash(addr, cash);
      var d := FromCash(cash).value;
      CashWas(addr, d);
      CashLength(addr, d, cash);
    }
  }

  lemma TooShortForSegwit(addr: string)
    requires |addr| <= 41
    ensures FirstTried(addr, 0).None?
  {
    if FirstTried(addr, 0).Some? {
      var j, info := FirstTriedWas(addr, 0);
      SegwitLength(addr, FirstTried(addr, 0).value, j, info);
    }
  }

  lemma SegwitAccepted(check: Check, addr: string, d: Decoded, i: nat, info: Bech32.SegwitInfo)
    requires IsSegwitAddress(addr, d, i, info)
    ensures Decode(check, addr) == Ok(d)
  {
    SegwitLength(addr, d, i, info);
    SegwitTried(addr, d, i, info);
    FirstTriedFinds(addr, 0, d, i, info);
  }

  lemma Base58Decodes(check: Check, addr: string, d: Decoded, v: seq<nat>)
    requires IsCheck(check) && IsBase58Address(check, addr, d, v)
    ensures Decode(check, addr) == Ok(d)
  {
    Base58Accepted(check, addr, d, v);
    AlphabetNoColon(addr);
    if StartsAsCash(addr) {
      TooShortForCash(addr);
    }
    TooShortForSegwit(addr);
  }

  lemma Complete(check: Check, addr: string, d: Decoded)
    requires IsCheck(check) && Accepted(check, addr, d)
    ensures Decode(check, addr) == Ok(d)
  {
    if cash :| IsCashString(addr, d, cash) {
      CashLength(addr, d, cash);
      CashAccepted(check, addr, d, cash);
    } else if i, info :| IsSegwitAddress(addr, d, i, info) {
      SegwitAccepted(check, addr, d, i, info);
    } else {
      var v :| IsBase58Address(check, addr, d, v);
      Base58Decodes(check, addr, d, v);
    }
  }

  lemma AcceptsExactly(check: Check, addr: string, d: Decoded)
    requires IsCheck(check)
    ensures Decode(check, addr) == Ok(d) <==> Accepted(check, addr, d)
  {
    if Decode(check, addr) == Ok(d) {
      Sound(check, addr, d);
    }
    if Accepted(check, addr, d) {
      Complete(check, addr, d);
    }
  }

  predicate IsCashKind(kind: Kind) {
    kind == BchP2PKH || kind == BchP2SH
  }

  // The payload begins with q or p, in either case: its version byte is below 16.
  predicate AssignedType(addr: string) {
    var payload := CashAddr.PayloadOf(addr);
    payload != "" && (Charset.LowerChar(payload[0]) == 'q' || Charset.LowerChar(payload[0]) == 'p')
  }

  lemma StandardType(addr: string, d: Decoded, cash: CashAddr.Cash)
    requires IsCashString(addr, d, cash)
    ensures IsCashKind(d.kind) && (AssignedType(addr) <==> cash.kind <= 1)
    ensures cash.kind <= 1 ==> IsCashAddress(addr, d, cash)
  {
    CashAddr.DecodesExactly(addr, cash);
    CashAddr.TypeShown(addr, cash);
  }

  lemma StandardAccepted(addr: string, d: Decoded, cash: CashAddr.Cash)
    requires IsCashAddress(addr, d, cash)
    ensures IsCashString(addr, d, cash) && AssignedType(addr) && IsCashKind(d.kind)
  {
    CashAddr.DecodesExactly(addr, cash);
    CashAddr.TypeShown(addr, cash);
    if !HasColon(addr) {
      assert CashAddr.PayloadOf(addr) == addr;
    }
  }

  lemma VersionKinds(v: seq<nat>)
    ensures Version(v).Some? ==> Version(v).value.0 == P2PKH || Version(v).value.0 == P2SH
  {}

  // Segwit and Base58 addresses are no CashAddr.
  lemma OtherKinds(check: Check, addr: string, d: Decoded)
    ensures (exists i, info :: IsSegwitAddress(addr, d, i, info)) ==> !IsCashKind(d.kind)
    ensures (exists v :: IsBase58Address(check, addr, d, v)) ==> !IsCashKind(d.kind)
  {
    if v :| IsBase58Address(check, addr, d, v) {
      VersionKinds(v);
    }
  }

  lemma StandardOnly(check: Check, addr: string, d: Decoded)
    requires Accepted(check, addr, d) && (IsCashKind(d.kind) ==> AssignedType(addr))
    ensures IsAddress(check, addr, d)
  {
    if cash :| IsCashString(addr, d, cash) {
      StandardType(addr, d, cash);
      assert IsCashAddress(addr, d, cash);
    }
  }

  lemma StandardDecodes(check: Check, addr: string, d: Decoded)
    requires IsAddress(check, addr, d)
    ensures Accepted(check, addr, d) && (IsCashKind(d.kind) ==> AssignedType(addr))
  {
    OtherKinds(check, addr, d);
    if cash :| IsCashAddress(addr, d, cash) {
      StandardAccepted(addr, d, cash);
      assert IsCashString(addr, d, cash);
    }
  }

  lemma MisreadType(check: Check, addr: string, d: Decoded)
    ensures Accepted(check, addr, d) && IsCashKind(d.kind) && !AssignedType(addr) <==> Misread(addr, d)
    ensures Misread(addr, d) ==> d.kind == BchP2SH
  {
    OtherKinds(check, addr, d);
    if cash :| IsCashString(addr, d, cash) && cash.kind > 1 {
      StandardType(addr, d, cash);
    }
    if Accepted(check, addr, d) && IsCashKind(d.kind) && !AssignedType(addr) {
      var cash :| IsCashString(addr, d, cash);
      StandardType(addr, d, cash);
    }
  }

  /** One of the standard encoders writes an address for a kind, network and program exactly when it decodes to them
      and, if it is a CashAddr, its payload begins with q or p.  What decodes as a CashAddr and begins otherwise is a
      type that the standard does not assign, read as a script hash. */
  lemma DecodesExactly(check: Check, addr: string, d: Decoded)
    requires IsCheck(check)
    ensures IsAddress(check, addr, d) <==>
              Decode(check, addr) == Ok(d) && (IsCashKind(d.kind) ==> AssignedType(addr))
    ensures Misread(addr, d) <==> Decode(check, addr) == Ok(d) && IsCashKind(d.kind) && !AssignedType(addr)
    ensures Misread(addr, d) ==> d.kind == BchP2SH
  {
    AcceptsExactly(check, addr, d);
    MisreadType(check, addr, d);
    if IsAddress(check, addr, d) {
      StandardDecodes(check, addr, d);
    }
    if Decode(check, addr) == Ok(d) && (IsCashKind(d.kind) ==> AssignedType(addr)) {
      StandardOnly(check, addr, d);
    }
  }

  /** No accepted string stands for two destinations, and none that would be accepted is too long for the limit. */
  lemma OneMeaning(check: Check, addr: string, d: Decoded, e: Decoded)
    requires IsCheck(check) && Accepted(check, addr, d) && Accepted(check, addr, e)
    ensures d == e && 0 < |addr| < MAX_LENGTH
  {
    AcceptsExactly(check, addr, d);
    AcceptsExactly(check, addr, e);
    if cash :| IsCashString(addr, d, cash) {
      CashLength(addr, d, cash);
    } else if i, info :| IsSegwitAddress(addr, d, i, info) {
      SegwitLength(addr, d, i, info);
    } else {
      var v :| IsBase58Address(check, addr, d, v);
      Base58Accepted(check, addr, d, v);
    }
  }

  // ----- output scripts -----

  // The bytes of the script that script_pubkey_hex writes.
  function Script(d: Decoded): seq<nat> {
    match d.kind
    case P2PKH => [0x76, 0xa9, 0x14] + d.program + [0x88, 0xac]
    case BchP2PKH => [0x76, 0xa9, 0x14] + d.program + [0x88, 0xac]
    case P2SH => [0xa9, 0x14] + d.program + [0x87]
    case BchP2SH => [0xa9, 0x14] + d.program + [0x87]
    case P2WPKH => [0x00, 0x14] + d.program
    case P2WSH => [0x00, 0x20] + d.program
    case P2TR => [0x51, 0x20] + d.program
  }

  datatype Template = ToKeyHash | ToScriptHash | ToWitness(version: nat)

  // How a node reads the standard scripts: the byte before the program is its length.
  function ReadScript(b: seq<nat>): Option<(Template, seq<nat>)> {
    if |b| >= 3 && b[0] == 0x76 && b[1] == 0xa9 && |b| == b[2] + 5 && b[b[2] + 3..] == [0x88, 0xac]
    then Some((ToKeyHash, b[3..b[2] + 3]))
    else if |b| >= 2 && b[0] == 0xa9 && |b| == b[1] + 3 && b[b[1] + 2] == 0x87
    then Some((ToScriptHash, b[2..b[1] + 2]))
    else if |b| >= 2 && (b[0] == 0x00 || 0x51 <= b[0] <= 0x60) && |b| == b[1] + 2
    then Some((ToWitness(if b[0] == 0x00 then 0 else b[0] - 0x50), b[2..]))
    else None
  }

  function TemplateOf(kind: Kind): Template {
    match kind
    case P2PKH => ToKeyHash
    case BchP2PKH => ToKeyHash
    case P2SH => ToScriptHash
    case BchP2SH => ToScriptHash
    case P2WPKH => ToWitness(0)
    case P2WSH => ToWitness(0)
    case P2TR => ToWitness(1)
  }

  function ProgramLength(kind: Kind): nat {
    if kind == P2WSH || kind == P2TR then 32 else 20
  }

  /** The script is read back as the address's kind and program exactly when the program has the length that the
      script declares. */
  lemma ScriptReads(d: Decoded)
    ensures ReadScript(Script(d)) == Some((TemplateOf(d.kind), d.program)) <==> |d.program| == ProgramLength(d.kind)
    ensures ReadScript(Script(d)).Some? <==> |d.program| == ProgramLength(d.kind)
  {
    var b := Script(d);
    if TemplateOf(d.kind) == ToKeyHash {
      assert b[3..3 + |d.program|] == d.program && b[3 + |d.program|..] == [0x88, 0xac];
    } else {
      assert b[2..2 + |d.program|] == d.program;
    }
  }

  // Segwit and Base58 programs have their declared lengths.
  lemma ProgramLengths(check: Check, addr: string, d: Decoded)
    requires Accepted(check, addr, d) && !IsCashKind(d.kind)
    ensures |d.program| == ProgramLength(d.kind)
  {
    if i, info :| IsSegwitAddress(addr, d, i, info) {
      SegwitKindLength(info);
    } else if cash :| IsCashString(addr, d, cash) {
      assert false;
    } else {
      var v :| IsBase58Address(check, addr, d, v);
      VersionKinds(v);
    }
  }

  lemma SegwitKindLength(info: Bech32.SegwitInfo)
    ensures SegwitKind(info).Some? ==> |info.program| == ProgramLength(SegwitKind(info).value)
  {}

  /** The script of everything but a CashAddr of a longer hash reads back as the decoded kind and program; that of
      such a CashAddr is read by no template. */
  lemma AddressScript(check: Check, addr: string, d: Decoded)
    requires IsCheck(check) && Decode(check, addr) == Ok(d)
    ensures ReadScript(Script(d)) == Some((TemplateOf(d.kind), d.program))
            <==> !(IsCashKind(d.kind) && |d.program| != 20)
    ensures IsCashKind(d.kind) && |d.program| != 20 ==> ReadScript(Script(d)).None?
  {
    ScriptReads(d);
    Sound(check, addr, d);
    if !IsCashKind(d.kind) {
      ProgramLengths(check, addr, d);
    }
  }

  // What a CashAddr's hash stands for: the specification assigns types 0 and 1, CHIP-2022-02 for tokens 2 and 3.
  function Meant(kind: nat): Option<Template> {
    if kind == 0 || kind == 2 then Some(ToKeyHash)
    else if kind == 1 || kind == 3 then Some(ToScriptHash)
    else None
  }

  /** The script of a CashAddr pays to what its hash stands for exactly when the hash has 20 bytes and the type is 0, 1
      or 3. */
  lemma CashScript(addr: string, d: Decoded, cash: CashAddr.Cash)
    requires IsCashString(addr, d, cash)
    ensures Meant(cash.kind).Some? && ReadScript(Script(d)) == Some((Meant(cash.kind).value, cash.hash))
            <==> |cash.hash| == 20 && (cash.kind <= 1 || cash.kind == 3)
  {
    CashPays(d, cash);
  }

  lemma CashPays(d: Decoded, cash: CashAddr.Cash)
    requires FromCash(cash) == Ok(d)
    ensures Meant(cash.kind).Some? && ReadScript(Script(d)) == Some((Meant(cash.kind).value, cash.hash))
            <==> |cash.hash| == 20 && (cash.kind <= 1 || cash.kind == 3)
  {
    ScriptReads(d);
  }

  const PLAIN_PREFIX := "bitcoincash"

  function LongCash(): (cash: CashAddr.Cash)
    ensures |cash.hash| == 24
  {
    CashAddr.Cash(PLAIN_PREFIX, 0, Zeros(24))
  }

  lemma LongCashIs()
    ensures CashAddr.IsCash(LongCash())
  {
    ShrZero(8);
  }

  lemma PlainPrefix()
    ensures Charset.Lower(PLAIN_PREFIX) == PLAIN_PREFIX && ':' !in PLAIN_PREFIX
    ensures CashNetwork(PLAIN_PREFIX) == Some(BchMainnet)
  {
    Charset.PlainIsLower(PLAIN_PREFIX);
  }

  // What the encoder writes with its prefix in front is a CashAddr string.
  lemma Prefixed(addr: string, d: Decoded, cash: CashAddr.Cash)
    requires cash.prefix == PLAIN_PREFIX && CashAddr.IsCash(cash) && FromCash(cash) == Ok(d)
    requires addr == PLAIN_PREFIX + ":" + CashAddr.Encoded(cash)
    ensures IsCashString(addr, d, cash)
  {
    PlainPrefix();
    CashAddr.RoundTrip(cash);
    ColonThere(addr, PLAIN_PREFIX, CashAddr.Encoded(cash));
    CashWas(addr, d);
  }

  /** A CashAddr of a 24-byte hash is accepted, and its script is read by no template. */
  lemma LongHash(check: Check) returns (addr: string, d: Decoded)
    requires IsCheck(check)
    ensures Decode(check, addr) == Ok(d) && |d.program| == 24 && ReadScript(Script(d)).None?
  {
    var cash := LongCash();
    LongCashIs();
    PlainPrefix();
    addr := PLAIN_PREFIX + ":" + CashAddr.Encoded(cash);
    d := Decoded(BchP2PKH, BchMainnet, cash.hash);
    Prefixed(addr, d, cash);
    Complete(check, addr, d);
    ScriptReads(d);
  }

  /** A key hash in its token-aware form is accepted and gets the script of a script hash; no standard encoder writes
      that address for anything. */
  lemma TokenKeyHash(check: Check, hash: seq<nat>)
    requires IsCheck(check) && |hash| == 20 && Fit(hash, 8)
    ensures CashAddr.IsCash(CashAddr.Cash(PLAIN_PREFIX, 2, hash))
    ensures var addr := PLAIN_PREFIX + ":" + CashAddr.Encoded(CashAddr.Cash(PLAIN_PREFIX, 2, hash));
            var d := Decoded(BchP2SH, BchMainnet, hash);
            && Decode(check, addr) == Ok(d) && ReadScript(Script(d)) == Some((ToScriptHash, hash))
            && Meant(2) == Some(ToKeyHash) && forall e :: !IsAddress(check, addr, e)
  {
    var cash := CashAddr.Cash(PLAIN_PREFIX, 2, hash);
    var addr := PLAIN_PREFIX + ":" + CashAddr.Encoded(cash);
    var d := Decoded(BchP2SH, BchMainnet, hash);
    PlainPrefix();
    Prefixed(addr, d, cash);
    Complete(check, addr, d);
    ScriptReads(d);
    StandardType(addr, d, cash);
    forall e
      ensures !IsAddress(check, addr, e)
    {
      DecodesExactly(check, addr, e);
    }
  }

  lemma ColonThere(addr: string, prefix: string, rest: string)
    requires addr == prefix + ":" + rest
    ensures HasColon(addr)
  {
    assert addr[|prefix|] == ':';
  }

  // ----- hexadecimal -----

  function HexDigit(n: nat): char
    requires n < 16
  {
    "0123456789abcdef"[n]
  }

  function HexPair(v: nat): string {
    [HexDigit(v / 16 % 16), HexDigit(v % 16)]
  }

  function Hex(b: seq<nat>): (s: string)
    ensures |s| == 2 * |b|
  {
    if b == [] then "" else Hex(b[..|b| - 1]) + HexPair(b[|b| - 1])
  }

  lemma HexDigitsDiffer(x: nat, y: nat)
    requires x < 16 && y < 16 && HexDigit(x) == HexDigit(y)
    ensures x == y
  {}

  lemma HexPairInjective(x: nat, y: nat)
    requires x < 256 && y < 256 && HexPair(x) == HexPair(y)
    ensures x == y
  {
    var p, q := HexPair(x), HexPair(y);
    assert p[0] == q[0] && p[1] == q[1];
    HexDigitsDiffer(x / 16 % 16, y / 16 % 16);
    HexDigitsDiffer(x % 16, y % 16);
  }

  lemma LastTwo(a: string, p: string, b: string, q: string)
    requires |p| == |q| == 2 && a + p == b + q
    ensures a == b && p == q
  {
    assert |a| == |b| && (a + p)[..|a|] == a && (b + q)[..|b|] == b && (a + p)[|a|..] == p && (b + q)[|b|..] == q;
  }

  lemma {:induction false} HexInjective(x: seq<nat>, y: seq<nat>)
    requires AreDigits(x, 256) && AreDigits(y, 256) && Hex(x) == Hex(y)
    ensures x == y
  {
    if x != [] {
      var m := |x| - 1;
      assert |y| == |x|;
      LastTwo(Hex(x[..m]), HexPair(x[m]), Hex(y[..m]), HexPair(y[m]));
      HexInjective(x[..m], y[..m]);
      HexPairInjective(x[m], y[m]);
      assert x == x[..m] + [x[m]] && y == y[..m] + [y[m]];
    }
  }

  lemma {:induction false} HexConcat(x: seq<nat>, y: seq<nat>)
    ensures Hex(x + y) == Hex(x) + Hex(y)
  {
    if y == [] {
      assert x + y == x;
    } else {
      var y', v := y[..|y| - 1], y[|y| - 1];
      HexConcat(x, y');
      assert x + y == (x + y') + [v] && y == y' + [v];
      HexLast(x + y', v);
      HexLast(y', v);
      Sequences.Associates(Hex(x), Hex(y'), HexPair(v));
    }
  }

  lemma HexLast(b: seq<nat>, v: nat)
    ensures Hex(b + [v]) == Hex(b) + HexPair(v)
  {
    assert (b + [v])[..|b|] == b;
  }

  lemma ScriptIsBytes(d: Decoded)
    requires AreDigits(d.program, 256)
    ensures AreDigits(Script(d), 256)
  {}

  /** Addresses with the same script pay to the same program under the same template. */
  lemma ScriptsDiffer(d: Decoded, e: Decoded)
    requires AreDigits(d.program, 256) && AreDigits(e.program, 256) && Hex(Script(d)) == Hex(Script(e))
    ensures TemplateOf(d.kind) == TemplateOf(e.kind) && d.program == e.program
  {
    ScriptIsBytes(d);
    ScriptIsBytes(e);
    HexInjective(Script(d), Script(e));
    SameScript(d, e);
  }

  // The two bytes a script begins with.
  function Head(d: Decoded): (nat, nat) {
    match d.kind
    case P2PKH => (0x76, 0xa9)
    case BchP2PKH => (0x76, 0xa9)
    case P2SH => (0xa9, 0x14)
    case BchP2SH => (0xa9, 0x14)
    case P2WPKH => (0x00, 0x14)
    case P2WSH => (0x00, 0x20)
    case P2TR => (0x51, 0x20)
  }

  function TailLength(t: Template): nat {
    if t == ToKeyHash then 2 else if t == ToScriptHash then 1 else 0
  }

  lemma ScriptParts(d: Decoded)
    ensures var b, t := Script(d), TemplateOf(d.kind);
            && |b| >= 2 && b[0] == Head(d).0 && b[1] == Head(d).1
            && |b| == (if t == ToKeyHash then 3 else 2) + |d.program| + TailLength(t)
            && b[if t == ToKeyHash then 3 else 2..|b| - TailLength(t)] == d.program
  {}

  lemma SameScript(d: Decoded, e: Decoded)
    requires Script(d) == Script(e)
    ensures TemplateOf(d.kind) == TemplateOf(e.kind) && d.program == e.program
  {
    ScriptParts(d);
    ScriptParts(e);
    assert Head(d) == Head(e);
  }

  // ----- the methods -----

  method ToHex(data: seq<nat>) returns (out: string)
    ensures out == Hex(data)
  {
    out := "";
    for i := 0 to |data|
      invariant out == Hex(data[..i])
    {
      assert data[..i + 1][..i] == data[..i];
      out := out + HexPair(data[i]);
    }
    assert data[..|data|] == data;
  }

  method ScriptPubkeyHex(d: Decoded) returns (script: string)
    ensures script == Hex(Script(d))
  {
    var program := ToHex(d.program);
    match d.kind {
      case P2PKH => script := "76a914" + program + "88ac";
      case BchP2PKH => script := "76a914" + program + "88ac";
      case P2SH => script := "a914" + program + "87";
      case BchP2SH => script := "a914" + program + "87";
      case P2WPKH => script := "0014" + program;
      case P2WSH => script := "0020" + program;
      case P2TR => script := "5120" + program;
    }
    ScriptHex(d);
  }

  lemma HexOne(x: nat)
    ensures Hex([x]) == HexPair(x)
  {
    assert [x][..0] == [];
  }

  lemma HexTwo(x: nat, y: nat)
    ensures Hex([x, y]) == HexPair(x) + HexPair(y)
  {
    HexOne(x);
    assert [x, y][..1] == [x];
  }

  lemma Pairs()
    ensures HexPair(0x76) == "76" && HexPair(0xa9) == "a9" && HexPair(0x14) == "14" && HexPair(0x87) == "87"
  {}

  lemma MorePairs()
    ensures HexPair(0x88) == "88" && HexPair(0xac) == "ac" && HexPair(0x00) == "00" && HexPair(0x20) == "20"
    ensures HexPair(0x51) == "51"
  {}

  lemma HexEnds()
    ensures Hex([0x88, 0xac]) == "88ac" && Hex([0x87]) == "87" && Hex([0xa9, 0x14]) == "a914"
  {
    Pairs();
    MorePairs();
    HexTwo(0xa9, 0x14);
    HexTwo(0x88, 0xac);
    HexOne(0x87);
  }

  lemma HexWitness()
    ensures Hex([0x00, 0x14]) == "0014" && Hex([0x00, 0x20]) == "0020" && Hex([0x51, 0x20]) == "5120"
  {
    Pairs();
    MorePairs();
    HexTwo(0x00, 0x14);
    HexTwo(0x00, 0x20);
    HexTwo(0x51, 0x20);
  }

  lemma HexKeyHash()
    ensures Hex([0x76, 0xa9, 0x14]) == "76a914"
  {
    HexEnds();
    Pairs();
    HexOne(0x76);
    HexConcat([0x76], [0xa9, 0x14]);
    var b := [0x76] + [0xa9, 0x14];
    assert [0x76, 0xa9, 0x14] == b;
  }

  lemma ScriptHex(d: Decoded)
    ensures Hex(Script(d)) == (match d.kind
              case P2PKH => "76a914" + Hex(d.program) + "88ac"
              case BchP2PKH => "76a914" + Hex(d.program) + "88ac"
              case P2SH => "a914" + Hex(d.program) + "87"
              case BchP2SH => "a914" + Hex(d.program) + "87"
              case P2WPKH => "0014" + Hex(d.program)
              case P2WSH => "0020" + Hex(d.program)
              case P2TR => "5120" + Hex(d.program))
  {
    HexEnds();
    HexWitness();
    HexKeyHash();
    HexConcat([0x76, 0xa9, 0x14] + d.program, [0x88, 0xac]);
    HexConcat([0x76, 0xa9, 0x14], d.program);
    HexConcat([0xa9, 0x14] + d.program, [0x87]);
    HexConcat([0xa9, 0x14], d.program);
    HexConcat([0x00, 0x14], d.program);
    HexConcat([0x00, 0x20], d.program);
    HexConcat([0x51, 0x20], d.program);
  }

  /** One attempt under one prefix. */
  method TryBech(addr: string, hrp: string, network: Network) returns (d: Option<Decoded>)
    requires |hrp| >= 2 && Bech32.Ascii(hrp)
    ensures d == Tried(addr, hrp, network)
  {
    if !LooksLike(addr, hrp) {
      return None;
    }
    var info := Bech32.SegwitDecode(hrp, addr);
    if info.Err? {
      return None;
    }
    var kind := SegwitKind(info.value);
    d := if kind.Some? then Some(Decoded(kind.value, network, info.value.program)) else None;
  }

  lemma HrpAscii(i: nat)
    requires i < |HRPS|
    ensures Bech32.Ascii(HRPS[i].0)
  {}

  /** The eight attempts. */
  method TryAllBech(addr: string) returns (d: Option<Decoded>)
    ensures d == FirstTried(addr, 0)
  {
    for i := 0 to |HRPS|
      invariant FirstTried(addr, 0) == FirstTried(addr, i)
    {
      HrpLength(i);
      HrpAscii(i);
      d := TryBech(addr, HRPS[i].0, HRPS[i].1);
      if d.Some? {
        return;
      }
    }
    d := None;
  }

  method DecodeRaw(check: Check, raw: seq<nat>) returns (r: Result<Decoded>)
    ensures r == FromRaw(check, raw)
  {
    if |raw| < 5 {
      return Err(BadLength);
    }
    if check(raw[..|raw| - 4]) != raw[|raw| - 4..] {
      return Err(BadChecksum);
    }
    var n := if |raw| == 26 then 2 else 1;
    var body := raw[n..|raw| - 4];
    if |body| != 20 {
      return Err(BadLength);
    }
    var version := Version(raw[..n]);
    if version.None? {
      return Err(UnsupportedVersion);
    }
    r := Ok(Decoded(version.value.0, version.value.1, body));
  }

  method DecodeAddress(check: Check, addr: string) returns (r: Result<Decoded>)
    ensures r == Decode(check, addr)
  {
    if addr == "" {
      return Err(Empty);
    }
    if |addr| > MAX_LENGTH {
      return Err(BadLength);
    }
    var colon := HasColon(addr);
    if colon || StartsAsCash(addr) {
      var cash := CashAddr.CashAddrDecode(addr);
      if cash.Ok? {
        return FromCash(cash.value);
      }
      if colon {
        return Err(cash.error);
      }
    }
    var segwit := TryAllBech(addr);
    if segwit.Some? {
      return Ok(segwit.value);
    }
    var raw := Base58.Base58Decode(addr);
    if raw.Ok? {
      r := DecodeRaw(check, raw.value);
    } else {
      r := Err(UnknownPrefix);
    }
  }
}
