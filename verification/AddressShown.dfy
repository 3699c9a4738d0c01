/** address.cpp: what an address shows.  Its first characters tell its kind and its network, and the script of a segwit
    address pays to the program that the address spells. */
module AddressShown {
  import opened Address
  import opened AddressResult
  import Base58
  import Bech32
  import CashAddr
  import Charset
  import opened Bits
  import opened Options
  import opened Powers
  import Sequences

  // ----- the leading digits of a number -----

  function Drop(v: nat, k: nat): nat
    decreases k
  {
    if k == 0 then v else Drop(v / 58, k - 1)
  }

  lemma {:induction false} DropBounds(v: nat, k: nat, lo: nat, hi: nat)
    requires lo * Pow(58, k) <= v < hi * Pow(58, k)
    ensures lo <= Drop(v, k) < hi
    decreases k
  {
    if k != 0 {
      var p := Pow(58, k - 1);
      assert lo * Pow(58, k) == 58 * (lo * p) && hi * Pow(58, k) == 58 * (hi * p);
      DropBounds(v / 58, k - 1, lo, hi);
    }
  }

  lemma {:induction false} DroppedPrefix(v: nat, k: nat)
    ensures Digits(Drop(v, k), 58) <= Digits(v, 58)
    decreases k
  {
    if k != 0 && v != 0 {
      DroppedPrefix(v / 58, k - 1);
      assert Digits(v, 58) == Digits(v / 58, 58) + [v % 58];
    } else if k != 0 {
      DropZero(k);
    }
  }

  lemma {:induction false} DropZero(k: nat)
    ensures Drop(0, k) == 0
  {
    if k != 0 {
      DropZero(k - 1);
    }
  }

  lemma FewLeading(q: nat)
    requires 0 < q < 3364
    ensures Digits(q, 58) == if q < 58 then [q] else [q / 58, q % 58]
  {
    assert Digits(q, 58) == Digits(q / 58, 58) + [q % 58];
    if q >= 58 {
      assert Digits(q / 58, 58) == Digits(q / 58 / 58, 58) + [q / 58 % 58];
      assert q / 58 / 58 == 0;
    }
  }

  // ----- the characters of a Base58Check address -----

  lemma Powers33()
    ensures Pow(58, 33) == 15599970876632771988160814054146447252125923204784443097088
    ensures Pow(256, 24) == 6277101735386680763835789423207666416102355444464034512896
  {
    assert Pow(58, 4) == 11316496 && Pow(58, 1) == 58;
    PowAdd(58, 4, 4);
    PowAdd(58, 8, 8);
    PowAdd(58, 16, 16);
    PowAdd(58, 32, 1);
    assert Pow(256, 4) == 0x1_0000_0000;
    PowAdd(256, 4, 4);
    PowAdd(256, 8, 8);
    PowAdd(256, 16, 8);
  }

  // Every number that the version bytes can begin has its leading digits here.
  ghost predicate Leads(version: nat, lo: nat, hi: nat) {
    && 0 < lo && hi <= 3364
    && lo * 15599970876632771988160814054146447252125923204784443097088
       <= version * 6277101735386680763835789423207666416102355444464034512896
    && (version + 1) * 6277101735386680763835789423207666416102355444464034512896
       <= hi * 15599970876632771988160814054146447252125923204784443097088
  }

  lemma LeadingDigits(vs: seq<nat>, rest: seq<nat>, lo: nat, hi: nat) returns (q: nat)
    requires AreDigits(rest, 256) && |rest| == 24 && Leads(Value(vs, 256), lo, hi)
    ensures lo <= q < hi && Digits(q, 58) <= Digits(Value(vs + rest, 256), 58)
  {
    var v, n := Value(vs, 256), Value(vs + rest, 256);
    ValueConcat(vs, rest, 256);
    ValueBound(rest, 256);
    Powers33();
    q := Drop(n, 33);
    DropBounds(n, 33, lo, hi);
    DroppedPrefix(n, 33);
  }

  // One leading digit, or two.
  ghost predicate Begins(addr: string, q: nat) {
    q < 3364 && |Base58.ALPHABET| == 58
    && if q < 58 then |addr| >= 1 && addr[0] == Base58.ALPHABET[q]
       else |addr| >= 2 && addr[0] == Base58.ALPHABET[q / 58] && addr[1] == Base58.ALPHABET[q % 58]
  }

  lemma SpelledBegins(ds: seq<nat>, q: nat)
    requires AreDigits(ds, 58) && 0 < q < 3364 && Digits(q, 58) <= ds
    ensures Begins(Base58.Spell(ds), q)
  {
    FewLeading(q);
    var s := Base58.Spell(ds);
    if q < 58 {
      assert ds[0] == Digits(q, 58)[0];
    } else {
      assert ds[0] == Digits(q, 58)[0] && ds[1] == Digits(q, 58)[1];
    }
  }

  lemma AddressBegins(check: Check, addr: string, d: Decoded, v: seq<nat>, lo: nat, hi: nat) returns (q: nat)
    requires IsCheck(check) && IsBase58Address(check, addr, d, v) && v != [] && v[0] != 0 && AreDigits(v, 256)
    requires Leads(Value(v, 256), lo, hi)
    ensures lo <= q < hi && Begins(addr, q)
  {
    var rest := d.program + check(v + d.program);
    var b := Base58.AsBytes(Payload(check, v, d.program));
    assert Payload(check, v, d.program) == v + rest;
    RestDigits(check, v, d.program);
    q := LeadingDigits(v, rest, lo, hi);
    DigitsSpell(Value(b, 256), 58);
    SpelledBegins(Digits(Value(b, 256), 58), q);
    assert Base58.LeadingZeros(b) == 0;
    Sequences.Unit(Base58.Spell(Digits(Value(b, 256), 58)));
  }

  lemma RestDigits(check: Check, v: seq<nat>, program: seq<nat>)
    requires IsCheck(check) && AreDigits(Payload(check, v, program), 256)
    ensures AreDigits(program + check(v + program), 256)
  {
    var p := Payload(check, v, program);
    assert p == v + (program + check(v + program));
    assert forall i :: 0 <= i < |program + check(v + program)| ==> (program + check(v + program))[i] == p[|v| + i];
  }

  lemma Letters()
    ensures var a := Base58.ALPHABET;
            && |a| == 58 && a[0] == '1' && a[1] == '2' && a[2] == '3' && a[8] == '9' && a[9] == 'A' && a[12] == 'D'
            && a[19] == 'L' && a[20] == 'M' && a[23] == 'Q' && a[25] == 'S' && a[44] == 'm' && a[45] == 'n'
            && a[50] == 's' && a[51] == 't' && a[56] == 'y'
  {}

  ghost predicate IsKind(d: Decoded, kind: Kind, network: Network) {
    d.kind == kind && d.network == network
  }

  // What the first character of an address with a one-byte version says.
  ghost predicate Shows(c: char, d: Decoded) {
    && (IsKind(d, P2PKH, BitcoinMainnet) <==> c == '1' || c == 'L' || c == 'D')
    && (IsKind(d, P2SH, BitcoinMainnet) <==> c == '3' || c == 'M' || c == '9' || c == 'A' || c == 'S')
    && (IsKind(d, P2PKH, BitcoinTestnet) <==> c == 'm' || c == 'n' || c == 's' || c == 't')
    && (IsKind(d, P2SH, BitcoinTestnet) <==> c == '2' || c == 'Q' || c == 'y')
  }

  // What the second one says after the t of Zcash.
  ghost predicate ShowsZcash(c: char, d: Decoded) {
    && (IsKind(d, P2PKH, BitcoinMainnet) <==> c == '1') && (IsKind(d, P2SH, BitcoinMainnet) <==> c == '3')
    && (IsKind(d, P2PKH, BitcoinTestnet) <==> c == 'm') && (IsKind(d, P2SH, BitcoinTestnet) <==> c == '2')
  }

  // The leading digits that go with a one-byte version.
  function First(x: nat): (nat, nat) {
    match x
    case 0x05 => (2, 3)
    case 0x30 => (19, 20)
    case 0x1e => (12, 13)
    case 0x32 => (20, 21)
    case 0x16 => (8, 10)
    case 0x3f => (25, 26)
    case 0x6f => (44, 46)
    case 0x71 => (45, 46)
    case 0x7e => (50, 52)
    case 0xc4 => (78, 80)
    case 0x3a => (23, 24)
    case _ => (56, 57)
  }

  lemma FirstLeads(x: nat)
    requires x > 0 && Version([x]).Some?
    ensures x < 256 && Leads(x, First(x).0, First(x).1)
  {}

  lemma FirstShows(x: nat, d: Decoded, q: nat, c: char)
    requires x > 0 && Version([x]) == Some((d.kind, d.network)) && First(x).0 <= q < First(x).1
    requires |Base58.ALPHABET| == 58 && c == Base58.ALPHABET[if q < 58 then q else q / 58]
    ensures Shows(c, d)
  {
    if d.network == BitcoinMainnet {
      MainShows(x, d, q, c);
    } else {
      TestShows(x, d, q, c);
    }
  }

  lemma MainShows(x: nat, d: Decoded, q: nat, c: char)
    requires x > 0 && Version([x]) == Some((d.kind, d.network)) && First(x).0 <= q < First(x).1
    requires d.network == BitcoinMainnet
    requires |Base58.ALPHABET| == 58 && c == Base58.ALPHABET[if q < 58 then q else q / 58]
    ensures Shows(c, d)
  {
    Letters();
  }

  lemma TestShows(x: nat, d: Decoded, q: nat, c: char)
    requires x > 0 && Version([x]) == Some((d.kind, d.network)) && First(x).0 <= q < First(x).1
    requires d.network != BitcoinMainnet
    requires |Base58.ALPHABET| == 58 && c == Base58.ALPHABET[if q < 58 then q else q / 58]
    ensures Shows(c, d)
  {
    Letters();
  }

  lemma ZeroShows(check: Check, addr: string, d: Decoded)
    requires IsBase58Address(check, addr, d, [0])
    ensures addr != "" && addr[0] == '1' && Shows(addr[0], d)
  {
    var b := Base58.AsBytes(Payload(check, [0], d.program));
    assert b[0] == 0;
    assert Base58.LeadingZeros(b) >= 1;
  }

  lemma OneByte(check: Check, addr: string, d: Decoded, x: nat)
    requires IsCheck(check) && IsBase58Address(check, addr, d, [x])
    ensures addr != "" && Shows(addr[0], d)
  {
    if x == 0 {
      ZeroShows(check, addr, d);
    } else {
      FirstLeads(x);
      assert Value([x], 256) == x;
      var q := AddressBegins(check, addr, d, [x], First(x).0, First(x).1);
      FirstShows(x, d, q, addr[0]);
    }
  }

  function Second(v: seq<nat>): nat {
    if v == [0x1c, 0xb8] then 2958 else if v == [0x1c, 0xbd] then 2960 else if v == [0x1d, 0x25] then 3002 else 2959
  }

  lemma SecondLeads(v: seq<nat>)
    requires |v| == 2 && Version(v).Some?
    ensures v[0] != 0 && AreDigits(v, 256) && Leads(Value(v, 256), Second(v), Second(v) + 1)
  {
    assert v == [] + [v[0]] + [v[1]];
    assert Value([v[0]], 256) == v[0];
    assert v[..1] == [v[0]];
    assert Value(v, 256) == 256 * v[0] + v[1];
  }

  lemma TwoBytes(check: Check, addr: string, d: Decoded, v: seq<nat>)
    requires IsCheck(check) && IsBase58Address(check, addr, d, v) && |v| == 2
    ensures |addr| >= 2 && addr[0] == 't' && ShowsZcash(addr[1], d)
  {
    SecondLeads(v);
    var q := AddressBegins(check, addr, d, v, Second(v), Second(v) + 1);
    Letters();
  }

  /** The first character of a Base58Check address, on Zcash the second, tells whether it pays to a key hash or a script
      hash and on which network. */
  lemma Base58Shown(check: Check, addr: string, d: Decoded, v: seq<nat>)
    requires IsCheck(check) && IsBase58Address(check, addr, d, v)
    ensures if |v| == 1 then addr != "" && Shows(addr[0], d)
            else |addr| >= 2 && addr[0] == 't' && ShowsZcash(addr[1], d)
  {
    if |v| == 1 {
      assert v == [v[0]];
      OneByte(check, addr, d, v[0]);
    } else {
      TwoBytes(check, addr, d, v);
    }
  }

  // ----- segwit and CashAddr -----

  ghost predicate HrpNames(hrp: string, network: Network) {
    && (network == BitcoinMainnet <==> hrp == "bc" || hrp == "ltc" || hrp == "dgb")
    && (network == BitcoinTestnet <==> hrp == "tb" || hrp == "tltc" || hrp == "dgbt" || hrp == "tdgb")
    && (network == BitcoinRegtest <==> hrp == "bcrt")
  }

  ghost predicate PrefixNames(prefix: string, network: Network) {
    && (network == BchMainnet <==> prefix == "bitcoincash" || prefix == "ecash" || prefix == "bitcoincashii")
    && (network == BchTestnet <==> prefix == "bchtest" || prefix == "ectest")
    && (network == BchRegtest <==> prefix == "bchreg" || prefix == "ecreg")
  }

  /** A segwit address pays to the version and program that it spells, and its prefix names the network. */
  lemma SegwitShown(addr: string, d: Decoded, i: nat, info: Bech32.SegwitInfo)
    requires IsSegwitAddress(addr, d, i, info)
    ensures ReadScript(Script(d)) == Some((ToWitness(info.version), info.program))
    ensures HRPS[i].0 + "1" <= Charset.Lower(addr)
    ensures HrpNames(HRPS[i].0, d.network)
  {
    SegwitPays(d, info);
    HrpNetwork(i);
  }

  lemma SegwitPays(d: Decoded, info: Bech32.SegwitInfo)
    requires SegwitKind(info) == Some(d.kind) && d.program == info.program
    ensures ReadScript(Script(d)) == Some((ToWitness(info.version), info.program))
  {
    ScriptReads(d);
  }

  lemma HrpNetwork(i: nat)
    requires i < |HRPS|
    ensures HrpNames(HRPS[i].0, HRPS[i].1)
  {}

  /** A CashAddr string pays by its type, and its prefix names the network. */
  lemma CashShown(addr: string, d: Decoded, cash: CashAddr.Cash)
    requires IsCashString(addr, d, cash)
    ensures Charset.Lower(CashAddr.PrefixOf(addr)) == cash.prefix
    ensures PrefixNames(cash.prefix, d.network)
    ensures |cash.hash| == 20 ==>
              ReadScript(Script(d)) == Some((if cash.kind == 0 then ToKeyHash else ToScriptHash, cash.hash))
  {
    PrefixNetwork(cash.prefix);
    if |cash.hash| == 20 {
      CashTypePays(d, cash);
    }
  }

  lemma PrefixNetwork(prefix: string)
    ensures CashNetwork(prefix).Some? ==> PrefixNames(prefix, CashNetwork(prefix).value)
  {}

  lemma CashTypePays(d: Decoded, cash: CashAddr.Cash)
    requires FromCash(cash) == Ok(d) && |cash.hash| == 20
    ensures ReadScript(Script(d)) == Some((if cash.kind == 0 then ToKeyHash else ToScriptHash, cash.hash))
  {
    ScriptReads(d);
  }
}
