/** address.cpp: Bech32 and Bech32m strings (BIP 173, BIP 350) and the segwit addresses written in them.
    Decoding accepts exactly the strings that the encoder below writes, in one letter case, and gives back
    what was encoded. */
module Bech32 {
  import opened AddressResult
  import opened Bits
  import opened Charset
  import opened Checksum
  import opened ConvertBits

  const BECH32_CONST := 1
  const BECH32M_CONST := 0x2bc830a3

  // ----- the human-readable part -----

  ghost predicate Ascii(s: string) {
    forall i :: 0 <= i < |s| ==> s[i] as int < 128
  }

  // The high bits of every character, a zero, and the low bits of every character.
  function Expand(hrp: string): (vs: seq<nat>)
    ensures |vs| == 2 * |hrp| + 1
  {
    seq<nat>(|hrp|, i requires 0 <= i < |hrp| => Shr(hrp[i] as int, 5)) + [0]
    + seq<nat>(|hrp|, i requires 0 <= i < |hrp| => Keep(hrp[i] as int, 5))
  }

  lemma HighFits(c: nat)
    requires c < 128
    ensures Shr(Shr(c, 5), 5) == 0
  {
    ShiftedBits(c);
    FiveBits(Shr(c, 5));
  }

  lemma ExpandFits(hrp: string)
    requires Ascii(hrp)
    ensures Fit(Expand(hrp), 5)
  {
    var n := |hrp|;
    var vs := Expand(hrp);
    FiveBits(0);
    forall i | 0 <= i < |vs|
      ensures Shr(vs[i], 5) == 0
    {
      if i < n {
        HighFits(hrp[i] as int);
      } else if i > n {
        ShrClears(hrp[i - n - 1] as int, 5, 5);
      }
    }
  }

  method HrpExpand(hrp: string) returns (out: seq<nat>)
    ensures out == Expand(hrp)
  {
    out := [];
    var n := |hrp|;
    for i := 0 to n
      invariant out == Expand(hrp)[..i]
    {
      out := out + [Shr(hrp[i] as int, 5)];
    }
    out := out + [0];
    for i := 0 to n
      invariant out == Expand(hrp)[..n + 1 + i]
    {
      AndMask(hrp[i] as int, 5);
      LowMasks();
      out := out + [And(hrp[i] as int, 31)];
    }
  }

  // ----- what is decoded -----

  // The last '1', or |s| when there is none.
  function LastOne(s: string, n: nat): (p: nat)
    requires n <= |s|
    ensures (p < n && s[p] == '1') || p == |s|
    ensures forall i :: 0 <= i < n && (p == |s| || p < i) ==> s[i] != '1'
    decreases n
  {
    if n == 0 then |s| else if s[n - 1] == '1' then n - 1 else LastOne(s, n - 1)
  }

  function Residue(hrp: string, values: seq<nat>): nat {
    Run(BECH32, 1, Expand(hrp) + values)
  }

  datatype Text = Text(encoding: nat, data: seq<nat>)

  /** The branches of bech32_decode, in order. */
  function Decoded(hrp: string, s: string): Result<Text> {
    var l := Lower(s);
    var p := LastOne(l, |l|);
    if Mixed(s) then Err(BadCharacter)
    else if p == |l| || p < 1 || p + 7 > |l| then Err(BadLength)
    else if l[..p] != hrp then Err(UnknownPrefix)
    else if !AllKnown(l[p + 1..]) then Err(BadCharacter)
    else
      Checked(hrp, Read(l[p + 1..]))
  }

  // The constant reached tells the encoding; the checksum is cut off.
  function Checked(hrp: string, values: seq<nat>): Result<Text>
    requires |values| >= 6
  {
    var chk := Residue(hrp, values);
    if chk == BECH32_CONST then Ok(Text(0, values[..|values| - 6]))
    else if chk == BECH32M_CONST then Ok(Text(1, values[..|values| - 6]))
    else Err(BadChecksum)
  }

  method CheckSum(hrp: string, values: seq<nat>) returns (result: Result<Text>)
    requires Ascii(hrp) && Fit(values, 5) && |values| >= 6
    ensures result == Checked(hrp, values)
  {
    var expand := HrpExpand(hrp);
    ExpandFits(hrp);
    FitConcat(expand, values);
    var chk := Bech32Polymod(expand + values);
    var encoding;
    if chk == 1 {
      encoding := 0;
    } else if chk == 0x2bc830a3 {
      encoding := 1;
    } else {
      return Err(BadChecksum);
    }
    return Ok(Text(encoding, values[..|values| - 6]));
  }

  method Bech32Decode(hrp: string, s: string) returns (result: Result<Text>)
    requires Ascii(hrp)
    ensures result == Decoded(hrp, s)
  {
    var mixed := IsMixed(s);
    if mixed {
      return Err(BadCharacter);
    }
    var lower := ToLower(s);
    var pos := LastOne(lower, |lower|);
    if pos == |lower| || pos < 1 || pos + 7 > |lower| {
      return Err(BadLength);
    }
    if lower[..pos] != hrp {
      return Err(UnknownPrefix);
    }
    var known, values := ReadSymbols(lower[pos + 1..]);
    if !known {
      return Err(BadCharacter);
    }
    ReadFits(lower[pos + 1..]);
    result := CheckSum(hrp, values);
  }

  // ----- the encoder of the standard -----

  function Target(encoding: nat): nat {
    if encoding == 0 then BECH32_CONST else BECH32M_CONST
  }

  function SumOf(hrp: string, text: Text): (t: seq<nat>)
    ensures |t| == 6
  {
    Sum(BECH32, Expand(hrp), text.data, Target(text.encoding))
  }

  ghost predicate IsText(text: Text) {
    text.encoding <= 1 && Fit(text.data, 5)
  }

  lemma States(encoding: nat)
    ensures Good(BECH32) && IsState(BECH32, 1) && IsState(BECH32, Target(encoding))
  {
    Bech32Good();
    Fits30(1);
    Fits30(Target(encoding));
  }

  lemma SumOfFits(hrp: string, text: Text)
    ensures Fit(SumOf(hrp, text), 5)
  {
    States(text.encoding);
    SumFits(BECH32, Expand(hrp), text.data, Target(text.encoding));
  }

  // Six symbols after the data reach the constant of the encoding exactly when they are the checksum.
  lemma SumReaches(hrp: string, text: Text, t: seq<nat>)
    requires |t| == 6 && Fit(t, 5)
    ensures Residue(hrp, text.data + t) == Target(text.encoding) <==> t == SumOf(hrp, text)
  {
    States(text.encoding);
    Checksum.SumReaches(BECH32, Expand(hrp), text.data, Target(text.encoding), t);
  }

  ghost function Encoded(hrp: string, text: Text): string
    requires IsText(text)
  {
    SumOfFits(hrp, text);
    hrp + "1" + Spell(text.data) + Spell(SumOf(hrp, text))
  }

  // ----- decoding is the inverse of encoding -----

  lemma LastOneIs(s: string, p: nat)
    requires p < |s| && s[p] == '1' && forall i :: p < i < |s| ==> s[i] != '1'
    ensures LastOne(s, |s|) == p
  {
    assert LastOne(s, |s|) != |s|;
  }

  lemma NoOnes(s: string)
    requires AllKnown(s)
    ensures forall i :: 0 <= i < |s| ==> s[i] != '1'
  {
    forall i | 0 <= i < |s|
      ensures s[i] != '1'
    {
      KnownIsPlain(s[i]);
    }
  }

  lemma Separated(hrp: string, rest: string)
    requires AllKnown(rest)
    ensures var l := hrp + "1" + rest;
            LastOne(l, |l|) == |hrp| && l[..|hrp|] == hrp && l[|hrp| + 1..] == rest
  {
    NoOnes(rest);
    var l, p := hrp + "1" + rest, |hrp|;
    assert forall i :: p < i < |l| ==> l[i] == rest[i - p - 1];
    LastOneIs(l, p);
  }

  // The string behind a separator is read back.
  lemma DecodedParts(hrp: string, s: string, values: seq<nat>)
    requires |hrp| >= 1 && Fit(values, 5) && |values| >= 6 && !Mixed(s)
    requires Lower(s) == hrp + "1" + Spell(values)
    ensures Decoded(hrp, s) == Checked(hrp, values)
  {
    ReadSpelled(values);
    Separated(hrp, Spell(values));
  }

  lemma SpelledWhole(hrp: string, text: Text)
    requires IsText(text)
    ensures Fit(text.data + SumOf(hrp, text), 5)
    ensures Encoded(hrp, text) == hrp + "1" + Spell(text.data + SumOf(hrp, text))
  {
    SumOfFits(hrp, text);
    SpellConcat(text.data, SumOf(hrp, text));
  }

  // Values check out to a text exactly when they are its data and checksum.
  lemma CheckedIs(hrp: string, values: seq<nat>, text: Text)
    requires |values| >= 6 && Fit(values, 5) && IsText(text)
    ensures Checked(hrp, values) == Ok(text) <==> values == text.data + SumOf(hrp, text)
  {
    if Checked(hrp, values) == Ok(text) {
      CheckedSum(hrp, values);
    }
    if values == text.data + SumOf(hrp, text) {
      SummedChecks(hrp, text);
    }
  }

  lemma CheckedSum(hrp: string, values: seq<nat>)
    requires |values| >= 6 && Fit(values, 5) && Checked(hrp, values).Ok?
    ensures values == Checked(hrp, values).value.data + SumOf(hrp, Checked(hrp, values).value)
  {
    var t := values[|values| - 6..];
    var text := Checked(hrp, values).value;
    Reached(hrp, values);
    assert values == text.data + t;
    SumReaches(hrp, text, t);
  }

  lemma SummedChecks(hrp: string, text: Text)
    requires IsText(text)
    ensures Checked(hrp, text.data + SumOf(hrp, text)) == Ok(text)
  {
    SumOfFits(hrp, text);
    SumReaches(hrp, text, SumOf(hrp, text));
    ReachingChecks(hrp, text, SumOf(hrp, text));
  }

  lemma ReachingChecks(hrp: string, text: Text, t: seq<nat>)
    requires text.encoding <= 1 && |t| == 6 && Residue(hrp, text.data + t) == Target(text.encoding)
    ensures Checked(hrp, text.data + t) == Ok(text)
  {
    var values := text.data + t;
    assert values[..|values| - 6] == text.data;
  }

  lemma Reached(hrp: string, values: seq<nat>)
    requires |values| >= 6 && Checked(hrp, values).Ok?
    ensures Residue(hrp, values) == Target(Checked(hrp, values).value.encoding)
    ensures Checked(hrp, values).value.data == values[..|values| - 6]
  {}

  /** A string decodes to a text exactly when it is that text's encoding written in one letter case. */
  lemma DecodesExactly(hrp: string, s: string, text: Text)
    requires |hrp| >= 1 && IsText(text)
    ensures Decoded(hrp, s) == Ok(text) <==> !Mixed(s) && Lower(s) == Encoded(hrp, text)
  {
    var whole := text.data + SumOf(hrp, text);
    SpelledWhole(hrp, text);
    if !Mixed(s) && Lower(s) == Encoded(hrp, text) {
      DecodedParts(hrp, s, whole);
      CheckedIs(hrp, whole, text);
    }
    if Decoded(hrp, s) == Ok(text) {
      DecodedText(hrp, s);
    }
  }

  lemma CutAtOne(l: string, p: nat)
    requires p < |l| && l[p] == '1'
    ensures l == l[..p] + "1" + l[p + 1..]
  {}

  lemma DecodedValues(hrp: string, s: string) returns (values: seq<nat>)
    requires Decoded(hrp, s).Ok?
    ensures !Mixed(s) && Fit(values, 5) && |values| >= 6
    ensures Lower(s) == hrp + "1" + Spell(values) && Decoded(hrp, s) == Checked(hrp, values)
  {
    var l := Lower(s);
    var p := LastOne(l, |l|);
    CutAtOne(l, p);
    var rest := l[p + 1..];
    SpellRead(rest);
    values := Read(rest);
  }

  // Whatever is decoded was encoded.
  lemma DecodedText(hrp: string, s: string)
    requires Decoded(hrp, s).Ok?
    ensures var text := Decoded(hrp, s).value;
            IsText(text) && !Mixed(s) && Lower(s) == Encoded(hrp, text)
  {
    var values := DecodedValues(hrp, s);
    var text := Decoded(hrp, s).value;
    CheckedFits(hrp, values);
    CheckedIs(hrp, values, text);
    SpelledWhole(hrp, text);
  }

  lemma CheckedFits(hrp: string, values: seq<nat>)
    requires |values| >= 6 && Fit(values, 5) && Checked(hrp, values).Ok?
    ensures IsText(Checked(hrp, values).value)
  {}

  /** Two accepted strings of the same encoding never differ only within a window of six symbols. */
  lemma BurstRejected(hrp: string, s: string, u: string, before: seq<nat>, x: seq<nat>, y: seq<nat>, after: seq<nat>)
    requires |hrp| >= 1 && |x| == |y| <= 6 && x != y && |before + x + after| >= 6
    requires Fit(x, 5) && Fit(y, 5) && Fit(before + x + after, 5) && Fit(before + y + after, 5)
    requires Lower(s) == hrp + "1" + Spell(before + x + after) && Decoded(hrp, s).Ok?
    requires Lower(u) == hrp + "1" + Spell(before + y + after) && Decoded(hrp, u).Ok?
    ensures Decoded(hrp, u).value.encoding != Decoded(hrp, s).value.encoding
  {
    DecodedParts(hrp, s, before + x + after);
    DecodedParts(hrp, u, before + y + after);
    BurstResidue(hrp, before, x, y, after);
    Reached(hrp, before + x + after);
    Reached(hrp, before + y + after);
  }

  lemma BurstResidue(hrp: string, before: seq<nat>, x: seq<nat>, y: seq<nat>, after: seq<nat>)
    requires |x| == |y| <= 6 && x != y && Fit(x, 5) && Fit(y, 5)
    ensures Residue(hrp, before + x + after) != Residue(hrp, before + y + after)
  {
    States(0);
    BurstDetected(BECH32, 1, Expand(hrp) + before, x, y, after);
    Regrouped(Expand(hrp), before, x, after);
    Regrouped(Expand(hrp), before, y, after);
  }

  lemma Regrouped(a: seq<nat>, b: seq<nat>, c: seq<nat>, d: seq<nat>)
    ensures a + b + c + d == a + (b + c + d)
  {}

  // ----- segwit addresses -----

  datatype SegwitInfo = SegwitInfo(version: nat, program: seq<nat>, encoding: nat)

  ghost function SegwitDecoded(hrp: string, s: string): Result<SegwitInfo> {
    match Decoded(hrp, s)
    case Err(e) => Err(e)
    case Ok(text) =>
      if text.data == [] then Err(BadLength)
      else if text.data[0] > 16 then Err(UnsupportedVersion)
      else match Regroup(text.data[1..], 5, 8, false)
        case Err(e) => Err(e)
        case Ok(program) =>
          if |program| < 2 || |program| > 40 then Err(BadLength)
          else if text.data[0] == 0 && |program| != 20 && |program| != 32 then Err(BadLength)
          else if (text.data[0] == 0 && text.encoding != 0) || (text.data[0] >= 1 && text.encoding != 1) then
            Err(BadChecksum)
          else Ok(SegwitInfo(text.data[0], program, text.encoding))
  }

  method SegwitDecode(hrp: string, s: string) returns (result: Result<SegwitInfo>)
    requires Ascii(hrp)
    ensures result == SegwitDecoded(hrp, s)
  {
    var dec := Bech32Decode(hrp, s);
    if dec.Err? {
      return Err(dec.error);
    }
    var enc, data := dec.value.encoding, dec.value.data;
    if data == [] {
      return Err(BadLength);
    }
    var version := data[0];
    if version > 16 {
      return Err(UnsupportedVersion);
    }
    var prog := ConvertBits.ConvertBits(data[1..], 5, 8, false);
    if prog.Err? {
      return Err(prog.error);
    }
    if |prog.value| < 2 || |prog.value| > 40 {
      return Err(BadLength);
    }
    if version == 0 && |prog.value| != 20 && |prog.value| != 32 {
      return Err(BadLength);
    }
    if (version == 0 && enc != 0) || (version >= 1 && enc != 1) {
      return Err(BadChecksum);
    }
    return Ok(SegwitInfo(version, prog.value, enc));
  }

  // The witness programs of BIP 141, with the encoding that BIP 350 gives them.
  ghost predicate IsProgram(info: SegwitInfo) {
    && info.version <= 16 && Fit(info.program, 8) && 2 <= |info.program| <= 40
    && (info.version == 0 ==> |info.program| == 20 || |info.program| == 32)
    && info.encoding == (if info.version == 0 then 0 else 1)
  }

  ghost function SegwitText(info: SegwitInfo): Text
    requires IsProgram(info)
  {
    Text(info.encoding, [info.version] + Regroup(info.program, 8, 5, true).value)
  }

  lemma SegwitTextIs(info: SegwitInfo)
    requires IsProgram(info)
    ensures IsText(SegwitText(info))
  {
    RegroupFits(info.program, 8, 5, true);
    FiveBits(info.version);
  }

  /** A string is accepted as an address of a program exactly when it is the standard's encoding of it in
      one letter case: every program has one address and every address one program. */
  lemma SegwitDecodesExactly(hrp: string, s: string, info: SegwitInfo)
    requires |hrp| >= 1
    ensures SegwitDecoded(hrp, s) == Ok(info) <==>
              IsProgram(info) && !Mixed(s) && (SegwitTextIs(info); Lower(s) == Encoded(hrp, SegwitText(info)))
  {
    if IsProgram(info) {
      SegwitTextIs(info);
      var text := SegwitText(info);
      DecodesExactly(hrp, s, text);
      WidenNarrow(info.program, 8, 5);
      assert text.data[1..] == Regroup(info.program, 8, 5, true).value;
    }
    if SegwitDecoded(hrp, s) == Ok(info) {
      SegwitAccepted(hrp, s, info);
    }
  }

  // The program regrouped again gives the data it came from.
  lemma SegwitSame(data: seq<nat>, info: SegwitInfo)
    requires Fit(data, 5) && data != [] && Regroup(data[1..], 5, 8, false) == Ok(info.program)
    requires data[0] == info.version && IsProgram(info)
    ensures SegwitText(info) == Text(info.encoding, data)
  {
    NarrowWiden(data[1..], 5, 8);
    assert data == [data[0]] + data[1..];
  }

  lemma SegwitAccepted(hrp: string, s: string, info: SegwitInfo)
    requires SegwitDecoded(hrp, s) == Ok(info)
    ensures IsProgram(info) && SegwitText(info) == Decoded(hrp, s).value
    ensures !Mixed(s) && IsText(SegwitText(info)) && Lower(s) == Encoded(hrp, SegwitText(info))
  {
    DecodedText(hrp, s);
    var text := Decoded(hrp, s).value;
    RegroupFits(text.data[1..], 5, 8, false);
    SegwitSame(text.data, info);
  }
}
