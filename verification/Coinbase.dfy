/** client_session.cpp: coinbase assembly on bytes.  The second half of a session's coinbase pays the miner, the
    donation and on eCash the two funds; segwitify_coinbase turns the whole transaction into the witness form of
    BIP 144; build_doge_coinbase writes a whole Dogecoin coinbase. */
module Coinbase {
  import Bits
  import opened Options
  import Sequences

  type Byte = Bits.Byte

  const TWO63: int := 0x8000_0000_0000_0000
  const TWO64: int := 0x1_0000_0000_0000_0000

  datatype Output = Output(value: nat, script: seq<Byte>)

  // ----- little-endian numbers -----

  function LE(v: nat, n: nat): (b: seq<Byte>)
    ensures |b| == n
  {
    if n == 0 then [] else var low: Byte := v % 256; [low] + LE(v / 256, n - 1)
  }

  function FromLE(b: seq<Byte>): nat {
    if b == [] then 0 else var low: nat := b[0]; low + 256 * FromLE(b[1..])
  }

  // v as a machine word of n bytes
  function Word(v: nat, n: nat): nat {
    if n == 0 then 0 else v % 256 + 256 * Word(v / 256, n - 1)
  }

  lemma {:induction false} LERoundTrip(v: nat, n: nat)
    ensures FromLE(LE(v, n)) == Word(v, n)
    decreases n
  {
    if n != 0 {
      LERoundTrip(v / 256, n - 1);
      assert LE(v, n)[1..] == LE(v / 256, n - 1);
    }
  }

  lemma WordFits(v: nat)
    requires v < TWO64
    ensures Word(v, 8) == v
  {
    var a, b, c, d := v / 256, v / 256 / 256, v / 256 / 256 / 256, v / 256 / 256 / 256 / 256;
    FourBytes(d);
    assert Word(v, 8) == v % 256 + 256 * Word(a, 7);
    assert Word(a, 7) == a % 256 + 256 * Word(b, 6);
    assert Word(b, 6) == b % 256 + 256 * Word(c, 5);
    assert Word(c, 5) == c % 256 + 256 * Word(d, 4);
  }

  lemma FourBytes(v: nat)
    requires v < 0x1_0000_0000
    ensures Word(v, 4) == v
  {
    var a, b, c := v / 256, v / 256 / 256, v / 256 / 256 / 256;
    assert Word(v, 4) == v % 256 + 256 * Word(a, 3);
    assert Word(a, 3) == a % 256 + 256 * Word(b, 2);
    assert Word(b, 2) == b % 256 + 256 * Word(c, 1);
    assert Word(c, 1) == c % 256 + 256 * Word(c / 256, 0);
  }

  // ----- outputs -----

  ghost predicate Small(o: Output) {
    o.value < TWO64 && |o.script| < 253
  }

  ghost predicate AllSmall(outputs: seq<Output>) {
    forall i :: 0 <= i < |outputs| ==> Small(outputs[i])
  }

  function Length(n: nat): Byte {
    n % 256
  }

  // The length is one byte, which below 253 is the whole varint.
  function OutputBytes(o: Output): seq<Byte> {
    LE(o.value, 8) + [Length(|o.script|)] + o.script
  }

  function OutputsBytes(outputs: seq<Output>): seq<Byte> {
    if outputs == [] then [] else OutputBytes(outputs[0]) + OutputsBytes(outputs[1..])
  }

  // The first output of b and what follows it.
  function ParseOutput(b: seq<Byte>): Option<(Output, seq<Byte>)> {
    if |b| < 9 then None
    else
      var n: nat := b[8];
      if n >= 253 || |b| < 9 + n then None
      else Some((Output(FromLE(b[..8]), b[9..9 + n]), b[9 + n..]))
  }

  function ParseOutputs(b: seq<Byte>, n: nat): Option<(seq<Output>, seq<Byte>)> {
    if n == 0 then Some(([], b))
    else
      var first := ParseOutput(b);
      if first.None? then None
      else
        var rest := ParseOutputs(first.value.1, n - 1);
        if rest.None? then None else Some(([first.value.0] + rest.value.0, rest.value.1))
  }

  lemma OutputRoundTrip(o: Output, rest: seq<Byte>)
    requires Small(o)
    ensures ParseOutput(OutputBytes(o) + rest) == Some((o, rest))
  {
    var b := OutputBytes(o) + rest;
    assert b[..8] == LE(o.value, 8) && b[8] == |o.script|;
    assert b[9..9 + |o.script|] == o.script && b[9 + |o.script|..] == rest;
    LERoundTrip(o.value, 8);
    WordFits(o.value);
  }

  lemma {:induction false} OutputsRoundTrip(outputs: seq<Output>, rest: seq<Byte>)
    requires AllSmall(outputs)
    ensures ParseOutputs(OutputsBytes(outputs) + rest, |outputs|) == Some((outputs, rest))
    decreases outputs
  {
    if outputs == [] {
      assert OutputsBytes(outputs) + rest == rest;
    } else {
      var more := OutputsBytes(outputs[1..]) + rest;
      Sequences.Associates(OutputBytes(outputs[0]), OutputsBytes(outputs[1..]), rest);
      OutputRoundTrip(outputs[0], more);
      OutputsRoundTrip(outputs[1..], rest);
      Sequences.FirstOf(outputs, 0);
    }
  }

  lemma {:induction false} OneMoreOutput(x: seq<Output>, o: Output)
    ensures OutputsBytes(x + [o]) == OutputsBytes(x) + OutputBytes(o)
    decreases x
  {
    if x == [] {
      assert [o][1..] == [];
      assert OutputsBytes([o]) == OutputBytes(o) && x + [o] == [o];
    } else {
      OneMoreOutput(x[1..], o);
      assert (x + [o])[1..] == x[1..] + [o];
      Sequences.Associates(OutputBytes(x[0]), OutputsBytes(x[1..]), OutputBytes(o));
    }
  }

  const FINAL: seq<Byte> := [255, 255, 255, 255]
  const LOCKTIME: seq<Byte> := [0, 0, 0, 0]

  // Everything after the input script: sequence, declared count, outputs, lock time.
  function Tail(count: nat, outputs: seq<Output>): seq<Byte> {
    FINAL + [Length(count)] + OutputsBytes(outputs) + LOCKTIME
  }

  // Reads the declared number of outputs and expects nothing but the lock time after them.
  function ParseTail(b: seq<Byte>): Option<seq<Output>> {
    if |b| < 5 || b[..4] != FINAL then None
    else
      var parsed := ParseOutputs(b[5..], b[4]);
      if parsed.None? || parsed.value.1 != LOCKTIME then None else Some(parsed.value.0)
  }

  lemma TailRoundTrip(outputs: seq<Output>)
    requires AllSmall(outputs) && |outputs| < 253
    ensures ParseTail(Tail(|outputs|, outputs)) == Some(outputs)
  {
    var b := Tail(|outputs|, outputs);
    assert b[..4] == FINAL && b[4] == |outputs| && b[5..] == OutputsBytes(outputs) + LOCKTIME;
    OutputsRoundTrip(outputs, LOCKTIME);
  }

  function Total(outputs: seq<Output>): nat {
    if outputs == [] then 0 else Total(outputs[..|outputs| - 1]) + outputs[|outputs| - 1].value
  }

  lemma TotalAppend(x: seq<Output>, o: Output)
    ensures Total(x + [o]) == Total(x) + o.value
  {
    assert (x + [o])[..|x|] == x;
  }

  // ----- who is paid -----

  // script is what the address decodes to; None when it is empty or cannot be decoded.
  datatype Donation = Donation(percent: real, script: Option<seq<Byte>>)

  // The eCash funds; a value that is not positive means the standard share, and no script the fallback one.
  datatype Fund = Fund(value: int, script: Option<seq<Byte>>)

  datatype Job = Job(value: int, ecash: bool, donation: Donation, minerFund: Fund, staking: Fund,
                     segwit: bool, commitment: seq<Byte>)

  const FUND_SCRIPT: seq<Byte> := [0xa9, 0x14, 0xd3, 0x7c, 0x4c, 0x80, 0x9f, 0xe9, 0x84, 0x0e, 0x7b, 0xfa, 0x77, 0xb8,
                                   0x6b, 0xd4, 0x71, 0x63, 0xf6, 0xfb, 0x6c, 0x60, 0x87]
  const STAKING_SCRIPT: seq<Byte> := [0x76, 0xa9, 0x14, 0x0e, 0x1c, 0xe9, 0x66, 0x92, 0xcf, 0x15, 0x15, 0x59, 0x85,
                                      0xbf, 0x01, 0x02, 0x64, 0x72, 0x54, 0x28, 0xd3, 0x23, 0x3e, 0x88, 0xac]

  // To the nearest integer, halves away from zero.
  function Round(x: real): int {
    if x >= 0.0 then (x + 0.5).Floor else -((0.5 - x).Floor)
  }

  function Share(value: int, percent: real): int {
    Round(value as real * percent / 100.0)
  }

  function FundValue(f: Fund, total: int, percent: real): int {
    if f.value > 0 then f.value else Share(total, percent)
  }

  function FundScript(f: Fund, fallback: seq<Byte>): seq<Byte> {
    if f.script.Some? then f.script.value else fallback
  }

  function MinerFund(j: Job): int {
    if j.ecash then FundValue(j.minerFund, j.value, 32.0) else 0
  }

  function Staking(j: Job): int {
    if j.ecash then FundValue(j.staking, j.value, 10.0) else 0
  }

  function Remaining(j: Job): int {
    j.value - MinerFund(j) - Staking(j)
  }

  function DonationOf(j: Job): int {
    if j.donation.percent > 0.0 && j.donation.script.Some? then
      var d := Share(Remaining(j), j.donation.percent);
      if d > Remaining(j) then 0 else d
    else 0
  }

  // A signed amount as the 64-bit word that is written.
  function Unsigned(v: int): (u: nat)
    ensures 0 <= v < TWO64 ==> u == v
    ensures u < TWO64
  {
    v % TWO64
  }

  predicate Commits(j: Job) {
    j.segwit && j.commitment != []
  }

  // What is paid besides the miner's own output.
  function DonationPart(j: Job): seq<Output> {
    if DonationOf(j) > 0 then [Output(Unsigned(DonationOf(j)), j.donation.script.value)] else []
  }

  function FundPart(j: Job): seq<Output> {
    if j.ecash then [Output(Unsigned(MinerFund(j)), FundScript(j.minerFund, FUND_SCRIPT)),
                     Output(Unsigned(Staking(j)), FundScript(j.staking, STAKING_SCRIPT))] else []
  }

  function CommitmentPart(j: Job): seq<Output> {
    if Commits(j) then [Output(0, j.commitment)] else []
  }

  function Payouts(j: Job, miner: seq<Byte>): seq<Output> {
    [Output(Unsigned(Remaining(j) - DonationOf(j)), miner)] + DonationPart(j) + FundPart(j) + CommitmentPart(j)
  }

  // The number of outputs that is written in front of them.
  function Declared(j: Job): nat {
    (if DonationOf(j) > 0 then 2 else 1) + if j.ecash then 2 else if Commits(j) then 1 else 0
  }

  // The outputs written so far, behind sequence and count.
  ghost predicate Written(cb: seq<Byte>, count: nat, done: seq<Output>) {
    cb == FINAL + [Length(count)] + OutputsBytes(done)
  }

  method AppendOutput(cb: seq<Byte>, ghost count: nat, ghost done: seq<Output>, value: int, script: seq<Byte>)
    returns (r: seq<Byte>)
    requires Written(cb, count, done)
    ensures Written(r, count, done + [Output(Unsigned(value), script)])
  {
    r := cb + LE(Unsigned(value), 8) + [Length(|script|)] + script;
    OneMoreOutput(done, Output(Unsigned(value), script));
    assert r == FINAL + [Length(count)] + (OutputsBytes(done) + OutputBytes(Output(Unsigned(value), script)));
  }

  method AppendFunds(cb: seq<Byte>, ghost count: nat, ghost done: seq<Output>, j: Job, fund: int, staking: int)
    returns (r: seq<Byte>)
    requires Written(cb, count, done) && fund == MinerFund(j) && staking == Staking(j)
    ensures Written(r, count, done + FundPart(j))
  {
    r := cb;
    if j.ecash {
      ghost var o := Output(Unsigned(fund), FundScript(j.minerFund, FUND_SCRIPT));
      ghost var p := Output(Unsigned(staking), FundScript(j.staking, STAKING_SCRIPT));
      r := AppendOutput(r, count, done, fund, FundScript(j.minerFund, FUND_SCRIPT));
      r := AppendOutput(r, count, done + [o], staking, FundScript(j.staking, STAKING_SCRIPT));
      assert done + [o] + [p] == done + [o, p];
    } else {
      Sequences.Unit(done);
    }
  }

  method AppendDonation(cb: seq<Byte>, ghost count: nat, ghost done: seq<Output>, j: Job, donation: int)
    returns (r: seq<Byte>)
    requires Written(cb, count, done) && donation == DonationOf(j)
    ensures Written(r, count, done + DonationPart(j))
  {
    r := cb;
    if donation > 0 {
      r := AppendOutput(r, count, done, donation, j.donation.script.value);
    } else {
      Sequences.Unit(done);
    }
  }

  method AppendCommitment(cb: seq<Byte>, ghost count: nat, ghost done: seq<Output>, j: Job) returns (r: seq<Byte>)
    requires Written(cb, count, done)
    ensures Written(r, count, done + CommitmentPart(j))
  {
    r := cb;
    if Commits(j) {
      r := AppendOutput(r, count, done, 0, j.commitment);
    } else {
      Sequences.Unit(done);
    }
  }

  method AppendPayouts(cb: seq<Byte>, ghost count: nat, j: Job, miner: seq<Byte>, remaining: int, donation: int)
    returns (r: seq<Byte>)
    requires Written(cb, count, []) && remaining == Remaining(j) && donation == DonationOf(j)
    ensures Written(r, count, Payouts(j, miner))
  {
    ghost var first := Output(Unsigned(remaining - donation), miner);
    assert [] + [first] == [first];
    r := AppendOutput(cb, count, [], remaining - donation, miner);
    r := AppendDonation(r, count, [first], j, donation);
    r := AppendFunds(r, count, [first] + DonationPart(j), j, MinerFund(j), Staking(j));
    r := AppendCommitment(r, count, [first] + DonationPart(j) + FundPart(j), j);
  }

  lemma Started(count: nat)
    ensures Written(FINAL + [Length(count)], count, [])
  {}

  lemma Finished(cb: seq<Byte>, count: nat, done: seq<Output>)
    requires Written(cb, count, done)
    ensures cb + LOCKTIME == Tail(count, done)
  {}

  method BuildSessionCoinbase2(j: Job, miner: seq<Byte>) returns (cb2: seq<Byte>)
    ensures cb2 == if miner == [] then [] else Tail(Declared(j), Payouts(j, miner))
  {
    if miner == [] {
      return [];
    }
    var fund, staking := MinerFund(j), Staking(j);
    var remaining := j.value - fund - staking;
    var donation := 0;
    if j.donation.percent > 0.0 && j.donation.script.Some? {
      donation := Share(remaining, j.donation.percent);
      if donation > remaining {
        donation := 0;
      }
    }
    var count := (if donation > 0 then 2 else 1) + if j.ecash then 2 else if Commits(j) then 1 else 0;
    cb2 := FINAL + [Length(count)];
    Started(count);
    cb2 := AppendPayouts(cb2, count, j, miner, remaining, donation);
    Finished(cb2, count, Payouts(j, miner));
    cb2 := cb2 + LOCKTIME;
  }

  // ----- what is written reads back and adds up -----

  ghost predicate ScriptsSmall(j: Job, miner: seq<Byte>) {
    && |miner| < 253 && (j.donation.script.Some? ==> |j.donation.script.value| < 253) && |j.commitment| < 253
    && |FundScript(j.minerFund, FUND_SCRIPT)| < 253 && |FundScript(j.staking, STAKING_SCRIPT)| < 253
  }

  lemma PayoutsSmall(j: Job, miner: seq<Byte>)
    requires ScriptsSmall(j, miner)
    ensures AllSmall(Payouts(j, miner)) && |Payouts(j, miner)| <= 5
  {}

  /** The second half reads back as exactly its outputs, except where eCash would also carry a witness commitment:
      that output is written but not counted, and the bytes do not read back. */
  lemma ReadsBack(j: Job, miner: seq<Byte>)
    requires ScriptsSmall(j, miner)
    ensures j.ecash && Commits(j) ==> ParseTail(Tail(Declared(j), Payouts(j, miner))).None?
    ensures !(j.ecash && Commits(j)) ==> ParseTail(Tail(Declared(j), Payouts(j, miner))) == Some(Payouts(j, miner))
  {
    PayoutsSmall(j, miner);
    var outputs := Payouts(j, miner);
    if j.ecash && Commits(j) {
      var counted, last := outputs[..|outputs| - 1], outputs[|outputs| - 1];
      assert outputs == counted + [last] && last == Output(0, j.commitment);
      Uncounted(counted, last);
    } else {
      TailRoundTrip(outputs);
    }
  }

  lemma Uncounted(counted: seq<Output>, last: Output)
    requires AllSmall(counted) && |counted| < 253
    ensures ParseTail(Tail(|counted|, counted + [last])).None?
  {
    var b := Tail(|counted|, counted + [last]);
    var rest := OutputBytes(last) + LOCKTIME;
    OneMoreOutput(counted, last);
    assert b[..4] == FINAL && b[4] == |counted| && b[5..] == OutputsBytes(counted) + rest;
    OutputsRoundTrip(counted, rest);
  }

  lemma ShareBounds(value: int, percent: real)
    requires value >= 0 && percent >= 0.0
    ensures Share(value, percent) >= 0
    ensures percent <= 100.0 ==> Share(value, percent) <= value
  {
    var v := value as real;
    Product(v, percent);
  }

  lemma Product(v: real, percent: real)
    requires v >= 0.0 && percent >= 0.0
    ensures v * percent / 100.0 >= 0.0
    ensures percent <= 100.0 ==> v * percent / 100.0 <= v
  {
    if percent <= 100.0 {
      assert v * (100.0 - percent) >= 0.0;
      assert v * percent <= v * 100.0;
    }
  }

  ghost predicate InRange(j: Job) {
    0 <= j.value < TWO63 && j.minerFund.value < TWO63 && j.staking.value < TWO63
  }

  lemma FundBounds(j: Job)
    requires InRange(j)
    ensures 0 <= MinerFund(j) < TWO63 && 0 <= Staking(j) < TWO63
  {
    ShareBounds(j.value, 32.0);
    ShareBounds(j.value, 10.0);
  }

  lemma DonationBounds(j: Job)
    ensures Remaining(j) >= 0 ==> 0 <= DonationOf(j) <= Remaining(j)
    ensures DonationOf(j) <= 0 || DonationOf(j) <= Remaining(j)
  {
    if Remaining(j) >= 0 && j.donation.percent > 0.0 {
      ShareBounds(Remaining(j), j.donation.percent);
    }
  }

  lemma {:induction false} TotalConcat(x: seq<Output>, y: seq<Output>)
    ensures Total(x + y) == Total(x) + Total(y)
  {
    if y == [] {
      assert x + y == x;
    } else {
      TotalConcat(x, y[..|y| - 1]);
      assert (x + y)[..|x + y| - 1] == x + y[..|y| - 1];
    }
  }

  lemma TotalOne(o: Output)
    ensures Total([o]) == o.value
  {
    TotalAppend([], o);
    assert [] + [o] == [o];
  }

  lemma TotalTwo(o: Output, p: Output)
    ensures Total([o, p]) == o.value + p.value
  {
    TotalOne(o);
    TotalAppend([o], p);
    assert [o] + [p] == [o, p];
  }

  lemma PartTotals(j: Job)
    ensures Total(DonationPart(j)) == if DonationOf(j) > 0 then Unsigned(DonationOf(j)) else 0
    ensures Total(FundPart(j)) == if j.ecash then Unsigned(MinerFund(j)) + Unsigned(Staking(j)) else 0
    ensures Total(CommitmentPart(j)) == 0
  {
    if DonationOf(j) > 0 {
      TotalOne(DonationPart(j)[0]);
    }
    TotalTwo(Output(Unsigned(MinerFund(j)), FundScript(j.minerFund, FUND_SCRIPT)),
             Output(Unsigned(Staking(j)), FundScript(j.staking, STAKING_SCRIPT)));
    TotalOne(Output(0, j.commitment));
  }

  lemma PayoutsTotal(j: Job, miner: seq<Byte>)
    ensures Total(Payouts(j, miner))
            == Unsigned(Remaining(j) - DonationOf(j)) + (if DonationOf(j) > 0 then Unsigned(DonationOf(j)) else 0)
               + if j.ecash then Unsigned(MinerFund(j)) + Unsigned(Staking(j)) else 0
  {
    var first := [Output(Unsigned(Remaining(j) - DonationOf(j)), miner)];
    TotalOne(first[0]);
    PartTotals(j);
    FourTotals(first, DonationPart(j), FundPart(j), CommitmentPart(j));
  }

  lemma FourTotals(a: seq<Output>, b: seq<Output>, c: seq<Output>, d: seq<Output>)
    ensures Total(a + b + c + d) == Total(a) + Total(b) + Total(c) + Total(d)
  {
    TotalConcat(a, b);
    TotalConcat(a + b, c);
    TotalConcat(a + b + c, d);
  }

  /** The outputs pay out exactly the coinbase value if and only if the two funds fit into it. */
  lemma AddsUp(j: Job, miner: seq<Byte>)
    requires InRange(j)
    ensures Total(Payouts(j, miner)) == j.value <==> MinerFund(j) + Staking(j) <= j.value
  {
    FundBounds(j);
    DonationBounds(j);
    PayoutsTotal(j, miner);
    Wrapped(Remaining(j) - DonationOf(j));
  }

  // A slightly negative amount is written as a huge one.
  lemma Wrapped(v: int)
    ensures -TWO64 < v < 0 ==> Unsigned(v) == v + TWO64
  {}

  // ----- the whole transaction and its witness form -----

  datatype Tx = Tx(version: seq<Byte>, script: seq<Byte>, outputs: seq<Output>)

  ghost predicate IsCoinbase(tx: Tx) {
    |tx.version| == 4 && |tx.script| < 253 && AllSmall(tx.outputs) && |tx.outputs| < 253
  }

  // One input spending nothing, with the given script.
  function InputBytes(script: seq<Byte>): seq<Byte> {
    [1] + Bits.ZeroBytes(32) + FINAL + [Length(|script|)] + script
  }

  function BodyBytes(tx: Tx): seq<Byte> {
    InputBytes(tx.script) + FINAL + [Length(|tx.outputs|)] + OutputsBytes(tx.outputs)
  }

  function Legacy(tx: Tx): seq<Byte> {
    tx.version + BodyBytes(tx) + LOCKTIME
  }

  const MARKER: seq<Byte> := [0, 1]

  // One input's witness: a single item of 32 zeros.
  function WitnessBytes(): seq<Byte> {
    [1, 32] + Bits.ZeroBytes(32)
  }

  // BIP 144: marker and flag after the version, the witness before the lock time.
  function WitnessForm(tx: Tx): seq<Byte> {
    tx.version + MARKER + BodyBytes(tx) + WitnessBytes() + LOCKTIME
  }

  function Segwitify(b: seq<Byte>): seq<Byte> {
    if |b| < 8 then b
    else b[..4] + MARKER + b[4..|b| - 4] + WitnessBytes() + b[|b| - 4..]
  }

  lemma SegwitifyIsWitnessForm(tx: Tx)
    requires |tx.version| == 4
    ensures Segwitify(Legacy(tx)) == WitnessForm(tx)
  {
    var b := Legacy(tx);
    assert b[..4] == tx.version && b[4..|b| - 4] == BodyBytes(tx) && b[|b| - 4..] == LOCKTIME;
  }

  // Reads input and outputs; what follows must be the given rest.
  function ParseBody(b: seq<Byte>, rest: seq<Byte>): Option<(seq<Byte>, seq<Output>)> {
    if |b| < 38 || b[..37] != InputHead() then None
    else
      var n: nat := b[37];
      if n >= 253 || |b| < 38 + n + 5 || b[38 + n..42 + n] != FINAL then None
      else
        var parsed := ParseOutputs(b[43 + n..], b[42 + n]);
        if parsed.None? || parsed.value.1 != rest then None else Some((b[38..38 + n], parsed.value.0))
  }

  function ParseWitnessForm(b: seq<Byte>): Option<Tx> {
    if |b| < 6 || b[4..6] != MARKER then None
    else
      var body := ParseBody(b[6..], WitnessBytes() + LOCKTIME);
      if body.None? then None else Some(Tx(b[..4], body.value.0, body.value.1))
  }

  lemma BodyRoundTrip(tx: Tx, rest: seq<Byte>)
    requires IsCoinbase(tx)
    ensures ParseBody(BodyBytes(tx) + rest, rest) == Some((tx.script, tx.outputs))
  {
    var tail := OutputsBytes(tx.outputs) + rest;
    BodyCut(tx, rest);
    OutputsRoundTrip(tx.outputs, rest);
    ReadsBody(BodyBytes(tx) + rest, tx.script, tx.outputs, tail, rest);
  }

  // The fields of a body, at their places.
  ghost predicate Fields(b: seq<Byte>, script: seq<Byte>, count: nat, tail: seq<Byte>) {
    && |script| < 253 && |b| == 43 + |script| + |tail|
    && b[..37] == InputHead() && b[37] == |script| && b[38..38 + |script|] == script
    && b[38 + |script|..42 + |script|] == FINAL && b[42 + |script|] == count && b[43 + |script|..] == tail
  }

  lemma ReadsBody(b: seq<Byte>, script: seq<Byte>, outputs: seq<Output>, tail: seq<Byte>, rest: seq<Byte>)
    requires Fields(b, script, |outputs|, tail) && ParseOutputs(tail, |outputs|) == Some((outputs, rest))
    ensures ParseBody(b, rest) == Some((script, outputs))
  {}

  lemma BodyCut(tx: Tx, rest: seq<Byte>)
    requires |tx.script| < 253 && |tx.outputs| < 253
    ensures Fields(BodyBytes(tx) + rest, tx.script, |tx.outputs|, OutputsBytes(tx.outputs) + rest)
  {
    BodyShape(tx, rest);
    CutBody(InputHead(), Length(|tx.script|), tx.script, Length(|tx.outputs|), OutputsBytes(tx.outputs) + rest);
  }

  function InputHead(): seq<Byte> {
    [1] + Bits.ZeroBytes(32) + FINAL
  }

  lemma BodyShape(tx: Tx, rest: seq<Byte>)
    ensures BodyBytes(tx) + rest
            == InputHead() + [Length(|tx.script|)] + tx.script + FINAL + [Length(|tx.outputs|)]
               + (OutputsBytes(tx.outputs) + rest)
  {}

  lemma CutBody(head: seq<Byte>, n: Byte, script: seq<Byte>, count: Byte, tail: seq<Byte>)
    requires |head| == 37 && |script| == n
    ensures var b := head + [n] + script + FINAL + [count] + tail;
            && |b| == 43 + |script| + |tail| && b[..37] == head && b[37] == n && b[38..38 + |script|] == script
            && b[38 + |script|..42 + |script|] == FINAL && b[42 + |script|] == count && b[43 + |script|..] == tail
  {}

  // What a node hashes for the txid: the legacy bytes of the transaction it reads.
  function Stripped(b: seq<Byte>): seq<Byte> {
    var tx := ParseWitnessForm(b);
    if tx.Some? then Legacy(tx.value) else b
  }

  lemma WitnessFormReadsBack(tx: Tx)
    requires IsCoinbase(tx)
    ensures ParseWitnessForm(WitnessForm(tx)) == Some(tx)
  {
    var b, rest := WitnessForm(tx), WitnessBytes() + LOCKTIME;
    assert b == tx.version + MARKER + (BodyBytes(tx) + rest);
    Cut(tx.version, MARKER, BodyBytes(tx) + rest);
    BodyRoundTrip(tx, rest);
  }

  lemma Cut(a: seq<Byte>, b: seq<Byte>, c: seq<Byte>)
    requires |a| == 4 && |b| == 2
    ensures (a + b + c)[..4] == a && (a + b + c)[4..6] == b && (a + b + c)[6..] == c
  {}

  /** Adding the witness gives the BIP 144 form of the same transaction, and taking it out again restores the
      legacy bytes: whatever hash the txid is, it does not change. */
  lemma TxidUnchanged(tx: Tx, hash: seq<Byte> -> nat)
    requires IsCoinbase(tx)
    ensures Segwitify(Legacy(tx)) == WitnessForm(tx) && ParseWitnessForm(WitnessForm(tx)) == Some(tx)
    ensures Stripped(Segwitify(Legacy(tx))) == Legacy(tx) && hash(Stripped(Segwitify(Legacy(tx)))) == hash(Legacy(tx))
  {
    SegwitifyIsWitnessForm(tx);
    WitnessFormReadsBack(tx);
  }

  // What a session submits: the input of the first half around the whole script, then the second half.
  function WholeCoinbase(j: Job, miner: seq<Byte>, version: seq<Byte>, script: seq<Byte>): seq<Byte> {
    version + InputBytes(script) + Tail(Declared(j), Payouts(j, miner))
  }

  lemma Regroups(v: seq<Byte>, a: seq<Byte>, f: seq<Byte>, n: seq<Byte>, o: seq<Byte>, l: seq<Byte>)
    ensures v + a + (f + n + o + l) == v + (a + f + n + o) + l
  {}

  lemma CountIs(j: Job, miner: seq<Byte>)
    ensures |Payouts(j, miner)| == Declared(j) + if j.ecash && Commits(j) then 1 else 0
  {}

  lemma WholeIsLegacy(j: Job, miner: seq<Byte>, version: seq<Byte>, script: seq<Byte>)
    requires !(j.ecash && Commits(j))
    ensures WholeCoinbase(j, miner, version, script) == Legacy(Tx(version, script, Payouts(j, miner)))
  {
    CountIs(j, miner);
    Regroups(version, InputBytes(script), FINAL, [Length(Declared(j))], OutputsBytes(Payouts(j, miner)), LOCKTIME);
  }

  // The node counts the declared outputs and finds one more.
  lemma WholeUncounted(j: Job, miner: seq<Byte>, version: seq<Byte>, script: seq<Byte>)
    requires ScriptsSmall(j, miner) && |version| == 4 && |script| < 253 && j.ecash && Commits(j)
    ensures ParseWitnessForm(Segwitify(WholeCoinbase(j, miner, version, script))).None?
  {
    PayoutsSmall(j, miner);
    CountIs(j, miner);
    var outputs, rest := Payouts(j, miner), WitnessBytes() + LOCKTIME;
    var counted, last := outputs[..|outputs| - 1], outputs[|outputs| - 1];
    var body := InputBytes(script) + FINAL + [Length(|counted|)] + OutputsBytes(outputs);
    assert outputs == counted + [last];
    OneMoreOutput(counted, last);
    Regroups(version, InputBytes(script), FINAL, [Length(|counted|)], OutputsBytes(outputs), LOCKTIME);
    SegwitifyInserts(version, body);
    Cut(version, MARKER, body + rest);
    var more := OutputBytes(last) + rest;
    Sequences.Regroups(InputBytes(script) + FINAL + [Length(|counted|)], OutputsBytes(counted), OutputBytes(last),
                       rest);
    BodyCut(Tx(version, script, counted), more);
    OutputsRoundTrip(counted, more);
    BodyLeft(body + rest, script, counted, OutputsBytes(counted) + more, more, rest);
  }

  lemma BodyLeft(b: seq<Byte>, script: seq<Byte>, outputs: seq<Output>, tail: seq<Byte>, left: seq<Byte>,
                 rest: seq<Byte>)
    requires Fields(b, script, |outputs|, tail) && ParseOutputs(tail, |outputs|) == Some((outputs, left))
    requires left != rest
    ensures ParseBody(b, rest).None?
  {}

  lemma SegwitifyInserts(version: seq<Byte>, body: seq<Byte>)
    requires |version| == 4
    ensures Segwitify(version + body + LOCKTIME) == version + MARKER + (body + (WitnessBytes() + LOCKTIME))
  {
    var b := version + body + LOCKTIME;
    assert b[..4] == version && b[4..|b| - 4] == body && b[|b| - 4..] == LOCKTIME;
  }

  /** The whole coinbase in its witness form: a node reads exactly the payouts from it and its txid is that of the
      legacy bytes, unless an eCash job carries a commitment; and the outputs it reads pay exactly the coinbase
      value if and only if the two funds fit into it. */
  lemma WholePaysOut(j: Job, miner: seq<Byte>, version: seq<Byte>, script: seq<Byte>)
    requires ScriptsSmall(j, miner) && |version| == 4 && |script| < 253
    ensures var b := WholeCoinbase(j, miner, version, script);
            var tx := ParseWitnessForm(Segwitify(b));
            && (tx.None? <==> j.ecash && Commits(j))
            && (tx.Some? ==> tx.value == Tx(version, script, Payouts(j, miner)) && Stripped(Segwitify(b)) == b)
            && (tx.Some? && InRange(j) ==>
                  (Total(tx.value.outputs) == j.value <==> MinerFund(j) + Staking(j) <= j.value))
  {
    if j.ecash && Commits(j) {
      WholeUncounted(j, miner, version, script);
    } else {
      PayoutsSmall(j, miner);
      WholeIsLegacy(j, miner, version, script);
      TxidUnchanged(Tx(version, script, Payouts(j, miner)), b => 0);
      if InRange(j) {
        AddsUp(j, miner);
      }
    }
  }

  // ----- the Dogecoin coinbase -----

  function DogeDonation(value: int, donation: Donation): int {
    if donation.percent > 0.0 && donation.script.Some? then
      var d := Share(value, donation.percent);
      if d < 0 || d > value then 0 else d
    else 0
  }

  function DogeOutputs(value: int, miner: seq<Byte>, donation: Donation): seq<Output> {
    var d := DogeDonation(value, donation);
    [Output(Unsigned(value - d), miner)] + if d > 0 then [Output(Unsigned(d), donation.script.value)] else []
  }

  method BuildDogeCoinbase(scriptSig: seq<Byte>, value: int, miner: seq<Byte>, donation: Donation)
    returns (cb: seq<Byte>)
    ensures |scriptSig| > 0xfc ==> cb == []
    ensures |scriptSig| <= 0xfc ==> cb == Legacy(Tx([1, 0, 0, 0], scriptSig, DogeOutputs(value, miner, donation)))
  {
    if |scriptSig| > 0xfc {
      return [];
    }
    var d := 0;
    if donation.percent > 0.0 && donation.script.Some? {
      d := Share(value, donation.percent);
      if d < 0 || d > value {
        d := 0;
      }
    }
    var count := if d > 0 then 2 else 1;
    var head: seq<Byte> := [1, 0, 0, 0] + InputBytes(scriptSig);
    var tail := FINAL + [Length(count)];
    ghost var done: seq<Output> := [];
    tail := AppendOutput(tail, count, done, value - d, miner);
    done := done + [Output(Unsigned(value - d), miner)];
    if d > 0 {
      tail := AppendOutput(tail, count, done, d, donation.script.value);
      done := done + [Output(Unsigned(d), donation.script.value)];
    }
    assert done == DogeOutputs(value, miner, donation);
    cb := head + tail + LOCKTIME;
    LegacyParts(scriptSig, done, head, tail);
  }

  lemma LegacyParts(script: seq<Byte>, outputs: seq<Output>, head: seq<Byte>, tail: seq<Byte>)
    requires head == [1, 0, 0, 0] + InputBytes(script) && Written(tail, |outputs|, outputs)
    ensures head + tail + LOCKTIME == Legacy(Tx([1, 0, 0, 0], script, outputs))
  {}

  /** The Dogecoin outputs always pay out exactly the value. */
  lemma DogeAddsUp(value: int, miner: seq<Byte>, donation: Donation)
    requires 0 <= value < TWO64
    ensures Total(DogeOutputs(value, miner, donation)) == value
  {
    var d := DogeDonation(value, donation);
    var first := Output(Unsigned(value - d), miner);
    TotalAppend([], first);
    assert [] + [first] == [first];
    if d > 0 {
      TotalAppend([first], Output(Unsigned(d), donation.script.value));
    }
  }
}
