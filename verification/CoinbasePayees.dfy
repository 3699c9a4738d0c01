/** client_session.cpp: who is paid what by the coinbase transactions. */
module CoinbasePayees {
  import opened Coinbase
  import opened Options

  // All that the outputs pay to one script.
  ghost function Paid(outputs: seq<Output>, script: seq<Byte>): nat {
    if outputs == [] then 0
    else
      var last := outputs[|outputs| - 1];
      Paid(outputs[..|outputs| - 1], script) + To(last.script, script, last.value)
  }

  ghost function To(payee: seq<Byte>, script: seq<Byte>, amount: nat): nat {
    if payee == script then amount else 0
  }

  lemma {:induction false} PaidConcat(x: seq<Output>, y: seq<Output>, script: seq<Byte>)
    ensures Paid(x + y, script) == Paid(x, script) + Paid(y, script)
  {
    if y == [] {
      assert x + y == x;
    } else {
      PaidConcat(x, y[..|y| - 1], script);
      assert (x + y)[..|x + y| - 1] == x + y[..|y| - 1];
    }
  }

  lemma PaidOne(o: Output, script: seq<Byte>)
    ensures Paid([o], script) == To(o.script, script, o.value)
  {
    assert [o][..0] == [];
  }

  lemma PaidTwo(o: Output, p: Output, script: seq<Byte>)
    ensures Paid([o, p], script) == To(o.script, script, o.value) + To(p.script, script, p.value)
  {
    PaidOne(o, script);
    PaidOne(p, script);
    PaidConcat([o], [p], script);
    assert [o] + [p] == [o, p];
  }

  // The integer nearest to x, the upper one of two.
  ghost predicate Nearest(n: int, x: real) {
    n as real <= x + 0.5 < (n + 1) as real
  }

  // percent of the amount.
  ghost function Part(amount: int, percent: real): real {
    amount as real * percent / 100.0
  }

  lemma ShareNearest(amount: int, percent: real)
    requires amount >= 0 && percent >= 0.0
    ensures Nearest(Share(amount, percent), Part(amount, percent)) && Share(amount, percent) >= 0
  {
    ShareBounds(amount, percent);
    Product(amount as real, percent);
  }

  // ----- the session's coinbase -----

  // f is the stated value of a fund, or its standard share of the whole.
  ghost predicate FundAmount(fund: Fund, whole: int, percent: real, f: int) {
    if fund.value > 0 then f == fund.value else Nearest(f, Part(whole, percent))
  }

  // d is the donated share of what is left; a share of more than all of it is not taken.
  ghost predicate DonationAmount(donation: Donation, left: int, d: int) {
    if donation.percent <= 0.0 || donation.script.None? then d == 0
    else
      var x := Part(left, donation.percent);
      Nearest(d, x) || (d == 0 && x + 0.5 >= (left + 1) as real)
  }

  // What the two funds take on eCash, and what is donated of the rest.
  ghost predicate Amounts(j: Job, fund: int, staking: int, donated: int) {
    && (if j.ecash then FundAmount(j.minerFund, j.value, 32.0, fund) && FundAmount(j.staking, j.value, 10.0, staking)
        else fund == 0 && staking == 0)
    && DonationAmount(j.donation, j.value - fund - staking, donated)
    && 0 <= fund && 0 <= staking && 0 <= donated && fund + staking + donated <= j.value
  }

  /** Where the funds fit into the coinbase value, the miner's script is paid what the funds and the donation leave, the
      donation's script its share of what the funds leave, and on eCash each fund's script its own amount. */
  lemma PaidTo(j: Job, miner: seq<Byte>, script: seq<Byte>) returns (fund: nat, staking: nat, donated: nat)
    requires InRange(j) && MinerFund(j) + Staking(j) <= j.value
    ensures Amounts(j, fund, staking, donated)
    ensures Paid(Payouts(j, miner), script) ==
            To(miner, script, j.value - fund - staking - donated)
            + (if j.donation.script.Some? then To(j.donation.script.value, script, donated) else 0)
            + if j.ecash then To(FundScript(j.minerFund, FUND_SCRIPT), script, fund)
                              + To(FundScript(j.staking, STAKING_SCRIPT), script, staking) else 0
  {
    FundBounds(j);
    DonationBounds(j);
    fund, staking, donated := MinerFund(j), Staking(j), DonationOf(j);
    AmountsAre(j);
    PartsPaid(j, script);
    var first := [Output(Unsigned(Remaining(j) - DonationOf(j)), miner)];
    PaidOne(first[0], script);
    PaidFour(first, DonationPart(j), FundPart(j), CommitmentPart(j), script);
  }

  lemma PaidFour(a: seq<Output>, b: seq<Output>, c: seq<Output>, d: seq<Output>, script: seq<Byte>)
    ensures Paid(a + b + c + d, script) == Paid(a, script) + Paid(b, script) + Paid(c, script) + Paid(d, script)
  {
    PaidConcat(a, b, script);
    PaidConcat(a + b, c, script);
    PaidConcat(a + b + c, d, script);
  }

  lemma AmountsAre(j: Job)
    requires InRange(j) && MinerFund(j) + Staking(j) <= j.value
    ensures Amounts(j, MinerFund(j), Staking(j), DonationOf(j))
  {
    FundBounds(j);
    DonationBounds(j);
    ShareNearest(j.value, 32.0);
    ShareNearest(j.value, 10.0);
    if j.donation.percent > 0.0 {
      ShareNearest(Remaining(j), j.donation.percent);
    }
  }

  lemma PartsPaid(j: Job, script: seq<Byte>)
    requires InRange(j) && 0 <= DonationOf(j) <= j.value
    ensures Paid(DonationPart(j), script) ==
            if j.donation.script.Some? then To(j.donation.script.value, script, DonationOf(j)) else 0
    ensures Paid(CommitmentPart(j), script) == 0
    ensures 0 <= MinerFund(j) && 0 <= Staking(j)
    ensures Paid(FundPart(j), script) ==
            if j.ecash then To(FundScript(j.minerFund, FUND_SCRIPT), script, MinerFund(j))
                            + To(FundScript(j.staking, STAKING_SCRIPT), script, Staking(j)) else 0
  {
    FundBounds(j);
    if DonationOf(j) > 0 {
      PaidOne(DonationPart(j)[0], script);
    }
    if Commits(j) {
      PaidOne(CommitmentPart(j)[0], script);
    }
    if j.ecash {
      PaidTwo(FundPart(j)[0], FundPart(j)[1], script);
    }
  }

  // ----- Dogecoin -----

  /** On Dogecoin the miner's script is paid the value less the donation, and the donation's script its share. */
  lemma DogePaidTo(value: int, miner: seq<Byte>, donation: Donation, script: seq<Byte>) returns (donated: nat)
    requires 0 <= value < TWO64
    ensures DonationAmount(donation, value, donated) && donated <= value
    ensures Paid(DogeOutputs(value, miner, donation), script) ==
            To(miner, script, value - donated)
            + if donation.script.Some? then To(donation.script.value, script, donated) else 0
  {
    if donation.percent > 0.0 {
      ShareNearest(value, donation.percent);
    }
    donated := DogeDonation(value, donation);
    var first := Output(Unsigned(value - donated), miner);
    PaidOne(first, script);
    if donated > 0 {
      var second := Output(Unsigned(donated), donation.script.value);
      PaidOne(second, script);
      PaidConcat([first], [second], script);
    } else {
      assert [first] + [] == [first];
    }
  }
}
