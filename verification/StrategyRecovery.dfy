/** yumtech_paper_arbitrage.py: what a recovery is for.  Over every run, the recovery order that is tracked undoes
    the imbalance of the two legs on the venue that holds the surplus and within the loss limit; when it ends,
    the record states what is left of the imbalance. */
module StrategyRecovery {
  import opened Options
  import opened Strategy

  /** Filling o in full brings the two legs' imbalance to zero: a surplus is sold where it was bought, a shortage is
      bought where too much was sold.  At the price of that venue's leg, the buffer and the venue's own fee cost no
      more than the limit. */
  ghost predicate Undoes(c: Config, intent: Intent, o: Order)
    requires BothLegs(intent)
  {
    var gap, deal := Exposure(intent), intent.candidate;
    && gap + Signed(o.side, o.requested) == 0.0 && o.requested > EPSILON
    && (gap > 0.0 ==> o.venue == deal.buyVenue) && (gap < 0.0 ==> o.venue == deal.sellVenue)
    && RecoveryCost(c, o.venue, o.requested, if gap > 0.0 then deal.buyVwap else deal.sellVwap) <= c.maxLoss
  }

  function VenueFee(c: Config, venue: Venue): real {
    match venue
    case Btcturk => c.btcturkFee
    case BinanceTr => c.binanceFee
  }

  function RecoveryCost(c: Config, venue: Venue, amount: real, price: real): real {
    amount * price * (c.bufferRate + VenueFee(c, venue))
  }

  ghost predicate Recovering(c: Config, s: State) {
    forall id :: id in s.orders && s.orders[id].role == RecoveryRole ==>
                   var i := s.orders[id].intent;
                   i in s.intents && BothLegs(s.intents[i]) && Undoes(c, s.intents[i], s.orders[id])
  }

  lemma CostIs(c: Config, intent: Intent, o: Order)
    ensures WorstLoss(c, intent, o) ==
            RecoveryCost(c, o.venue, o.requested,
                         if o.side == Sell then intent.candidate.buyVwap else intent.candidate.sellVwap)
  {}

  // The order placed for an imbalance undoes it.
  lemma PlacedUndoes(c: Config, i: nat, intent: Intent, answer: Answer)
    requires BothLegs(intent) && Recovers(c, i, intent, Exposure(intent), answer)
    ensures Undoes(c, intent, RecoveryOrder(i, intent, Exposure(intent)))
  {
    CostIs(c, intent, RecoveryOrder(i, intent, Exposure(intent)));
  }

  lemma TickRecovers(c: Config, s: State, e: Input)
    requires Valid(s) && e.Tick? && Fresh(c, s, e) && Recovering(c, s)
    ensures Recovering(c, OnTick(c, s, e))
  {
    if Opens(c, s, e) {
      OpenedState(c, s, e);
      var t := Opened(s, e);
      assert Recovering(c, t);
    }
  }

  lemma FillRecovers(c: Config, s: State, id: nat, row: Row)
    requires Recovering(c, s)
    ensures Recovering(c, DidFill(s, id, row))
  {}

  // While a recovery is tracked, only its own order can still end.
  lemma OthersEnded(s: State, i: nat, id: nat, r: nat)
    requires OpenIntent(s, i) && id in s.orders && r in s.orders && s.orders[r].role == RecoveryRole
    requires !s.orders[id].completed
    ensures id == r
  {
    var ids := Ids(s.trace, i);
    assert RecoveryRole in ids && ids[RecoveryRole] == r;
    assert s.intents[i].recoveryRequested;
    assert s.orders[id].role in ids && ids[s.orders[id].role] == id;
  }

  lemma EndRecovers(c: Config, s: State, id: nat, leg: Leg, answer: Answer)
    requires Valid(s) && id in s.orders && !s.orders[id].completed && LegFits(s, id, leg) && Recovering(c, s)
    requires answer.OrderId? ==> answer.id !in s.orders
    ensures Recovering(c, Ended(c, s, id, leg, answer))
  {
    var i :| OpenIntent(s, i);
    LegSet(s, i, id, leg);
    var u := WithLeg(s, id, leg);
    if s.orders[id].role == RecoveryRole {
      FinalizedIdle(u, i);
    } else {
      NoRecovery(s, i, id);
      MaybeRecovers(c, u, i, answer);
    }
  }

  lemma MaybeRecovers(c: Config, u: State, i: nat, answer: Answer)
    requires i in u.intents && forall r :: r in u.orders ==> u.orders[r].role != RecoveryRole
    ensures Recovering(c, MaybeRecoverOrFinalize(c, u, i, answer))
  {
    var intent := u.intents[i];
    if BothLegs(intent) && Recovers(c, i, intent, Exposure(intent), answer) {
      PlacedUndoes(c, i, intent, answer);
    }
  }

  lemma NoRecovery(s: State, i: nat, id: nat)
    requires OpenIntent(s, i) && id in s.orders && !s.orders[id].completed && s.orders[id].role != RecoveryRole
    ensures forall r :: r in s.orders ==> s.orders[r].role != RecoveryRole
    ensures !s.intents[i].recoveryRequested
  {
    forall r | r in s.orders
      ensures s.orders[r].role != RecoveryRole
    {
      if s.orders[r].role == RecoveryRole {
        OthersEnded(s, i, id, r);
      }
    }
    assert RecoveryRole !in Ids(s.trace, i);
  }

  lemma StepRecovers(c: Config, s: State, e: Input)
    requires Valid(s) && Fresh(c, s, e) && Recovering(c, s)
    ensures Recovering(c, Step(c, s, e))
  {
    match e {
      case Tick(_, _, _, _, _, _) => TickRecovers(c, s, e);
      case FillEvent(id, row) => FillRecovers(c, s, id, row);
      case CompleteEvent(id, _, _, answer) =>
        if id in s.orders && !s.orders[id].completed {
          EndRecovers(c, s, id, EndingLeg(c, s, e), answer);
        }
      case FailEvent(id, answer) =>
        if id in s.orders && !s.orders[id].completed {
          EndRecovers(c, s, id, EndingLeg(c, s, e), answer);
        }
    }
  }

  /** Over every run, a tracked recovery order undoes the imbalance between the two legs of its intent. */
  lemma {:induction false} RunRecovers(c: Config, inputs: seq<Input>)
    requires FreshRun(c, inputs)
    ensures Recovering(c, Run(c, inputs))
  {
    if inputs != [] {
      var m := |inputs| - 1;
      Prefix(c, inputs, m);
      RunRecovers(c, inputs[..m]);
      RunValid(c, inputs[..m]);
      assert Fresh(c, Run(c, inputs[..m]), inputs[m]);
      StepRecovers(c, Run(c, inputs[..m]), inputs[m]);
    }
  }

  // ----- the end of a recovery -----

  // What an order has filled when e ends it.
  function FilledBase(o: Order, e: Input): real {
    if e.FailEvent? then 0.0
    else if e.CompleteEvent? && o.fills == [] then e.base
    else SumBase(o.fills)
  }

  ghost predicate Ends(s: State, e: Input, role: Role) {
    && (e.CompleteEvent? || e.FailEvent?) && e.order in s.orders && !s.orders[e.order].completed
    && s.orders[e.order].role == role
  }

  /** The event that ends a recovery emits the intent's record.  It states the imbalance less what the recovery filled:
      nothing is left exactly when the recovery filled what it asked for, and a recovery that fills no more than
      that neither enlarges the imbalance nor turns it round. */
  lemma RecoveryRecord(c: Config, inputs: seq<Input>, e: Input)
    requires FreshRun(c, inputs) && Ends(Run(c, inputs), e, RecoveryRole)
    ensures var s := Run(c, inputs);
            var o := s.orders[e.order];
            && o.intent in s.intents && BothLegs(s.intents[o.intent])
            && exists record: Effect :: Step(c, s, e).trace == s.trace + [record]
                 && record.Completed? && record.intent == o.intent
                 && Left(Exposure(s.intents[o.intent]), o, FilledBase(o, e), record.exposure)
  {
    RunValid(c, inputs);
    RunRecovers(c, inputs);
    var s := Run(c, inputs);
    var i :| OpenIntent(s, i);
    OwnIntent(s, i, e.order);
    RecoveryEnded(c, s, i, e);
  }

  lemma RecoveryEnded(c: Config, s: State, i: nat, e: Input)
    requires i in s.intents && BothLegs(s.intents[i]) && Ends(s, e, RecoveryRole) && s.orders[e.order].intent == i
    requires Undoes(c, s.intents[i], s.orders[e.order])
    ensures var o := s.orders[e.order];
            exists record: Effect :: Step(c, s, e).trace == s.trace + [record]
              && record.Completed? && record.intent == i
              && Left(Exposure(s.intents[i]), o, FilledBase(o, e), record.exposure)
  {
    var u := WithLeg(s, e.order, EndingLeg(c, s, e));
    var record := CompletedRecord(i, u.intents[i], u.orders);
    assert Step(c, s, e) == MaybeRecoverOrFinalize(c, u, i, e.recovery) == Finalize(u, i);
    assert Finalize(u, i).trace == s.trace + [record];
  }

  // What is left of a gap.
  ghost predicate Left(gap: real, o: Order, filled: real, left: real) {
    && (left == 0.0 <==> filled == o.requested)
    && (0.0 <= filled <= o.requested ==> (if gap > 0.0 then 0.0 <= left <= gap else gap <= left <= 0.0))
  }

  // ----- the decision -----

  function Other(role: Role): Role {
    if role == BuyRole then SellRole else BuyRole
  }

  // Bought less sold, once e has ended the second of the two legs.
  function Gap(s: State, e: Input): real
    requires Ends(s, e, BuyRole) || Ends(s, e, SellRole)
    requires s.orders[e.order].intent in s.intents
    requires Other(s.orders[e.order].role) in s.intents[s.orders[e.order].intent].legs
  {
    var o := s.orders[e.order];
    var known := s.intents[o.intent].legs[Other(o.role)].filled;
    if o.role == BuyRole then FilledBase(o, e) - known else known - FilledBase(o, e)
  }

  function Surplus(deal: Candidate, gap: real): (Venue, real) {
    if gap > 0.0 then (deal.buyVenue, deal.buyVwap) else (deal.sellVenue, deal.sellVwap)
  }

  // The single new effect is a record of this imbalance.
  ghost predicate Recorded(s: State, t: State, i: nat, gap: real, balanced: bool) {
    exists profit: real :: t.trace == s.trace + [Completed(i, gap, profit, balanced)]
  }

  // The two new effects place an order that sells a surplus, or buys a shortage, of this size at this venue.
  ghost predicate Corrected(s: State, t: State, i: nat, gap: real, venue: Venue, id: nat) {
    && t.trace == s.trace + [Placed(id, i, RecoveryRole, if gap > 0.0 then Sell else Buy, Abs(gap))]
                  + [RecoverySubmitted(i)]
    && id in t.orders && t.orders[id].venue == venue
  }

  ghost predicate Decision(c: Config, s: State, t: State, e: Input, i: nat, gap: real)
    requires i in s.intents && (e.CompleteEvent? || e.FailEvent?)
  {
    var (venue, price) := Surplus(s.intents[i].candidate, gap);
    if Abs(gap) <= 0.000000000001 then Recorded(s, t, i, gap, true)
    else if e.recovery.OrderId? && RecoveryCost(c, venue, Abs(gap), price) <= c.maxLoss
    then Corrected(s, t, i, gap, venue, e.recovery.id)
    else Recorded(s, t, i, gap, false)
  }

  /** What follows when an order of one leg ends.  With the other leg outstanding nothing is sent.  Legs that agree
      within the tolerance are recorded as balanced.  Otherwise an order that undoes the difference is placed exactly
      when its cost is within the limit and the connector takes it, and else the imbalance is recorded. */
  lemma RecoveryDecided(c: Config, inputs: seq<Input>, e: Input)
    requires FreshRun(c, inputs + [e])
    requires Ends(Run(c, inputs), e, BuyRole) || Ends(Run(c, inputs), e, SellRole)
    ensures var s, t := Run(c, inputs), Step(c, Run(c, inputs), e);
            var o := s.orders[e.order];
            && o.intent in s.intents
            && if Other(o.role) in s.intents[o.intent].legs then Decision(c, s, t, e, o.intent, Gap(s, e))
               else t.trace == s.trace
  {
    var s := Run(c, inputs);
    RunAllButLast(c, inputs, e);
    RunValid(c, inputs);
    var i :| OpenIntent(s, i);
    OwnIntent(s, i, e.order);
    NoRecovery(s, i, e.order);
    if Other(s.orders[e.order].role) in s.intents[i].legs {
      Decided(c, s, i, e);
    } else {
      Outstanding(c, s, i, e);
    }
  }

  lemma OwnIntent(s: State, i: nat, id: nat)
    requires OpenIntent(s, i) && id in s.orders
    ensures s.orders[id].intent == i && i in s.intents && (RecoveryRole in s.intents[i].legs ==>
            s.intents[i].recoveryRequested)
  {}

  lemma Outstanding(c: Config, s: State, i: nat, e: Input)
    requires OpenIntent(s, i) && (Ends(s, e, BuyRole) || Ends(s, e, SellRole)) && s.orders[e.order].intent == i
    requires Other(s.orders[e.order].role) !in s.intents[i].legs
    ensures Step(c, s, e).trace == s.trace
  {
    var u := WithLeg(s, e.order, EndingLeg(c, s, e));
    assert Step(c, s, e) == MaybeRecoverOrFinalize(c, u, i, e.recovery);
    assert !BothLegs(u.intents[i]);
  }

  lemma RunAllButLast(c: Config, inputs: seq<Input>, e: Input)
    requires FreshRun(c, inputs + [e])
    ensures FreshRun(c, inputs)
  {
    Prefix(c, inputs + [e], |inputs|);
    assert (inputs + [e])[..|inputs|] == inputs;
  }

  lemma Decided(c: Config, s: State, i: nat, e: Input)
    requires OpenIntent(s, i) && (Ends(s, e, BuyRole) || Ends(s, e, SellRole))
    requires s.orders[e.order].intent == i && !s.intents[i].recoveryRequested
    requires RecoveryRole !in s.intents[i].legs && Other(s.orders[e.order].role) in s.intents[i].legs
    ensures Decision(c, s, Step(c, s, e), e, i, Gap(s, e))
  {
    var u := WithLeg(s, e.order, EndingLeg(c, s, e));
    var intent, gap := u.intents[i], Gap(s, e);
    assert Exposure(intent) == gap;
    CostIs(c, intent, RecoveryOrder(i, intent, gap));
    assert Step(c, s, e) == MaybeRecoverOrFinalize(c, u, i, e.recovery);
    if Abs(gap) <= EPSILON || !Recovers(c, i, intent, gap, e.recovery) {
      assert Finalize(u, i).trace == s.trace + [CompletedRecord(i, intent, u.orders)];
    } else {
      RecoveryIs(u, i, e.recovery.id);
    }
  }

  // ----- a round without imbalance -----

  /** A tick that opens a candidate buys its amount on the buying venue and sells it on the selling venue.  When both
      orders then complete with one amount and no fill was reported, the record is balanced and its profit is what
      the sale brought, less what the purchase cost, less the fee of each order at the rate of its own venue. */
  lemma PlainRound(c: Config, s: State, e: Input, base: real, paid: real, earned: real)
    requires Valid(s) && Opens(c, s, e) && Fresh(c, s, e) && e.buy.OrderId? && e.sell.OrderId?
    ensures var i, deal := e.intent, e.candidate.value;
            var t := Step(c, s, e);
            var u := Step(c, t, CompleteEvent(e.buy.id, base, paid, NoOrder));
            && t.trace == s.trace + [Placed(e.buy.id, i, BuyRole, Buy, deal.base)]
                          + [Placed(e.sell.id, i, SellRole, Sell, deal.base)] + [Submitted(i)]
            && e.buy.id in t.orders && t.orders[e.buy.id].venue == deal.buyVenue
            && e.sell.id in t.orders && t.orders[e.sell.id].venue == deal.sellVenue
            && Step(c, u, CompleteEvent(e.sell.id, base, earned, NoOrder)).trace
               == t.trace + [Completed(i, 0.0, Margin(c, deal, paid, earned), true)]
  {
    OpenedState(c, s, e);
    OpenedTraceIs(s, e);
    assert Step(c, s, e) == Opened(s, e);
    BothComplete(c, Opened(s, e), e, base, paid, earned);
  }

  function Margin(c: Config, deal: Candidate, paid: real, earned: real): real {
    earned - paid - Times(paid, VenueFee(c, deal.buyVenue)) - Times(earned, VenueFee(c, deal.sellVenue))
  }

  lemma BothComplete(c: Config, t: State, e: Input, base: real, paid: real, earned: real)
    requires e.Tick? && e.candidate.Some? && e.buy.OrderId? && e.sell.OrderId? && e.buy.id != e.sell.id
    requires t.intents.Keys == {e.intent} && t.intents[e.intent].legs == map[] && !t.intents[e.intent].recoveryRequested
    requires e.buy.id in t.orders && t.orders[e.buy.id] == FirstOrder(e, BuyRole)
    requires e.sell.id in t.orders && t.orders[e.sell.id] == FirstOrder(e, SellRole)
    ensures var u := Step(c, t, CompleteEvent(e.buy.id, base, paid, NoOrder));
            Step(c, u, CompleteEvent(e.sell.id, base, earned, NoOrder)).trace
            == t.trace + [Completed(e.intent, 0.0, Margin(c, e.candidate.value, paid, earned), true)]
  {
    var i, buy, sell, deal := e.intent, e.buy.id, e.sell.id, e.candidate.value;
    var bought := LegFromOrder(c, buy, t.orders[buy], base, paid);
    var sold := LegFromOrder(c, sell, t.orders[sell], base, earned);
    var u := WithLeg(t, buy, bought);
    assert Step(c, t, CompleteEvent(buy, base, paid, NoOrder)) == u;
    var v := WithLeg(u, sell, sold);
    assert Step(c, u, CompleteEvent(sell, base, earned, NoOrder)) == MaybeRecoverOrFinalize(c, v, i, NoOrder);
    LegIs(c, buy, t.orders[buy], base, paid);
    LegIs(c, sell, t.orders[sell], base, earned);
    BookedRecord(c, i, v.intents[i], v.orders, deal, base, paid, earned);
    assert Finalize(v, i).trace == t.trace + [CompletedRecord(i, v.intents[i], v.orders)];
  }

  // The leg of a completed order without fills.
  function CompletedLeg(c: Config, side: Side, venue: Venue, requested: real, base: real, quote: real): Leg {
    var fee := Times(quote, VenueFee(c, venue));
    Leg(side, requested, base, fee, Own([Row(base, quote, fee)]))
  }

  lemma LegIs(c: Config, id: nat, o: Order, base: real, quote: real)
    requires o.fills == []
    ensures LegFromOrder(c, id, o, base, quote) == CompletedLeg(c, o.side, o.venue, o.requested, base, quote)
  {}

  lemma BookedRecord(c: Config, i: nat, intent: Intent, orders: map<nat, Order>, deal: Candidate,
                     base: real, paid: real, earned: real)
    requires BothLegs(intent) && RecoveryRole !in intent.legs
    requires intent.legs[BuyRole] == CompletedLeg(c, Buy, deal.buyVenue, deal.base, base, paid)
    requires intent.legs[SellRole] == CompletedLeg(c, Sell, deal.sellVenue, deal.base, base, earned)
    ensures CompletedRecord(i, intent, orders) == Completed(i, 0.0, Margin(c, deal, paid, earned), true)
  {
    OneRow(intent.legs[BuyRole], orders);
    OneRow(intent.legs[SellRole], orders);
  }

  lemma OneRow(leg: Leg, orders: map<nat, Order>)
    requires leg.rows.Own? && |leg.rows.rows| == 1
    ensures SumQuote(RowsOf(leg, orders)) == leg.rows.rows[0].quote
  {
    SumsAppend([], leg.rows.rows[0]);
    assert leg.rows.rows == [] + [leg.rows.rows[0]];
  }
}
