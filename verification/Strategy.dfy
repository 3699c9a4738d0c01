/** yumtech_paper_arbitrage.py: the event-driven strategy.  A tick opens one intent with a buy and a sell
    order; fill, completion and failure events arrive in any order; an imbalance is recovered once; the
    intent ends with one completed record. */
module Strategy {
  import opened Options

  datatype Side = Buy | Sell
  datatype Role = BuyRole | SellRole | RecoveryRole
  datatype Venue = Btcturk | BinanceTr

  // One fill row: base, quote and fee in TRY.
  datatype Row = Row(base: real, quote: real, fee: real)

  datatype Order = Order(intent: nat, role: Role, side: Side, venue: Venue, requested: real, fills: seq<Row>,
                         completed: bool)

  // A leg made from an order shares the order's list of fills; otherwise it has its own.
  datatype Rows = Own(rows: seq<Row>) | Shared(order: nat)

  datatype Leg = Leg(side: Side, requested: real, filled: real, fee: real, rows: Rows)

  datatype Candidate = Candidate(buyVenue: Venue, sellVenue: Venue, base: real, buyVwap: real, sellVwap: real)

  datatype Intent = Intent(candidate: Candidate, legs: map<Role, Leg>, recoveryRequested: bool)

  // What the strategy does to the outside: orders placed and records emitted.
  datatype Effect = Placed(order: nat, intent: nat, role: Role, side: Side, amount: real)
                  | Submitted(intent: nat)
                  | RecoverySubmitted(intent: nat)
                  | Completed(intent: nat, exposure: real, profit: real, balanced: bool)

  datatype State = State(orders: map<nat, Order>, intents: map<nat, Intent>, lastSubmit: real, trace: seq<Effect>)

  datatype Config = Config(cooldown: real, bufferRate: real, maxLoss: real, btcturkFee: real, binanceFee: real)

  // A connector call returns an order id, nothing, or raises.
  datatype Answer = OrderId(id: nat) | NoOrder

  datatype Input = Tick(ready: bool, now: real, candidate: Option<Candidate>, intent: nat, buy: Answer, sell: Answer)
                 | FillEvent(order: nat, row: Row)
                 | CompleteEvent(order: nat, base: real, quote: real, recovery: Answer)
                 | FailEvent(order: nat, recovery: Answer)

  const EPSILON := 0.000000000001

  function FeeRate(c: Config, venue: Venue): real {
    if venue == Btcturk then c.btcturkFee else c.binanceFee
  }

  function Abs(x: real): real {
    if x < 0.0 then -x else x
  }

  function Signed(side: Side, x: real): real {
    if side == Buy then x else -x
  }

  // ----- legs -----

  function SumBase(rows: seq<Row>): real {
    if rows == [] then 0.0 else SumBase(rows[..|rows| - 1]) + rows[|rows| - 1].base
  }

  function SumQuote(rows: seq<Row>): real {
    if rows == [] then 0.0 else SumQuote(rows[..|rows| - 1]) + rows[|rows| - 1].quote
  }

  function SumFee(rows: seq<Row>): real {
    if rows == [] then 0.0 else SumFee(rows[..|rows| - 1]) + rows[|rows| - 1].fee
  }

  function FailedLeg(side: Side, requested: real): Leg {
    Leg(side, requested, 0.0, 0.0, Own([]))
  }

  function Times(x: real, y: real): real {
    x * y
  }

  // The row taken from the completion event when no fill was reported.
  function EventRow(c: Config, o: Order, base: real, quote: real): Row {
    Row(base, quote, Times(quote, FeeRate(c, o.venue)))
  }

  function LegFromOrder(c: Config, id: nat, o: Order, base: real, quote: real): Leg {
    if o.fills == [] then
      var row := EventRow(c, o, base, quote);
      Leg(o.side, o.requested, row.base, row.fee, Own([row]))
    else
      Leg(o.side, o.requested, SumBase(o.fills), SumFee(o.fills), Shared(id))
  }

  function RowsOf(leg: Leg, orders: map<nat, Order>): seq<Row> {
    match leg.rows
    case Own(rows) => rows
    case Shared(id) => if id in orders then orders[id].fills else []
  }

  // ----- the steps -----

  function Emit(s: State, e: Effect): State {
    s.(trace := s.trace + [e])
  }

  function WithIntent(s: State, i: nat, intent: Intent): State {
    s.(intents := s.intents[i := intent])
  }

  function PlaceOrder(s: State, id: nat, o: Order): State {
    Emit(s.(orders := s.orders[id := o]), Placed(id, o.intent, o.role, o.side, o.requested))
  }

  function BothLegs(intent: Intent): bool {
    BuyRole in intent.legs && SellRole in intent.legs
  }

  function LegExposure(leg: Leg): real {
    Signed(leg.side, leg.filled)
  }

  function LegCash(leg: Leg, orders: map<nat, Order>): real {
    -Signed(leg.side, SumQuote(RowsOf(leg, orders))) - leg.fee
  }

  function Exposure(intent: Intent): real
    requires BothLegs(intent)
  {
    intent.legs[BuyRole].filled - intent.legs[SellRole].filled
  }

  function CompletedRecord(i: nat, intent: Intent, orders: map<nat, Order>): Effect
    requires BothLegs(intent)
  {
    var buy, sell := intent.legs[BuyRole], intent.legs[SellRole];
    var exposure := Exposure(intent)
                    + if RecoveryRole in intent.legs then LegExposure(intent.legs[RecoveryRole]) else 0.0;
    var profit := SumQuote(RowsOf(sell, orders)) - SumQuote(RowsOf(buy, orders)) - buy.fee - sell.fee
                  + if RecoveryRole in intent.legs then LegCash(intent.legs[RecoveryRole], orders) else 0.0;
    Completed(i, exposure, profit, Abs(exposure) <= EPSILON)
  }

  function Without(orders: map<nat, Order>, i: nat): map<nat, Order> {
    map id | id in orders && orders[id].intent != i :: orders[id]
  }

  function Finalize(s: State, i: nat): State
    requires i in s.intents
  {
    if !BothLegs(s.intents[i]) then s
    else
      Emit(s.(intents := s.intents - {i}, orders := Without(s.orders, i)),
           CompletedRecord(i, s.intents[i], s.orders))
  }

  function RecoverySide(exposure: real): Side {
    if exposure > 0.0 then Sell else Buy
  }

  function RecoveryOrder(i: nat, intent: Intent, exposure: real): Order {
    var side, c := RecoverySide(exposure), intent.candidate;
    Order(i, RecoveryRole, side, if side == Sell then c.buyVenue else c.sellVenue, Abs(exposure), [], false)
  }

  function WorstLoss(c: Config, intent: Intent, o: Order): real {
    var reference := if o.side == Sell then intent.candidate.buyVwap else intent.candidate.sellVwap;
    Times(Times(o.requested, reference), c.bufferRate + FeeRate(c, o.venue))
  }

  // Whether a recovery order is placed.
  predicate Recovers(c: Config, i: nat, intent: Intent, exposure: real, answer: Answer) {
    Abs(exposure) > EPSILON && WorstLoss(c, intent, RecoveryOrder(i, intent, exposure)) <= c.maxLoss && answer.OrderId?
  }

  function MaybeRecoverOrFinalize(c: Config, s: State, i: nat, answer: Answer): State
    requires i in s.intents
  {
    var intent := s.intents[i];
    if !BothLegs(intent) then s
    else if Abs(Exposure(intent)) <= EPSILON then Finalize(s, i)
    else if RecoveryRole !in intent.legs && !intent.recoveryRequested then
      if Recovers(c, i, intent, Exposure(intent), answer) then
        Emit(PlaceOrder(WithIntent(s, i, intent.(recoveryRequested := true)), answer.id,
                        RecoveryOrder(i, intent, Exposure(intent))),
             RecoverySubmitted(i))
      else Finalize(s, i)
    else if RecoveryRole in intent.legs then Finalize(s, i)
    else s
  }

  // One of the two first orders, or a failed leg in its place.
  function Open(s: State, i: nat, role: Role, side: Side, venue: Venue, answer: Answer): State
    requires i in s.intents
  {
    var intent := s.intents[i];
    match answer
    case OrderId(id) => PlaceOrder(s, id, Order(i, role, side, venue, intent.candidate.base, [], false))
    case NoOrder =>
      WithIntent(s, i, intent.(legs := intent.legs[role := FailedLeg(side, intent.candidate.base)]))
  }

  function OnTick(c: Config, s: State, e: Input): State
    requires e.Tick?
  {
    if !e.ready || s.intents != map[] || e.now - s.lastSubmit < c.cooldown || e.candidate.None? then s
    else
      var candidate := e.candidate.value;
      var s1 := WithIntent(s, e.intent, Intent(candidate, map[], false));
      var s2 := Open(s1, e.intent, BuyRole, Buy, candidate.buyVenue, e.buy);
      var s3 := Open(s2, e.intent, SellRole, Sell, candidate.sellVenue, e.sell);
      var s4 := Emit(s3.(lastSubmit := e.now), Submitted(e.intent));
      if e.buy.NoOrder? && e.sell.NoOrder? then Finalize(s4, e.intent) else s4
  }

  function DidFill(s: State, id: nat, row: Row): State {
    if id !in s.orders then s
    else s.(orders := s.orders[id := s.orders[id].(fills := s.orders[id].fills + [row])])
  }

  // The order has ended with this leg.
  function Ended(c: Config, s: State, id: nat, leg: Leg, answer: Answer): State
    requires id in s.orders
  {
    var o := s.orders[id];
    var s1 := s.(orders := s.orders[id := o.(completed := true)]);
    if o.intent !in s.intents then s1
    else
      var intent := s.intents[o.intent];
      MaybeRecoverOrFinalize(c, WithIntent(s1, o.intent, intent.(legs := intent.legs[o.role := leg])), o.intent, answer)
  }

  function EndingLeg(c: Config, s: State, e: Input): Leg
    requires (e.CompleteEvent? || e.FailEvent?) && e.order in s.orders
  {
    var o := s.orders[e.order];
    if e.CompleteEvent? then LegFromOrder(c, e.order, o, e.base, e.quote) else FailedLeg(o.side, o.requested)
  }

  function Step(c: Config, s: State, e: Input): State {
    match e
    case Tick(_, _, _, _, _, _) => OnTick(c, s, e)
    case FillEvent(id, row) => DidFill(s, id, row)
    case CompleteEvent(id, _, _, answer) =>
      if id !in s.orders || s.orders[id].completed then s else Ended(c, s, id, EndingLeg(c, s, e), answer)
    case FailEvent(id, answer) =>
      if id !in s.orders || s.orders[id].completed then s else Ended(c, s, id, EndingLeg(c, s, e), answer)
  }

  // ----- what the trace says -----

  datatype Kind = PlacedKind(intent: nat, role: Role) | SubmittedKind(intent: nat) | CompletedKind(intent: nat)

  predicate Is(e: Effect, k: Kind) {
    match k
    case PlacedKind(i, role) => e.Placed? && e.intent == i && e.role == role
    case SubmittedKind(i) => e.Submitted? && e.intent == i
    case CompletedKind(i) => e.Completed? && e.intent == i
  }

  function Tally(trace: seq<Effect>, k: Kind): nat {
    if trace == [] then 0
    else Tally(trace[..|trace| - 1], k) + if Is(trace[|trace| - 1], k) then 1 else 0
  }

  // The orders placed for an intent.
  function Ids(trace: seq<Effect>, i: nat): map<Role, nat> {
    if trace == [] then map[]
    else
      var e, before := trace[|trace| - 1], Ids(trace[..|trace| - 1], i);
      if e.Placed? && e.intent == i then before[e.role := e.order] else before
  }

  lemma Emitted(trace: seq<Effect>, e: Effect)
    ensures forall k :: Tally(trace + [e], k) == Tally(trace, k) + if Is(e, k) then 1 else 0
    ensures forall i :: Ids(trace + [e], i)
                        == if e.Placed? && e.intent == i then Ids(trace, i)[e.role := e.order] else Ids(trace, i)
  {
    assert (trace + [e])[..|trace|] == trace;
  }

  // ----- the invariant -----

  /** No order is placed twice for one intent and role, no record is emitted twice, and an intent that was
      submitted has its completed record unless it is still open. */
  ghost predicate Tallied(s: State) {
    && (forall k :: Tally(s.trace, k) <= 1)
    && (forall i :: Tally(s.trace, CompletedKind(i)) == if i in s.intents then 0 else Tally(s.trace, SubmittedKind(i)))
  }

  // The tracked orders are exactly those placed for the open intent.
  ghost predicate Tracked(s: State, i: nat) {
    && (forall r :: r in Ids(s.trace, i) ==>
          Ids(s.trace, i)[r] in s.orders && s.orders[Ids(s.trace, i)[r]].role == r)
    && (forall id :: id in s.orders ==>
          s.orders[id].intent == i && s.orders[id].role in Ids(s.trace, i) && Ids(s.trace, i)[s.orders[id].role] == id)
  }

  // A leg is there once its order has ended, or when there never was one.
  ghost predicate LegsKnown(s: State, i: nat)
    requires i in s.intents && Tracked(s, i)
  {
    var intent, ids := s.intents[i], Ids(s.trace, i);
    && (forall r :: r in intent.legs ==> r in ids ==> s.orders[ids[r]].completed)
    && (forall r :: r in ids && s.orders[ids[r]].completed ==> r in intent.legs)
    && (BuyRole in ids || BuyRole in intent.legs) && (SellRole in ids || SellRole in intent.legs)
    && (RecoveryRole in intent.legs ==> RecoveryRole in ids)
    && (forall r :: r in intent.legs && intent.legs[r].rows.Shared? ==> r in ids && intent.legs[r].rows.order == ids[r])
  }

  // Roles and sides agree; a recovery was placed only for an imbalance between two known legs.
  ghost predicate Sided(s: State, i: nat)
    requires i in s.intents
  {
    var intent := s.intents[i];
    && (forall id :: id in s.orders && s.orders[id].role == BuyRole ==> s.orders[id].side == Buy)
    && (forall id :: id in s.orders && s.orders[id].role == SellRole ==> s.orders[id].side == Sell)
    && (BuyRole in intent.legs ==> intent.legs[BuyRole].side == Buy)
    && (SellRole in intent.legs ==> intent.legs[SellRole].side == Sell)
    && (intent.recoveryRequested <==> RecoveryRole in Ids(s.trace, i))
    && (intent.recoveryRequested ==> BothLegs(intent) && Abs(Exposure(intent)) > EPSILON)
  }

  // Some order of the intent has not ended.
  ghost predicate Waiting(s: State, i: nat) {
    exists id :: id in s.orders && !s.orders[id].completed
  }

  ghost predicate OpenIntent(s: State, i: nat) {
    s.intents.Keys == {i} && Tracked(s, i) && LegsKnown(s, i) && Sided(s, i) && Waiting(s, i)
    && Tally(s.trace, SubmittedKind(i)) == 1
  }

  ghost predicate Idle(s: State) {
    s.intents == map[] && s.orders == map[]
  }

  /** Either nothing is open and nothing tracked, or one intent is open and waits for a tracked order. */
  ghost predicate Valid(s: State) {
    Tallied(s) && (Idle(s) || exists i :: OpenIntent(s, i))
  }

  // ----- what the connectors guarantee -----

  predicate Opens(c: Config, s: State, e: Input) {
    e.Tick? && e.ready && s.intents == map[] && e.now - s.lastSubmit >= c.cooldown && e.candidate.Some?
  }

  // New identifiers are new.
  ghost predicate Fresh(c: Config, s: State, e: Input) {
    match e
    case Tick(_, _, _, i, buy, sell) =>
      && (forall k: Kind :: k.intent == i ==> Tally(s.trace, k) == 0) && Ids(s.trace, i) == map[]
      && (buy.OrderId? && sell.OrderId? ==> buy.id != sell.id)
    case FillEvent(_, _) => true
    case CompleteEvent(_, _, _, answer) => answer.OrderId? ==> answer.id !in s.orders
    case FailEvent(_, answer) => answer.OrderId? ==> answer.id !in s.orders
  }

  // ----- steps keep the invariant -----

  // ----- opening -----

  function FirstOrder(e: Input, role: Role): Order
    requires e.Tick? && e.candidate.Some?
  {
    var c := e.candidate.value;
    if role == BuyRole then Order(e.intent, BuyRole, Buy, c.buyVenue, c.base, [], false)
    else Order(e.intent, SellRole, Sell, c.sellVenue, c.base, [], false)
  }

  // The state once both first orders have been tried.
  ghost predicate JustOpened(s: State, t: State, e: Input)
    requires e.Tick? && e.candidate.Some?
  {
    var i, base := e.intent, e.candidate.value.base;
    && t.intents.Keys == {i} && !t.intents[i].recoveryRequested
    && (forall r :: r in t.intents[i].legs <==> (r == BuyRole && e.buy.NoOrder?) || (r == SellRole && e.sell.NoOrder?))
    && (BuyRole in t.intents[i].legs ==> t.intents[i].legs[BuyRole] == FailedLeg(Buy, base))
    && (SellRole in t.intents[i].legs ==> t.intents[i].legs[SellRole] == FailedLeg(Sell, base))
    && (forall id :: id in t.orders <==> (e.buy.OrderId? && id == e.buy.id) || (e.sell.OrderId? && id == e.sell.id))
    && (e.buy.OrderId? ==> t.orders[e.buy.id] == FirstOrder(e, BuyRole))
    && (e.sell.OrderId? ==> t.orders[e.sell.id] == FirstOrder(e, SellRole))
  }

  ghost predicate TraceOpened(s: State, t: State, e: Input)
    requires e.Tick? && e.candidate.Some?
  {
    var i := e.intent;
    && (forall r :: r in Ids(t.trace, i) <==> (r == BuyRole && e.buy.OrderId?) || (r == SellRole && e.sell.OrderId?))
    && (e.buy.OrderId? ==> Ids(t.trace, i)[BuyRole] == e.buy.id)
    && (e.sell.OrderId? ==> Ids(t.trace, i)[SellRole] == e.sell.id)
    && (forall k :: Tally(t.trace, k) == Tally(s.trace, k)
                    + if k == SubmittedKind(i) || (k == PlacedKind(i, BuyRole) && e.buy.OrderId?)
                         || (k == PlacedKind(i, SellRole) && e.sell.OrderId?) then 1 else 0)
  }

  function Opened(s: State, e: Input): State
    requires e.Tick? && e.candidate.Some?
  {
    var candidate := e.candidate.value;
    var s1 := WithIntent(s, e.intent, Intent(candidate, map[], false));
    var s2 := Open(s1, e.intent, BuyRole, Buy, candidate.buyVenue, e.buy);
    var s3 := Open(s2, e.intent, SellRole, Sell, candidate.sellVenue, e.sell);
    Emit(s3.(lastSubmit := e.now), Submitted(e.intent))
  }

  lemma OpenedState(c: Config, s: State, e: Input)
    requires Idle(s) && Opens(c, s, e) && Fresh(c, s, e)
    ensures JustOpened(s, Opened(s, e), e)
  {}

  // The trace after trying one first order.
  function Tried(trace: seq<Effect>, i: nat, role: Role, side: Side, base: real, answer: Answer): seq<Effect> {
    if answer.OrderId? then trace + [Placed(answer.id, i, role, side, base)] else trace
  }

  lemma TriedTally(trace: seq<Effect>, i: nat, role: Role, side: Side, base: real, answer: Answer)
    ensures var t := Tried(trace, i, role, side, base, answer);
            && (forall k ::
                  Tally(t, k) == Tally(trace, k) + if k == PlacedKind(i, role) && answer.OrderId? then 1 else 0)
            && Ids(t, i) == if answer.OrderId? then Ids(trace, i)[role := answer.id] else Ids(trace, i)
  {
    if answer.OrderId? {
      Emitted(trace, Placed(answer.id, i, role, side, base));
    }
  }

  lemma OpenedTrace(c: Config, s: State, e: Input)
    requires Opens(c, s, e) && Fresh(c, s, e)
    ensures TraceOpened(s, Opened(s, e), e)
  {
    var i, base := e.intent, e.candidate.value.base;
    TriedTally(s.trace, i, BuyRole, Buy, base, e.buy);
    var t1 := Tried(s.trace, i, BuyRole, Buy, base, e.buy);
    TriedTally(t1, i, SellRole, Sell, base, e.sell);
    var t2 := Tried(t1, i, SellRole, Sell, base, e.sell);
    Emitted(t2, Submitted(i));
    OpenedTraceIs(s, e);
  }

  lemma OpenedTraceIs(s: State, e: Input)
    requires e.Tick? && e.candidate.Some?
    ensures var i, base := e.intent, e.candidate.value.base;
            Opened(s, e).trace
            == Tried(Tried(s.trace, i, BuyRole, Buy, base, e.buy), i, SellRole, Sell, base, e.sell) + [Submitted(i)]
  {}

  lemma OpenedIsOpen(s: State, t: State, e: Input)
    requires e.Tick? && e.candidate.Some? && JustOpened(s, t, e) && TraceOpened(s, t, e)
    requires e.buy.OrderId? || e.sell.OrderId?
    requires e.buy.OrderId? && e.sell.OrderId? ==> e.buy.id != e.sell.id
    requires Tally(s.trace, SubmittedKind(e.intent)) == 0
    ensures OpenIntent(t, e.intent)
  {
    var id := if e.buy.OrderId? then e.buy.id else e.sell.id;
    assert id in t.orders && !t.orders[id].completed;
  }

  lemma OpenedTallied(c: Config, s: State, e: Input)
    requires Tallied(s) && Idle(s) && Opens(c, s, e) && Fresh(c, s, e)
    ensures Tallied(Opened(s, e))
  {
    OpenedState(c, s, e);
    OpenedTrace(c, s, e);
    var t := Opened(s, e);
    forall k
      ensures Tally(t.trace, k) <= 1
    {
      if k.intent == e.intent {
        assert Tally(s.trace, k) == 0;
      }
    }
    forall i
      ensures Tally(t.trace, CompletedKind(i)) == if i in t.intents then 0 else Tally(t.trace, SubmittedKind(i))
    {
      if i == e.intent {
        assert Tally(s.trace, CompletedKind(i)) == 0;
      }
    }
  }

  // Removing the only intent with its record.
  lemma FinalizedIdle(s: State, i: nat)
    requires s.intents.Keys == {i} && BothLegs(s.intents[i]) && Tallied(s) && Tally(s.trace, SubmittedKind(i)) == 1
    requires forall id :: id in s.orders ==> s.orders[id].intent == i
    ensures Idle(Finalize(s, i)) && Tallied(Finalize(s, i))
  {
    var record := CompletedRecord(i, s.intents[i], s.orders);
    Emitted(s.trace, record);
    var t := Finalize(s, i);
    assert t.intents.Keys == {};
    assert t.orders.Keys == {};
    forall k
      ensures Tally(t.trace, k) <= 1
    {
      if k == CompletedKind(i) {
        assert Tally(s.trace, k) == 0;
      }
    }
  }

  lemma TickValid(c: Config, s: State, e: Input)
    requires Valid(s) && e.Tick? && Fresh(c, s, e)
    ensures Valid(OnTick(c, s, e))
  {
    if Opens(c, s, e) {
      OpenedState(c, s, e);
      OpenedTrace(c, s, e);
      OpenedTallied(c, s, e);
      var t := Opened(s, e);
      if e.buy.NoOrder? && e.sell.NoOrder? {
        assert Tally(s.trace, SubmittedKind(e.intent)) == 0;
        FinalizedIdle(t, e.intent);
      } else {
        OpenedIsOpen(s, t, e);
      }
    }
  }

  // ----- fills and endings -----

  lemma FillValid(s: State, id: nat, row: Row)
    requires Valid(s)
    ensures Valid(DidFill(s, id, row))
  {
    if !Idle(s) && id in s.orders {
      var i :| OpenIntent(s, i);
      FillOpen(s, i, id, row);
    }
  }

  lemma FillOpen(s: State, i: nat, id: nat, row: Row)
    requires OpenIntent(s, i) && id in s.orders
    ensures OpenIntent(DidFill(s, id, row), i)
  {
    var t := DidFill(s, id, row);
    FillTracked(s, i, id, row);
    var w :| w in s.orders && !s.orders[w].completed;
    assert w in t.orders && !t.orders[w].completed;
  }

  lemma FillTracked(s: State, i: nat, id: nat, row: Row)
    requires OpenIntent(s, i) && id in s.orders
    ensures Tracked(DidFill(s, id, row), i) && LegsKnown(DidFill(s, id, row), i)
  {
    assert forall j :: j in DidFill(s, id, row).orders <==> j in s.orders;
  }

  // The state with an ended order and its leg, before anything follows from it.
  function WithLeg(s: State, id: nat, leg: Leg): State
    requires id in s.orders && s.orders[id].intent in s.intents
  {
    var o := s.orders[id];
    var intent := s.intents[o.intent];
    WithIntent(s.(orders := s.orders[id := o.(completed := true)]), o.intent,
               intent.(legs := intent.legs[o.role := leg]))
  }

  // An open intent that need not wait for anything.
  ghost predicate Ending(s: State, i: nat) {
    && s.intents.Keys == {i} && Tracked(s, i) && LegsKnown(s, i) && Sided(s, i)
    && Tally(s.trace, SubmittedKind(i)) == 1
  }

  // A leg that fits its order.
  ghost predicate LegFits(s: State, id: nat, leg: Leg)
    requires id in s.orders
  {
    leg.side == s.orders[id].side && (leg.rows.Shared? ==> leg.rows.order == id)
  }

  lemma LegSet(s: State, i: nat, id: nat, leg: Leg)
    requires OpenIntent(s, i) && id in s.orders && !s.orders[id].completed && LegFits(s, id, leg)
    ensures Ending(WithLeg(s, id, leg), i)
  {
    assert s.orders[id].intent == i;
    LegSetTracked(s, i, id, leg);
    LegSetKnown(s, i, id, leg);
    LegSetSided(s, i, id, leg);
  }

  lemma LegSetTracked(s: State, i: nat, id: nat, leg: Leg)
    requires i in s.intents && Tracked(s, i) && id in s.orders
    ensures Tracked(WithLeg(s, id, leg), i)
  {
    assert WithLeg(s, id, leg).trace == s.trace;
  }

  lemma LegSetKnown(s: State, i: nat, id: nat, leg: Leg)
    requires i in s.intents && Tracked(s, i) && LegsKnown(s, i)
    requires id in s.orders && LegFits(s, id, leg) && Tracked(WithLeg(s, id, leg), i)
    ensures LegsKnown(WithLeg(s, id, leg), i)
  {
    var t, o, ids := WithLeg(s, id, leg), s.orders[id], Ids(s.trace, i);
    assert t.trace == s.trace;
    assert t.intents[i].legs == s.intents[i].legs[o.role := leg];
    assert o.role in ids && ids[o.role] == id;
    forall r | r in ids && r != o.role
      ensures t.orders[ids[r]] == s.orders[ids[r]]
    {
      assert ids[r] != id;
    }
  }

  lemma LegSetSided(s: State, i: nat, id: nat, leg: Leg)
    requires OpenIntent(s, i) && id in s.orders && !s.orders[id].completed && LegFits(s, id, leg)
    ensures Sided(WithLeg(s, id, leg), i)
  {
    assert s.orders[id].intent == i && s.orders[id].role !in s.intents[i].legs;
  }

  // With a leg missing, or a recovery under way, there is an order to wait for.
  lemma StillWaiting(s: State, i: nat)
    requires Ending(s, i)
    requires !BothLegs(s.intents[i]) || (s.intents[i].recoveryRequested && RecoveryRole !in s.intents[i].legs)
    ensures OpenIntent(s, i)
  {
    var ids := Ids(s.trace, i);
    var r := if BuyRole !in s.intents[i].legs then BuyRole
             else if SellRole !in s.intents[i].legs then SellRole else RecoveryRole;
    assert r in ids && !s.orders[ids[r]].completed;
  }

  function RecoveryPlaced(s: State, i: nat, exposure: real, id: nat): State
    requires i in s.intents
  {
    var intent := s.intents[i];
    Emit(PlaceOrder(WithIntent(s, i, intent.(recoveryRequested := true)), id, RecoveryOrder(i, intent, exposure)),
         RecoverySubmitted(i))
  }

  lemma RecoveryTrace(trace: seq<Effect>, i: nat, id: nat, o: Order)
    requires o.intent == i && o.role == RecoveryRole
    ensures var t := trace + [Placed(id, o.intent, o.role, o.side, o.requested)] + [RecoverySubmitted(i)];
            && (forall k :: Tally(t, k) == Tally(trace, k) + if k == PlacedKind(i, RecoveryRole) then 1 else 0)
            && Ids(t, i) == Ids(trace, i)[RecoveryRole := id]
  {
    Emitted(trace, Placed(id, o.intent, o.role, o.side, o.requested));
    Emitted(trace + [Placed(id, o.intent, o.role, o.side, o.requested)], RecoverySubmitted(i));
  }

  // A role without an id was never placed.
  lemma {:induction false} NeverPlaced(trace: seq<Effect>, i: nat, role: Role)
    requires role !in Ids(trace, i)
    ensures Tally(trace, PlacedKind(i, role)) == 0
  {
    if trace != [] {
      NeverPlaced(trace[..|trace| - 1], i, role);
    }
  }

  lemma RecoveryOpen(s: State, i: nat, id: nat)
    requires Ending(s, i) && BothLegs(s.intents[i]) && Abs(Exposure(s.intents[i])) > EPSILON
    requires !s.intents[i].recoveryRequested && id !in s.orders && Tallied(s)
    ensures OpenIntent(RecoveryPlaced(s, i, Exposure(s.intents[i]), id), i)
    ensures Tallied(RecoveryPlaced(s, i, Exposure(s.intents[i]), id))
  {
    var o := RecoveryOrder(i, s.intents[i], Exposure(s.intents[i]));
    var t := RecoveryPlaced(s, i, Exposure(s.intents[i]), id);
    RecoveryIs(s, i, id);
    NeverPlaced(s.trace, i, RecoveryRole);
    assert id in t.orders && !t.orders[id].completed;
    RecoveryTracked(s, t, i, id, o);
    RecoverySided(s, t, i, id, o);
  }

  // The recovery order changes the orders by itself, the intent by its mark and the trace by its two effects.
  lemma RecoveryIs(s: State, i: nat, id: nat)
    requires i in s.intents && BothLegs(s.intents[i])
    ensures var t := RecoveryPlaced(s, i, Exposure(s.intents[i]), id);
            var o := RecoveryOrder(i, s.intents[i], Exposure(s.intents[i]));
            && t.orders == s.orders[id := o] && t.intents == s.intents[i := s.intents[i].(recoveryRequested := true)]
            && (forall k :: Tally(t.trace, k) == Tally(s.trace, k) + if k == PlacedKind(i, RecoveryRole) then 1 else 0)
            && Ids(t.trace, i) == Ids(s.trace, i)[RecoveryRole := id]
            && s.trace <= t.trace
            && (forall n :: |s.trace| <= n < |t.trace| ==> !t.trace[n].Completed?)
  {
    var o := RecoveryOrder(i, s.intents[i], Exposure(s.intents[i]));
    RecoveryTrace(s.trace, i, id, o);
  }

  lemma RecoverySided(s: State, t: State, i: nat, id: nat, o: Order)
    requires Ending(s, i) && BothLegs(s.intents[i]) && Abs(Exposure(s.intents[i])) > EPSILON
    requires id !in s.orders && o.role == RecoveryRole
    requires t.orders == s.orders[id := o] && t.intents == s.intents[i := s.intents[i].(recoveryRequested := true)]
    requires Ids(t.trace, i) == Ids(s.trace, i)[RecoveryRole := id]
    ensures Sided(t, i)
  {}

  lemma RecoveryTracked(s: State, t: State, i: nat, id: nat, o: Order)
    requires Ending(s, i) && !s.intents[i].recoveryRequested && id !in s.orders
    requires o.intent == i && o.role == RecoveryRole && !o.completed
    requires t.orders == s.orders[id := o] && t.intents == s.intents[i := s.intents[i].(recoveryRequested := true)]
    requires Ids(t.trace, i) == Ids(s.trace, i)[RecoveryRole := id]
    ensures Tracked(t, i) && LegsKnown(t, i)
  {
    assert RecoveryRole !in Ids(s.trace, i);
  }

  lemma MaybeValid(c: Config, s: State, i: nat, answer: Answer)
    requires Ending(s, i) && Tallied(s) && (answer.OrderId? ==> answer.id !in s.orders)
    ensures Valid(MaybeRecoverOrFinalize(c, s, i, answer))
  {
    var intent := s.intents[i];
    if !BothLegs(intent) {
      StillWaiting(s, i);
    } else if Abs(Exposure(intent)) > EPSILON && RecoveryRole !in intent.legs && !intent.recoveryRequested
              && Recovers(c, i, intent, Exposure(intent), answer) {
      RecoveryOpen(s, i, answer.id);
    } else if Abs(Exposure(intent)) > EPSILON && RecoveryRole !in intent.legs && intent.recoveryRequested {
      StillWaiting(s, i);
    } else {
      FinalizedIdle(s, i);
    }
  }

  lemma EndValid(c: Config, s: State, id: nat, leg: Leg, answer: Answer)
    requires Valid(s) && id in s.orders && !s.orders[id].completed && LegFits(s, id, leg)
    requires answer.OrderId? ==> answer.id !in s.orders
    ensures Valid(Ended(c, s, id, leg, answer))
  {
    var i :| OpenIntent(s, i);
    LegSet(s, i, id, leg);
    MaybeValid(c, WithLeg(s, id, leg), i, answer);
  }

  /** Every event in every order keeps the invariant. */
  lemma StepValid(c: Config, s: State, e: Input)
    requires Valid(s) && Fresh(c, s, e)
    ensures Valid(Step(c, s, e))
  {
    match e {
      case Tick(_, _, _, _, _, _) => TickValid(c, s, e);
      case FillEvent(id, row) => FillValid(s, id, row);
      case CompleteEvent(id, _, _, answer) =>
        if id in s.orders && !s.orders[id].completed {
          EndValid(c, s, id, EndingLeg(c, s, e), answer);
        }
      case FailEvent(id, answer) =>
        if id in s.orders && !s.orders[id].completed {
          EndValid(c, s, id, EndingLeg(c, s, e), answer);
        }
    }
  }

  // ----- the completed record is the signed sum of all fills -----

  // The signed base and cash of every fill reported for the open intent.
  datatype History = History(base: real, cash: real)

  function Count(h: History, side: Side, row: Row): History {
    History(h.base + Signed(side, row.base), h.cash - Signed(side, row.quote) - row.fee)
  }

  // The leg of an ended order shares its list of fills.
  predicate SharedLeg(s: State, id: nat) {
    && id in s.orders && s.orders[id].intent in s.intents
    && s.orders[id].role in s.intents[s.orders[id].intent].legs
    && s.intents[s.orders[id].intent].legs[s.orders[id].role].rows.Shared?
  }

  /** What the record of the open intent will state, event by event: a fill counts when it arrives; a fill after the
      end of its order counts with its quote only, and only if the leg shares the order's list; a completion that
      brings its own amounts counts them when no fill did; a failure drops the fills of its order. */
  function Seen(c: Config, s: State, h: History, e: Input): History {
    match e
    case Tick(_, _, _, _, _, _) => if Opens(c, s, e) then History(0.0, 0.0) else h
    case FillEvent(id, row) =>
      if id !in s.orders then h
      else if !s.orders[id].completed then Count(h, s.orders[id].side, row)
      else History(h.base, h.cash - if SharedLeg(s, id) then Signed(s.orders[id].side, row.quote) else 0.0)
    case CompleteEvent(id, base, quote, _) =>
      if id in s.orders && !s.orders[id].completed && s.orders[id].fills == []
      then Count(h, s.orders[id].side, EventRow(c, s.orders[id], base, quote)) else h
    case FailEvent(id, _) =>
      if id in s.orders && !s.orders[id].completed
      then History(h.base - OrderBase(s.orders[id]), h.cash - OrderCash(s.orders[id])) else h
  }

  function RoleBase(s: State, i: nat, r: Role): real
    requires i in s.intents && Tracked(s, i)
  {
    if r in s.intents[i].legs then LegExposure(s.intents[i].legs[r])
    else if r in Ids(s.trace, i) then OrderBase(s.orders[Ids(s.trace, i)[r]])
    else 0.0
  }

  function RoleCash(s: State, i: nat, r: Role): real
    requires i in s.intents && Tracked(s, i)
  {
    if r in s.intents[i].legs then LegCash(s.intents[i].legs[r], s.orders)
    else if r in Ids(s.trace, i) then OrderCash(s.orders[Ids(s.trace, i)[r]])
    else 0.0
  }

  function OrderBase(o: Order): real {
    Signed(o.side, SumBase(o.fills))
  }

  function OrderCash(o: Order): real {
    -Signed(o.side, SumQuote(o.fills)) - SumFee(o.fills)
  }

  ghost predicate Sums(s: State, i: nat, h: History)
    requires i in s.intents && Tracked(s, i)
  {
    && h.base == RoleBase(s, i, BuyRole) + RoleBase(s, i, SellRole) + RoleBase(s, i, RecoveryRole)
    && h.cash == RoleCash(s, i, BuyRole) + RoleCash(s, i, SellRole) + RoleCash(s, i, RecoveryRole)
  }

  ghost predicate Counted(s: State, h: History) {
    forall i :: OpenIntent(s, i) ==> Sums(s, i, h)
  }

  // Every completed record among the new effects says what the history says.
  ghost predicate RecordsSay(before: seq<Effect>, after: seq<Effect>, h: History) {
    before <= after
    && forall k :: |before| <= k < |after| && after[k].Completed? ==>
                     after[k].exposure == h.base && after[k].profit == h.cash
  }

  lemma SumsAppend(rows: seq<Row>, row: Row)
    ensures SumBase(rows + [row]) == SumBase(rows) + row.base
    ensures SumQuote(rows + [row]) == SumQuote(rows) + row.quote
    ensures SumFee(rows + [row]) == SumFee(rows) + row.fee
  {
    assert (rows + [row])[..|rows|] == rows;
  }

  lemma OpenedSums(s: State, t: State, e: Input)
    requires e.Tick? && e.candidate.Some? && JustOpened(s, t, e) && TraceOpened(s, t, e)
    requires Tracked(t, e.intent)
    ensures Sums(t, e.intent, History(0.0, 0.0))
  {}

  lemma RecordIsSum(s: State, i: nat, h: History)
    requires Ending(s, i) && BothLegs(s.intents[i]) && Sums(s, i, h)
    requires RecoveryRole in Ids(s.trace, i) ==> RecoveryRole in s.intents[i].legs
    ensures RecordsSay(s.trace, Finalize(s, i).trace, h)
  {
    assert Finalize(s, i).trace == s.trace + [CompletedRecord(i, s.intents[i], s.orders)];
  }

  lemma OnlyOpen(s: State, i: nat, j: nat)
    requires OpenIntent(s, i) && OpenIntent(s, j)
    ensures i == j
  {
    assert i in s.intents.Keys;
  }

  lemma CountedAt(s: State, i: nat, h: History)
    requires OpenIntent(s, i) && Sums(s, i, h)
    ensures Counted(s, h)
  {
    forall j | OpenIntent(s, j)
      ensures Sums(s, j, h)
    {
      OnlyOpen(s, i, j);
    }
  }

  lemma TickCounts(c: Config, s: State, h: History, e: Input)
    requires Valid(s) && Counted(s, h) && e.Tick? && Fresh(c, s, e)
    ensures Counted(OnTick(c, s, e), Seen(c, s, h, e))
    ensures RecordsSay(s.trace, OnTick(c, s, e).trace, Seen(c, s, h, e))
  {
    if Opens(c, s, e) {
      OpenedState(c, s, e);
      OpenedTrace(c, s, e);
      OpenedNoRecord(s, e);
      if e.buy.OrderId? || e.sell.OrderId? {
        OpenedCounts(c, s, e);
      } else {
        EmptyRecord(s, Opened(s, e), e);
      }
    }
  }

  lemma OpenedCounts(c: Config, s: State, e: Input)
    requires Valid(s) && Opens(c, s, e) && Fresh(c, s, e) && (e.buy.OrderId? || e.sell.OrderId?)
    requires JustOpened(s, Opened(s, e), e) && TraceOpened(s, Opened(s, e), e)
    ensures Counted(Opened(s, e), History(0.0, 0.0))
  {
    var t := Opened(s, e);
    assert Tally(s.trace, SubmittedKind(e.intent)) == 0;
    OpenedIsOpen(s, t, e);
    OpenedSums(s, t, e);
    CountedAt(t, e.intent, History(0.0, 0.0));
  }

  lemma OpenedNoRecord(s: State, e: Input)
    requires e.Tick? && e.candidate.Some?
    ensures s.trace <= Opened(s, e).trace
    ensures forall k :: |s.trace| <= k < |Opened(s, e).trace| ==> !Opened(s, e).trace[k].Completed?
  {}

  lemma EmptyRecord(s: State, t: State, e: Input)
    requires e.Tick? && e.candidate.Some? && JustOpened(s, t, e) && e.buy.NoOrder? && e.sell.NoOrder?
    requires s.trace <= t.trace && forall k :: |s.trace| <= k < |t.trace| ==> !t.trace[k].Completed?
    ensures RecordsSay(s.trace, Finalize(t, e.intent).trace, History(0.0, 0.0))
    ensures Finalize(t, e.intent).intents.Keys == {}
  {
    assert Finalize(t, e.intent).trace == t.trace + [CompletedRecord(e.intent, t.intents[e.intent], t.orders)];
  }

  // The other roles do not see the fill: no leg shares the list of an order that has not ended.
  lemma FillOther(s: State, i: nat, id: nat, row: Row, r: Role)
    requires OpenIntent(s, i) && id in s.orders && !s.orders[id].completed && Tracked(DidFill(s, id, row), i)
    requires r != s.orders[id].role
    ensures RoleBase(DidFill(s, id, row), i, r) == RoleBase(s, i, r)
    ensures RoleCash(DidFill(s, id, row), i, r) == RoleCash(s, i, r)
  {
    if r in Ids(s.trace, i) {
      assert Ids(s.trace, i)[r] != id;
    }
  }

  lemma OpenRole(s: State, i: nat, id: nat)
    requires i in s.intents && Tracked(s, i) && id in s.orders && s.orders[id].role !in s.intents[i].legs
    ensures RoleBase(s, i, s.orders[id].role) == OrderBase(s.orders[id])
    ensures RoleCash(s, i, s.orders[id].role) == OrderCash(s.orders[id])
  {}

  lemma OrderFilled(o: Order, row: Row)
    ensures var p := o.(fills := o.fills + [row]);
            && OrderBase(p) == OrderBase(o) + Signed(o.side, row.base)
            && OrderCash(p) == OrderCash(o) - Signed(o.side, row.quote) - row.fee
  {
    SumsAppend(o.fills, row);
  }

  lemma FillOwn(s: State, i: nat, id: nat, row: Row)
    requires i in s.intents && Tracked(s, i) && id in s.orders && s.orders[id].role !in s.intents[i].legs
    requires Tracked(DidFill(s, id, row), i)
    ensures var o := s.orders[id];
            && RoleBase(DidFill(s, id, row), i, o.role) == RoleBase(s, i, o.role) + Signed(o.side, row.base)
            && RoleCash(DidFill(s, id, row), i, o.role) == RoleCash(s, i, o.role) - Signed(o.side, row.quote) - row.fee
  {
    OpenRole(s, i, id);
    OpenRole(DidFill(s, id, row), i, id);
    OrderFilled(s.orders[id], row);
  }

  lemma FillCounts(s: State, i: nat, h: History, id: nat, row: Row)
    requires OpenIntent(s, i) && Sums(s, i, h) && id in s.orders && !s.orders[id].completed
    ensures OpenIntent(DidFill(s, id, row), i) && Sums(DidFill(s, id, row), i, Count(h, s.orders[id].side, row))
  {
    FillOpen(s, i, id, row);
    assert s.orders[id].role !in s.intents[i].legs;
    FillOwn(s, i, id, row);
    var role := s.orders[id].role;
    if role != BuyRole {
      FillOther(s, i, id, row, BuyRole);
    }
    if role != SellRole {
      FillOther(s, i, id, row, SellRole);
    }
    if role != RecoveryRole {
      FillOther(s, i, id, row, RecoveryRole);
    }
  }

  lemma OtherRole(s: State, i: nat, id: nat, leg: Leg, r: Role)
    requires OpenIntent(s, i) && id in s.orders && !s.orders[id].completed && LegFits(s, id, leg)
    requires r != s.orders[id].role && Tracked(WithLeg(s, id, leg), i)
    ensures RoleBase(WithLeg(s, id, leg), i, r) == RoleBase(s, i, r)
    ensures RoleCash(WithLeg(s, id, leg), i, r) == RoleCash(s, i, r)
  {
    if r in Ids(s.trace, i) {
      assert Ids(s.trace, i)[r] != id;
    }
  }

  // The ended order's leg stands for its fills, the counted event row included.
  lemma LegCounts(c: Config, s: State, i: nat, h: History, e: Input)
    requires OpenIntent(s, i) && Sums(s, i, h) && (e.CompleteEvent? || e.FailEvent?)
    requires e.order in s.orders && !s.orders[e.order].completed
    ensures var t := WithLeg(s, e.order, EndingLeg(c, s, e));
            Ending(t, i) && Sums(t, i, Seen(c, s, h, e))
  {
    var id, leg := e.order, EndingLeg(c, s, e);
    LegSet(s, i, id, leg);
    LegWorth(c, s, e);
    LegMoves(s, i, h, id, leg);
  }

  // With a leg in the place of its order, the sums move by what the leg states beyond the fills of the order.
  lemma LegMoves(s: State, i: nat, h: History, id: nat, leg: Leg)
    requires OpenIntent(s, i) && Sums(s, i, h) && id in s.orders && !s.orders[id].completed && LegFits(s, id, leg)
    requires Tracked(WithLeg(s, id, leg), i)
    ensures var o, t := s.orders[id], WithLeg(s, id, leg);
            Sums(t, i, History(h.base + LegExposure(leg) - OrderBase(o),
                               h.cash + LegCash(leg, t.orders) - OrderCash(o)))
  {
    var o := s.orders[id];
    assert o.role !in s.intents[i].legs;
    OpenRole(s, i, id);
    KnownRole(WithLeg(s, id, leg), i, o.role);
    if o.role != BuyRole {
      OtherRole(s, i, id, leg, BuyRole);
    }
    if o.role != SellRole {
      OtherRole(s, i, id, leg, SellRole);
    }
    if o.role != RecoveryRole {
      OtherRole(s, i, id, leg, RecoveryRole);
    }
  }

  lemma LegWorth(c: Config, s: State, e: Input)
    requires (e.CompleteEvent? || e.FailEvent?) && e.order in s.orders && !s.orders[e.order].completed
    ensures var o, leg, h := s.orders[e.order], EndingLeg(c, s, e), History(0.0, 0.0);
            && LegExposure(leg) == OrderBase(o) + Seen(c, s, h, e).base
            && (forall orders: map<nat, Order> :: e.order in orders && orders[e.order].fills == o.fills ==>
                  LegCash(leg, orders) == OrderCash(o) + Seen(c, s, h, e).cash)
  {
    var amounts := if e.CompleteEvent? then (e.base, e.quote) else (0.0, 0.0);
    SumsAppend([], EventRow(c, s.orders[e.order], amounts.0, amounts.1));
  }

  lemma MaybeCounts(c: Config, s: State, i: nat, h: History, answer: Answer)
    requires Ending(s, i) && Tallied(s) && (answer.OrderId? ==> answer.id !in s.orders) && Sums(s, i, h)
    ensures Counted(MaybeRecoverOrFinalize(c, s, i, answer), h)
    ensures RecordsSay(s.trace, MaybeRecoverOrFinalize(c, s, i, answer).trace, h)
  {
    var intent := s.intents[i];
    if !BothLegs(intent) {
      StillWaiting(s, i);
      CountedAt(s, i, h);
    } else if Abs(Exposure(intent)) > EPSILON && RecoveryRole !in intent.legs && !intent.recoveryRequested
              && Recovers(c, i, intent, Exposure(intent), answer) {
      RecoveryOpen(s, i, answer.id);
      RecoverySums(s, i, h, answer.id);
      CountedAt(RecoveryPlaced(s, i, Exposure(intent), answer.id), i, h);
    } else if Abs(Exposure(intent)) > EPSILON && RecoveryRole !in intent.legs && intent.recoveryRequested {
      StillWaiting(s, i);
      CountedAt(s, i, h);
    } else {
      FinalizedIdle(s, i);
      RecordIsSum(s, i, h);
    }
  }

  lemma RecoverySums(s: State, i: nat, h: History, id: nat)
    requires Ending(s, i) && BothLegs(s.intents[i]) && !s.intents[i].recoveryRequested && id !in s.orders
    requires Sums(s, i, h)
    ensures var t := RecoveryPlaced(s, i, Exposure(s.intents[i]), id);
            && (Tracked(t, i) ==> Sums(t, i, h)) && RecordsSay(s.trace, t.trace, h)
  {
    var t := RecoveryPlaced(s, i, Exposure(s.intents[i]), id);
    var o := RecoveryOrder(i, s.intents[i], Exposure(s.intents[i]));
    RecoveryIs(s, i, id);
    if Tracked(t, i) {
      RecoveryRoles(s, t, i, id, o, BuyRole);
      RecoveryRoles(s, t, i, id, o, SellRole);
      RecoveryRoles(s, t, i, id, o, RecoveryRole);
    }
  }

  // The order just placed has no fills, and no leg shares its list.
  lemma RecoveryRoles(s: State, t: State, i: nat, id: nat, o: Order, r: Role)
    requires Ending(s, i) && !s.intents[i].recoveryRequested && id !in s.orders && o.fills == [] && Tracked(t, i)
    requires t.orders == s.orders[id := o] && t.intents == s.intents[i := s.intents[i].(recoveryRequested := true)]
    requires Ids(t.trace, i) == Ids(s.trace, i)[RecoveryRole := id]
    ensures RoleBase(t, i, r) == RoleBase(s, i, r) && RoleCash(t, i, r) == RoleCash(s, i, r)
  {
    assert RecoveryRole !in Ids(s.trace, i) && RecoveryRole !in s.intents[i].legs;
    if r in s.intents[i].legs {
      KnownRole(s, i, r);
      KnownRole(t, i, r);
    }
  }

  /** Every event, at whatever time, keeps legs and open orders equal to what was seen, and any record it emits
      says so. */
  lemma StepCounts(c: Config, s: State, h: History, e: Input)
    requires Valid(s) && Counted(s, h) && Fresh(c, s, e)
    ensures Counted(Step(c, s, e), Seen(c, s, h, e))
    ensures RecordsSay(s.trace, Step(c, s, e).trace, Seen(c, s, h, e))
  {
    match e {
      case Tick(_, _, _, _, _, _) => TickCounts(c, s, h, e);
      case FillEvent(id, row) =>
        if id in s.orders {
          var i :| OpenIntent(s, i);
          if s.orders[id].completed {
            LateCounts(c, s, i, h, e);
          } else {
            FillCounts(s, i, h, id, row);
          }
          CountedAt(DidFill(s, id, row), i, Seen(c, s, h, e));
        }
      case CompleteEvent(id, _, _, answer) =>
        if id in s.orders && !s.orders[id].completed {
          EndCounts(c, s, h, e, answer);
        }
      case FailEvent(id, answer) =>
        if id in s.orders && !s.orders[id].completed {
          EndCounts(c, s, h, e, answer);
        }
    }
  }

  lemma EndCounts(c: Config, s: State, h: History, e: Input, answer: Answer)
    requires Valid(s) && Counted(s, h) && (e.CompleteEvent? || e.FailEvent?)
    requires e.order in s.orders && !s.orders[e.order].completed && (answer.OrderId? ==> answer.id !in s.orders)
    ensures var t := Ended(c, s, e.order, EndingLeg(c, s, e), answer);
            Counted(t, Seen(c, s, h, e)) && RecordsSay(s.trace, t.trace, Seen(c, s, h, e))
  {
    var i :| OpenIntent(s, i);
    LegCounts(c, s, i, h, e);
    MaybeCounts(c, WithLeg(s, e.order, EndingLeg(c, s, e)), i, Seen(c, s, h, e), answer);
  }

  // ----- fills after the end of their order -----

  // While an intent is open its recovery has not ended.
  lemma NoRecoveryLeg(s: State, i: nat)
    requires OpenIntent(s, i)
    ensures RecoveryRole !in s.intents[i].legs
  {}

  lemma LateCounts(c: Config, s: State, i: nat, h: History, e: Input)
    requires OpenIntent(s, i) && Sums(s, i, h) && e.FillEvent? && e.order in s.orders && s.orders[e.order].completed
    ensures OpenIntent(DidFill(s, e.order, e.row), i) && Sums(DidFill(s, e.order, e.row), i, Seen(c, s, h, e))
  {
    var id, row := e.order, e.row;
    var role := s.orders[id].role;
    NoRecoveryLeg(s, i);
    FillOpen(s, i, id, row);
    LateOwn(s, i, id, row);
    if role != BuyRole {
      LateOther(s, i, id, row, BuyRole);
    }
    if role != SellRole {
      LateOther(s, i, id, row, SellRole);
    }
    LateOther(s, i, id, row, RecoveryRole);
  }

  lemma KnownRole(s: State, i: nat, r: Role)
    requires i in s.intents && Tracked(s, i) && r in s.intents[i].legs
    ensures RoleBase(s, i, r) == LegExposure(s.intents[i].legs[r])
    ensures RoleCash(s, i, r) == LegCash(s.intents[i].legs[r], s.orders)
  {}

  // A leg that shares the list of this order sees the quote of a late fill.
  lemma LegLate(leg: Leg, orders: map<nat, Order>, id: nat, row: Row)
    requires id in orders && (leg.rows.Shared? ==> leg.rows.order == id)
    ensures LegCash(leg, orders[id := orders[id].(fills := orders[id].fills + [row])])
            == LegCash(leg, orders) - (if leg.rows.Shared? then Signed(leg.side, row.quote) else 0.0)
  {
    SumsAppend(orders[id].fills, row);
  }

  lemma LateOwn(s: State, i: nat, id: nat, row: Row)
    requires OpenIntent(s, i) && id in s.orders && Tracked(DidFill(s, id, row), i)
    requires s.orders[id].role in s.intents[i].legs && s.intents[i].legs[s.orders[id].role].side == s.orders[id].side
    ensures var o := s.orders[id];
            && RoleBase(DidFill(s, id, row), i, o.role) == RoleBase(s, i, o.role)
            && RoleCash(DidFill(s, id, row), i, o.role) == RoleCash(s, i, o.role)
               - (if s.intents[i].legs[o.role].rows.Shared? then Signed(o.side, row.quote) else 0.0)
  {
    var role := s.orders[id].role;
    KnownRole(s, i, role);
    KnownRole(DidFill(s, id, row), i, role);
    assert Ids(s.trace, i)[role] == id;
    LegLate(s.intents[i].legs[role], s.orders, id, row);
  }

  lemma LateOther(s: State, i: nat, id: nat, row: Row, r: Role)
    requires OpenIntent(s, i) && id in s.orders && Tracked(DidFill(s, id, row), i) && r != s.orders[id].role
    ensures RoleBase(DidFill(s, id, row), i, r) == RoleBase(s, i, r)
    ensures RoleCash(DidFill(s, id, row), i, r) == RoleCash(s, i, r)
  {
    if r in Ids(s.trace, i) {
      assert Ids(s.trace, i)[r] != id;
    }
  }

  lemma FailedWorth(o: Order, orders: map<nat, Order>)
    ensures LegExposure(FailedLeg(o.side, o.requested)) == 0.0 == LegCash(FailedLeg(o.side, o.requested), orders)
  {}

  /** The failure of a filled order keeps the record right only if the fills cancel out: they are dropped. */
  lemma FilledFailure(s: State, i: nat, h: History, id: nat)
    requires OpenIntent(s, i) && Sums(s, i, h) && id in s.orders && !s.orders[id].completed
    ensures var leg := FailedLeg(s.orders[id].side, s.orders[id].requested);
            && Ending(WithLeg(s, id, leg), i)
            && (Sums(WithLeg(s, id, leg), i, h) <==> OrderBase(s.orders[id]) == 0.0 && OrderCash(s.orders[id]) == 0.0)
  {
    var o := s.orders[id];
    var leg := FailedLeg(o.side, o.requested);
    LegSet(s, i, id, leg);
    LegMoves(s, i, h, id, leg);
    FailedWorth(o, WithLeg(s, id, leg).orders);
  }

  // ----- whole runs -----

  function Start(): State {
    State(map[], map[], 0.0, [])
  }

  function Run(c: Config, inputs: seq<Input>): State {
    if inputs == [] then Start() else Step(c, Run(c, inputs[..|inputs| - 1]), inputs[|inputs| - 1])
  }

  ghost predicate FreshRun(c: Config, inputs: seq<Input>) {
    forall n :: 0 <= n < |inputs| ==> Fresh(c, Run(c, inputs[..n]), inputs[n])
  }

  lemma Prefix(c: Config, inputs: seq<Input>, m: nat)
    requires m <= |inputs|
    ensures FreshRun(c, inputs) ==> FreshRun(c, inputs[..m])
  {
    forall n | 0 <= n < m
      ensures inputs[..m][..n] == inputs[..n] && inputs[..m][n] == inputs[n]
    {
    }
  }

  lemma {:induction false} RunValid(c: Config, inputs: seq<Input>)
    requires FreshRun(c, inputs)
    ensures Valid(Run(c, inputs))
  {
    if inputs != [] {
      var m := |inputs| - 1;
      Prefix(c, inputs, m);
      RunValid(c, inputs[..m]);
      assert Fresh(c, Run(c, inputs[..m]), inputs[m]);
      StepValid(c, Run(c, inputs[..m]), inputs[m]);
    }
  }

  /** After any run: at most one intent is open and it waits for an order that has not ended; with none open no
      order is tracked; every intent placed at most one buy, one sell and one recovery; and every submitted
      intent that is no longer open has exactly one completed record. */
  lemma RunSafe(c: Config, inputs: seq<Input>, i: nat)
    requires FreshRun(c, inputs)
    ensures var t := Run(c, inputs);
            && |t.intents| <= 1
            && (t.intents == map[] ==> t.orders == map[])
            && (i in t.intents ==> exists id :: id in t.orders && !t.orders[id].completed && t.orders[id].intent == i)
            && (forall role :: Tally(t.trace, PlacedKind(i, role)) <= 1)
            && Tally(t.trace, CompletedKind(i)) == (if i in t.intents then 0 else Tally(t.trace, SubmittedKind(i)))
            && Tally(t.trace, SubmittedKind(i)) <= 1
  {
    RunValid(c, inputs);
    var t := Run(c, inputs);
    if !Idle(t) {
      var j :| OpenIntent(t, j);
      assert |t.intents.Keys| == 1;
    }
  }

  // ----- whose fill it is -----

  // The intent an order was placed for, and its side.
  function Owner(trace: seq<Effect>, id: nat): Option<(nat, Side)> {
    if trace == [] then None
    else
      var e := trace[|trace| - 1];
      if e.Placed? && e.order == id then Some((e.intent, e.side)) else Owner(trace[..|trace| - 1], id)
  }

  predicate Owns(trace: seq<Effect>, id: nat, i: nat) {
    Owner(trace, id).Some? && Owner(trace, id).value.0 == i
  }

  lemma OwnerAppend(trace: seq<Effect>, e: Effect, id: nat)
    ensures Owner(trace + [e], id) == if e.Placed? && e.order == id then Some((e.intent, e.side)) else Owner(trace, id)
  {
    assert (trace + [e])[..|trace|] == trace;
  }

  // Tracked orders are owned as they say.
  ghost predicate Owned(s: State) {
    forall id :: id in s.orders ==> Owner(s.trace, id) == Some((s.orders[id].intent, s.orders[id].side))
  }

  lemma PlaceOwned(s: State, id: nat, o: Order)
    requires Owned(s)
    ensures Owned(PlaceOrder(s, id, o))
  {
    var e := Placed(id, o.intent, o.role, o.side, o.requested);
    forall k | k in PlaceOrder(s, id, o).orders
      ensures Owner(s.trace + [e], k)
              == Some((PlaceOrder(s, id, o).orders[k].intent, PlaceOrder(s, id, o).orders[k].side))
    {
      OwnerAppend(s.trace, e, k);
    }
  }

  lemma EmitOwned(s: State, e: Effect)
    requires Owned(s) && !e.Placed?
    ensures Owned(Emit(s, e))
  {
    forall id | id in s.orders
      ensures Owner(s.trace + [e], id) == Owner(s.trace, id)
    {
      OwnerAppend(s.trace, e, id);
    }
  }

  lemma OpenOwned(s: State, i: nat, role: Role, side: Side, venue: Venue, answer: Answer)
    requires i in s.intents && Owned(s)
    ensures Owned(Open(s, i, role, side, venue, answer))
  {
    if answer.OrderId? {
      PlaceOwned(s, answer.id, Order(i, role, side, venue, s.intents[i].candidate.base, [], false));
    }
  }

  lemma FinalizeOwned(s: State, i: nat)
    requires i in s.intents && Owned(s)
    ensures Owned(Finalize(s, i))
  {
    if BothLegs(s.intents[i]) {
      EmitOwned(s.(intents := s.intents - {i}, orders := Without(s.orders, i)),
                CompletedRecord(i, s.intents[i], s.orders));
    }
  }

  lemma MaybeOwned(c: Config, s: State, i: nat, answer: Answer)
    requires i in s.intents && Owned(s)
    ensures Owned(MaybeRecoverOrFinalize(c, s, i, answer))
  {
    var intent := s.intents[i];
    FinalizeOwned(s, i);
    if BothLegs(intent) && Recovers(c, i, intent, Exposure(intent), answer) {
      var s1 := WithIntent(s, i, intent.(recoveryRequested := true));
      var o := RecoveryOrder(i, intent, Exposure(intent));
      PlaceOwned(s1, answer.id, o);
      EmitOwned(PlaceOrder(s1, answer.id, o), RecoverySubmitted(i));
    }
  }

  lemma TickOwned(c: Config, s: State, e: Input)
    requires Owned(s) && e.Tick?
    ensures Owned(OnTick(c, s, e))
  {
    if Opens(c, s, e) {
      var candidate := e.candidate.value;
      var s1 := WithIntent(s, e.intent, Intent(candidate, map[], false));
      OpenOwned(s1, e.intent, BuyRole, Buy, candidate.buyVenue, e.buy);
      var s2 := Open(s1, e.intent, BuyRole, Buy, candidate.buyVenue, e.buy);
      OpenOwned(s2, e.intent, SellRole, Sell, candidate.sellVenue, e.sell);
      var s3 := Open(s2, e.intent, SellRole, Sell, candidate.sellVenue, e.sell);
      EmitOwned(s3.(lastSubmit := e.now), Submitted(e.intent));
      FinalizeOwned(Emit(s3.(lastSubmit := e.now), Submitted(e.intent)), e.intent);
    }
  }

  lemma EndedOwned(c: Config, s: State, id: nat, leg: Leg, answer: Answer)
    requires Owned(s) && id in s.orders
    ensures Owned(Ended(c, s, id, leg, answer))
  {
    var o := s.orders[id];
    var s1 := s.(orders := s.orders[id := o.(completed := true)]);
    if o.intent in s.intents {
      var intent := s.intents[o.intent];
      MaybeOwned(c, WithIntent(s1, o.intent, intent.(legs := intent.legs[o.role := leg])), o.intent, answer);
    }
  }

  lemma StepOwned(c: Config, s: State, e: Input)
    requires Owned(s)
    ensures Owned(Step(c, s, e))
  {
    match e {
      case Tick(_, _, _, _, _, _) => TickOwned(c, s, e);
      case FillEvent(_, _) =>
      case CompleteEvent(id, _, _, answer) =>
        if id in s.orders && !s.orders[id].completed {
          EndedOwned(c, s, id, EndingLeg(c, s, e), answer);
        }
      case FailEvent(id, answer) =>
        if id in s.orders && !s.orders[id].completed {
          EndedOwned(c, s, id, EndingLeg(c, s, e), answer);
        }
    }
  }

  // ----- what was reported, and what of it a record misses -----

  const NOTHING := History(0.0, 0.0)

  function Plus(h: History, k: History): History {
    History(h.base + k.base, h.cash + k.cash)
  }

  function Minus(h: History, k: History): History {
    History(h.base - k.base, h.cash - k.cash)
  }

  /** What an event reports for an intent: every fill of an order placed for it, whenever it comes, and what a
      completion brings itself when no fill was reported. */
  function Reported(c: Config, s: State, e: Input, i: nat): History {
    match e
    case Tick(_, _, _, _, _, _) => NOTHING
    case FillEvent(id, row) => if Owns(s.trace, id, i) then Count(NOTHING, Owner(s.trace, id).value.1, row) else NOTHING
    case CompleteEvent(id, base, quote, _) =>
      if id in s.orders && s.orders[id].intent == i && !s.orders[id].completed && s.orders[id].fills == []
      then Count(NOTHING, s.orders[id].side, EventRow(c, s.orders[id], base, quote)) else NOTHING
    case FailEvent(_, _) => NOTHING
  }

  /** What of it the intent's record does not state: a fill after the intent is closed; of a fill after the end of
      its order the base, the fee and, unless the leg shares the order's list, the quote; and all fills of an order
      that fails. */
  function Missed(c: Config, s: State, e: Input, i: nat): History {
    match e
    case Tick(_, _, _, _, _, _) => NOTHING
    case FillEvent(id, row) =>
      if !Owns(s.trace, id, i) then NOTHING
      else if id !in s.orders then Count(NOTHING, Owner(s.trace, id).value.1, row)
      else if !s.orders[id].completed then NOTHING
      else if SharedLeg(s, id) then History(Signed(s.orders[id].side, row.base), -row.fee)
      else Count(NOTHING, s.orders[id].side, row)
    case CompleteEvent(_, _, _, _) => NOTHING
    case FailEvent(id, _) =>
      if id in s.orders && s.orders[id].intent == i && !s.orders[id].completed
      then History(OrderBase(s.orders[id]), OrderCash(s.orders[id])) else NOTHING
  }

  // What the completion of an order counted of its own, as long as no fill of the order was reported.
  function Claim(c: Config, inputs: seq<Input>, id: nat): History {
    if inputs == [] then NOTHING
    else
      var before, e := inputs[..|inputs| - 1], inputs[|inputs| - 1];
      if e.FillEvent? && e.order == id then NOTHING
      else if e.CompleteEvent? && e.order == id then
        var s := Run(c, before);
        if id in s.orders && !s.orders[id].completed && s.orders[id].fills == []
        then Count(NOTHING, s.orders[id].side, EventRow(c, s.orders[id], e.base, e.quote)) else Claim(c, before, id)
      else Claim(c, before, id)
  }

  // The first fill that comes after such a completion takes the place of what it claimed.
  function Replaced(c: Config, before: seq<Input>, e: Input, i: nat): History {
    var s := Run(c, before);
    if e.FillEvent? && Owns(s.trace, e.order, i) && (e.order in s.orders ==> s.orders[e.order].completed)
    then Claim(c, before, e.order) else NOTHING
  }

  function AllReported(c: Config, inputs: seq<Input>, i: nat): History {
    if inputs == [] then NOTHING
    else
      var before, e := inputs[..|inputs| - 1], inputs[|inputs| - 1];
      Plus(AllReported(c, before, i), Minus(Reported(c, Run(c, before), e, i), Replaced(c, before, e, i)))
  }

  function AllMissed(c: Config, inputs: seq<Input>, i: nat): History {
    if inputs == [] then NOTHING
    else
      var before, e := inputs[..|inputs| - 1], inputs[|inputs| - 1];
      Plus(AllMissed(c, before, i), Minus(Missed(c, Run(c, before), e, i), Replaced(c, before, e, i)))
  }

  // Nothing was ever recorded of this intent.
  ghost predicate Unborn(trace: seq<Effect>, i: nat) {
    forall k: Kind :: k.intent == i ==> Tally(trace, k) == 0
  }

  ghost predicate RecordsMatch(trace: seq<Effect>, i: nat, h: History) {
    forall k :: 0 <= k < |trace| && trace[k].Completed? && trace[k].intent == i ==>
      trace[k].exposure == h.base && trace[k].profit == h.cash
  }

  // What was reported less what was missed is in the open intent's legs and orders, and in the closed one's record.
  ghost predicate Account(s: State, i: nat, h: History) {
    && (Unborn(s.trace, i) ==> h == NOTHING)
    && (OpenIntent(s, i) ==> Sums(s, i, h))
    && RecordsMatch(s.trace, i, h)
  }

  lemma {:induction false} NoneIs(trace: seq<Effect>, k: Kind, n: nat)
    requires n < |trace| && Tally(trace, k) == 0
    ensures !Is(trace[n], k)
  {
    if n < |trace| - 1 {
      NoneIs(trace[..|trace| - 1], k, n);
    }
  }

  lemma {:induction false} TallyGrows(trace: seq<Effect>, longer: seq<Effect>, k: Kind)
    requires trace <= longer
    ensures Tally(trace, k) <= Tally(longer, k)
    decreases |longer|
  {
    if |trace| == |longer| {
      assert trace == longer;
    } else {
      TallyGrows(trace, longer[..|longer| - 1], k);
    }
  }

  // ----- which intent a step concerns -----

  // The trace grew, and new records are of intent j.
  ghost predicate Extends(before: seq<Effect>, after: seq<Effect>, j: nat) {
    && before <= after
    && (forall k :: |before| <= k < |after| && after[k].Completed? ==> after[k].intent == j)
  }

  lemma MaybeExtends(c: Config, s: State, i: nat, answer: Answer)
    requires i in s.intents
    ensures Extends(s.trace, MaybeRecoverOrFinalize(c, s, i, answer).trace, i)
    ensures MaybeRecoverOrFinalize(c, s, i, answer).intents.Keys <= s.intents.Keys
  {}

  lemma TickExtends(c: Config, s: State, e: Input)
    requires e.Tick?
    ensures Extends(s.trace, OnTick(c, s, e).trace, e.intent)
    ensures Opens(c, s, e) ==> OnTick(c, s, e).intents.Keys <= {e.intent}
  {
    if Opens(c, s, e) {
      OpenedNoRecord(s, e);
    }
  }

  // An intent that the step does not concern keeps its account.
  lemma ElsewhereKeeps(s: State, t: State, i: nat, j: nat, h: History)
    requires Account(s, i, h) && i != j && Extends(s.trace, t.trace, j) && i !in t.intents
    ensures Account(t, i, h)
  {
    if Unborn(t.trace, i) {
      forall k: Kind | k.intent == i
        ensures Tally(s.trace, k) == 0
      {
        TallyGrows(s.trace, t.trace, k);
      }
    }
    forall k | 0 <= k < |t.trace| && t.trace[k].Completed? && t.trace[k].intent == i
      ensures t.trace[k].exposure == h.base && t.trace[k].profit == h.cash
    {
      assert k < |s.trace| && s.trace[k] == t.trace[k];
    }
  }

  // The open intent has no record yet, so the new ones are all it has.
  lemma OwnKeeps(s: State, t: State, i: nat, h: History)
    requires Tally(s.trace, CompletedKind(i)) == 0 && !Unborn(t.trace, i)
    requires Counted(t, h) && RecordsSay(s.trace, t.trace, h)
    ensures Account(t, i, h)
  {
    forall k | 0 <= k < |t.trace| && t.trace[k].Completed? && t.trace[k].intent == i
      ensures t.trace[k].exposure == h.base && t.trace[k].profit == h.cash
    {
      if k < |s.trace| {
        assert s.trace[k] == t.trace[k];
        NoneIs(s.trace, CompletedKind(i), k);
      }
    }
  }

  function Net(c: Config, s: State, e: Input, i: nat): History {
    Minus(Reported(c, s, e, i), Missed(c, s, e, i))
  }

  // An event about no tracked order changes nothing, and the record misses whatever it reports.
  lemma UntrackedNet(c: Config, s: State, e: Input, i: nat)
    requires !e.Tick? && e.order !in s.orders
    ensures Step(c, s, e) == s && Net(c, s, e, i) == NOTHING
  {}

  // For the open intent the net is what is seen, for every other one nothing.
  lemma TrackedNet(c: Config, s: State, e: Input, i: nat, j: nat, h: History)
    requires OpenIntent(s, j) && Owned(s) && !e.Tick? && e.order in s.orders
    ensures i != j ==> Net(c, s, e, i) == NOTHING
    ensures Seen(c, s, h, e) == Plus(h, Net(c, s, e, j))
  {
    assert Owner(s.trace, e.order) == Some((j, s.orders[e.order].side));
  }

  lemma TrackedElsewhere(c: Config, s: State, e: Input, i: nat, j: nat, h: History)
    requires OpenIntent(s, j) && !e.Tick? && e.order in s.orders && i != j && Account(s, i, h)
    ensures Account(Step(c, s, e), i, h)
  {
    var t := Step(c, s, e);
    if (e.CompleteEvent? || e.FailEvent?) && !s.orders[e.order].completed {
      var s1 := WithLeg(s, e.order, EndingLeg(c, s, e));
      MaybeExtends(c, s1, j, e.recovery);
      assert t == MaybeRecoverOrFinalize(c, s1, j, e.recovery);
    }
    ElsewhereKeeps(s, t, i, j, h);
  }

  lemma TrackedOwn(c: Config, s: State, e: Input, j: nat, h: History)
    requires Valid(s) && OpenIntent(s, j) && Fresh(c, s, e) && !e.Tick? && e.order in s.orders && Account(s, j, h)
    ensures Account(Step(c, s, e), j, Seen(c, s, h, e))
  {
    CountedAt(s, j, h);
    StepCounts(c, s, h, e);
    TallyGrows(s.trace, Step(c, s, e).trace, SubmittedKind(j));
    assert Tally(Step(c, s, e).trace, SubmittedKind(j)) > 0;
    OwnKeeps(s, Step(c, s, e), j, Seen(c, s, h, e));
  }

  lemma SubmittedNow(c: Config, s: State, e: Input)
    requires Opens(c, s, e) && Fresh(c, s, e)
    ensures Tally(OnTick(c, s, e).trace, SubmittedKind(e.intent)) > 0
  {
    OpenedTrace(c, s, e);
    TallyGrows(Opened(s, e).trace, OnTick(c, s, e).trace, SubmittedKind(e.intent));
  }

  lemma TickAccount(c: Config, s: State, e: Input, i: nat, h: History)
    requires Valid(s) && Fresh(c, s, e) && e.Tick? && Account(s, i, h)
    ensures Account(Step(c, s, e), i, h)
  {
    if Opens(c, s, e) {
      TickExtends(c, s, e);
      if i == e.intent {
        assert Unborn(s.trace, i);
        StepCounts(c, s, NOTHING, e);
        SubmittedNow(c, s, e);
        assert Tally(s.trace, CompletedKind(i)) == 0;
        OwnKeeps(s, Step(c, s, e), i, NOTHING);
      } else {
        ElsewhereKeeps(s, Step(c, s, e), i, e.intent, h);
      }
    }
  }

  lemma StepAccount(c: Config, s: State, e: Input, i: nat, h: History)
    requires Valid(s) && Owned(s) && Fresh(c, s, e) && Account(s, i, h)
    ensures Account(Step(c, s, e), i, Plus(h, Net(c, s, e, i)))
  {
    assert Plus(h, NOTHING) == h;
    if e.Tick? {
      TickAccount(c, s, e, i, h);
    } else if e.order !in s.orders {
      UntrackedNet(c, s, e, i);
    } else {
      var j :| OpenIntent(s, j);
      TrackedNet(c, s, e, i, j, h);
      if i == j {
        TrackedOwn(c, s, e, j, h);
      } else {
        TrackedElsewhere(c, s, e, i, j, h);
      }
    }
  }

  lemma {:induction false} RunOwned(c: Config, inputs: seq<Input>)
    ensures Owned(Run(c, inputs))
  {
    if inputs != [] {
      RunOwned(c, inputs[..|inputs| - 1]);
      StepOwned(c, Run(c, inputs[..|inputs| - 1]), inputs[|inputs| - 1]);
    }
  }

  lemma FreshBefore(c: Config, inputs: seq<Input>)
    requires inputs != [] && FreshRun(c, inputs)
    ensures var m := |inputs| - 1;
            FreshRun(c, inputs[..m]) && Fresh(c, Run(c, inputs[..m]), inputs[m])
  {
    Prefix(c, inputs, |inputs| - 1);
  }

  lemma NetAdds(r: History, m: History, x: History, y: History, z: History)
    ensures Plus(Minus(r, m), Minus(x, y)) == Minus(Plus(r, Minus(x, z)), Plus(m, Minus(y, z)))
  {}

  // What the record of an intent states, or its legs and orders hold, after a run.
  function RunNet(c: Config, inputs: seq<Input>, i: nat): History {
    Minus(AllReported(c, inputs, i), AllMissed(c, inputs, i))
  }

  lemma RunNetStep(c: Config, inputs: seq<Input>, i: nat)
    requires inputs != []
    ensures var m := |inputs| - 1;
            RunNet(c, inputs, i) == Plus(RunNet(c, inputs[..m], i), Net(c, Run(c, inputs[..m]), inputs[m], i))
  {
    var t, e := inputs[..|inputs| - 1], inputs[|inputs| - 1];
    NetAdds(AllReported(c, t, i), AllMissed(c, t, i), Reported(c, Run(c, t), e, i), Missed(c, Run(c, t), e, i),
            Replaced(c, t, e, i));
  }

  lemma {:induction false} RunAccount(c: Config, inputs: seq<Input>, i: nat)
    requires FreshRun(c, inputs)
    ensures Account(Run(c, inputs), i, RunNet(c, inputs, i))
  {
    if inputs != [] {
      var t := inputs[..|inputs| - 1];
      FreshBefore(c, inputs);
      RunAccount(c, t, i);
      RunValid(c, t);
      RunOwned(c, t);
      StepAccount(c, Run(c, t), inputs[|inputs| - 1], i, RunNet(c, t, i));
      RunNetStep(c, inputs, i);
    }
  }

  /** In every run, whenever fills, completions and failures come: a completed record with what it missed is all that
      was ever reported for the orders of its intent, up to the end of the run: the fills of each order or, as long as
      none comes, what its completion brought.  So the record is right exactly when what it missed sums to nothing. */
  lemma RunRecords(c: Config, inputs: seq<Input>, k: nat)
    requires FreshRun(c, inputs) && k < |Run(c, inputs).trace| && Run(c, inputs).trace[k].Completed?
    ensures var record := Run(c, inputs).trace[k];
            var stated := History(record.exposure, record.profit);
            && Plus(stated, AllMissed(c, inputs, record.intent)) == AllReported(c, inputs, record.intent)
            && (stated == AllReported(c, inputs, record.intent) <==> AllMissed(c, inputs, record.intent) == NOTHING)
  {
    RunAccount(c, inputs, Run(c, inputs).trace[k].intent);
  }

  // No fill comes after the end of its order, closed intents included, and an order that was filled does not fail.
  ghost predicate WellTimed(s: State, e: Input) {
    match e
    case Tick(_, _, _, _, _, _) => true
    case FillEvent(id, _) => Owner(s.trace, id).Some? ==> id in s.orders && !s.orders[id].completed
    case CompleteEvent(_, _, _, _) => true
    case FailEvent(id, _) => id in s.orders && !s.orders[id].completed ==> s.orders[id].fills == []
  }

  ghost predicate TimedRun(c: Config, inputs: seq<Input>) {
    forall n :: 0 <= n < |inputs| ==> WellTimed(Run(c, inputs[..n]), inputs[n])
  }

  lemma NothingLate(c: Config, before: seq<Input>, e: Input, i: nat)
    requires WellTimed(Run(c, before), e)
    ensures Missed(c, Run(c, before), e, i) == Replaced(c, before, e, i) == NOTHING
  {}

  /** When no fill is late and no filled order fails, nothing is missed: every completed record states the signed sums
      of all the fills of its intent. */
  lemma {:induction false} TimedRecords(c: Config, inputs: seq<Input>, i: nat)
    requires TimedRun(c, inputs)
    ensures AllMissed(c, inputs, i) == NOTHING
  {
    if inputs != [] {
      var m := |inputs| - 1;
      forall n | 0 <= n < m
        ensures WellTimed(Run(c, inputs[..m][..n]), inputs[..m][n])
      {
        assert inputs[..m][..n] == inputs[..n];
      }
      TimedRecords(c, inputs[..m], i);
      NothingLate(c, inputs[..m], inputs[m], i);
    }
  }

  /** A fill after its intent is closed: if nothing was missed before, the record stays right exactly when the fill
      moves the base and money that the completion of its order had claimed for want of any fill: none at all if there
      was one. */
  lemma LateFill(c: Config, inputs: seq<Input>, id: nat, row: Row, k: nat)
    requires FreshRun(c, inputs) && k < |Run(c, inputs).trace| && Run(c, inputs).trace[k].Completed?
    requires Owns(Run(c, inputs).trace, id, Run(c, inputs).trace[k].intent)
    requires AllMissed(c, inputs, Run(c, inputs).trace[k].intent) == NOTHING
    ensures var after := inputs + [FillEvent(id, row)];
            && k < |Run(c, after).trace| && Run(c, after).trace[k] == Run(c, inputs).trace[k]
            && (History(Run(c, after).trace[k].exposure, Run(c, after).trace[k].profit)
                == AllReported(c, after, Run(c, after).trace[k].intent)
                <==> Count(NOTHING, Owner(Run(c, inputs).trace, id).value.1, row) == Claim(c, inputs, id))
  {
    var s, i, after := Run(c, inputs), Run(c, inputs).trace[k].intent, inputs + [FillEvent(id, row)];
    RunValid(c, inputs);
    RunOwned(c, inputs);
    RunAccount(c, inputs, i);
    NotOpen(s, i, k);
    assert after[..|after| - 1] == inputs;
    RunRecords(c, inputs, k);
    ClosedMisses(c, s, id, row, i);
  }

  lemma NotOpen(s: State, i: nat, k: nat)
    requires Valid(s) && k < |s.trace| && s.trace[k].Completed? && s.trace[k].intent == i
    ensures i !in s.intents
  {
    if Tally(s.trace, CompletedKind(i)) == 0 {
      NoneIs(s.trace, CompletedKind(i), k);
    }
  }

  lemma ClosedMisses(c: Config, s: State, id: nat, row: Row, i: nat)
    requires Valid(s) && Owned(s) && i !in s.intents && Owns(s.trace, id, i)
    ensures id !in s.orders && Missed(c, s, FillEvent(id, row), i) == Reported(c, s, FillEvent(id, row), i)
  {}

  /** When neither first order can be placed the intent is recorded at once, as balanced and with no profit. */
  lemma BothLegsFail(c: Config, s: State, e: Input)
    requires Opens(c, s, e) && e.buy.NoOrder? && e.sell.NoOrder?
    ensures OnTick(c, s, e).trace == s.trace + [Submitted(e.intent), Completed(e.intent, 0.0, 0.0, true)]
  {
    var t, base := Opened(s, e), e.candidate.value.base;
    assert t.intents[e.intent].legs[BuyRole] == FailedLeg(Buy, base);
    assert t.intents[e.intent].legs[SellRole] == FailedLeg(Sell, base);
  }

  // ----- the strategy object -----

  class YumtechPaperArbitrage {
    const config: Config
    var orders: map<nat, Order>
    var intents: map<nat, Intent>
    var lastSubmit: real
    // The orders placed with the connectors and the records written to the event file.
    var trace: seq<Effect>

    ghost function Now(): State
      reads this
    {
      State(orders, intents, lastSubmit, trace)
    }

    constructor (c: Config)
      ensures config == c && Now() == Start()
    {
      config := c;
      orders, intents, lastSubmit, trace := map[], map[], 0.0, [];
    }

    /** Removes the intent and every order that belongs to it. */
    method FinalizeIntent(i: nat)
      requires i in intents
      modifies this
      ensures Now() == Finalize(old(Now()), i)
    {
      var intent := intents[i];
      if BuyRole !in intent.legs || SellRole !in intent.legs {
        return;
      }
      var record := CompletedRecord(i, intent, orders);
      trace := trace + [record];
      intents := intents - {i};
      RemoveOrders(i);
    }

    method RemoveOrders(i: nat)
      modifies this`orders
      ensures orders == Without(old(orders), i)
    {
      var left := orders.Keys;
      ghost var all := orders;
      while left != {}
        invariant left <= all.Keys
        invariant forall id :: id in orders <==> id in all && (id in left || all[id].intent != i)
        invariant forall id :: id in orders ==> orders[id] == all[id]
        decreases |left|
      {
        var id :| id in left;
        left := left - {id};
        if orders[id].intent == i {
          orders := orders - {id};
        }
      }
    }

    method SubmitRecovery(i: nat, exposure: real, answer: Answer) returns (submitted: bool)
      requires i in intents
      modifies this
      ensures submitted == Recovers(config, i, old(intents[i]), exposure, answer)
      ensures Now() == if submitted then RecoveryPlaced(old(Now()), i, exposure, answer.id) else old(Now())
    {
      if Abs(exposure) <= EPSILON {
        return false;
      }
      var intent := intents[i];
      var o := RecoveryOrder(i, intent, exposure);
      if WorstLoss(config, intent, o) > config.maxLoss || answer.NoOrder? {
        return false;
      }
      intents := intents[i := intent.(recoveryRequested := true)];
      orders := orders[answer.id := o];
      trace := trace + [Placed(answer.id, i, RecoveryRole, o.side, o.requested)];
      trace := trace + [RecoverySubmitted(i)];
      return true;
    }

    method MaybeRecover(i: nat, answer: Answer)
      requires i in intents
      modifies this
      ensures Now() == MaybeRecoverOrFinalize(config, old(Now()), i, answer)
    {
      var intent := intents[i];
      if BuyRole !in intent.legs || SellRole !in intent.legs {
        return;
      }
      var exposure := intent.legs[BuyRole].filled - intent.legs[SellRole].filled;
      if Abs(exposure) <= EPSILON {
        FinalizeIntent(i);
      } else if RecoveryRole !in intent.legs && !intent.recoveryRequested {
        var submitted := SubmitRecovery(i, exposure, answer);
        if !submitted {
          FinalizeIntent(i);
        }
      } else if RecoveryRole in intent.legs {
        FinalizeIntent(i);
      }
    }

    method TryOrder(i: nat, role: Role, side: Side, venue: Venue, answer: Answer) returns (submitted: nat)
      requires i in intents
      modifies this
      ensures Now() == Open(old(Now()), i, role, side, venue, answer)
      ensures submitted == if answer.OrderId? then 1 else 0
    {
      var intent := intents[i];
      match answer {
        case OrderId(id) =>
          orders := orders[id := Order(i, role, side, venue, intent.candidate.base, [], false)];
          trace := trace + [Placed(id, i, role, side, intent.candidate.base)];
          submitted := 1;
        case NoOrder =>
          intents := intents[i := intent.(legs := intent.legs[role := FailedLeg(side, intent.candidate.base)])];
          submitted := 0;
      }
    }

    method OnTickEvent(e: Input)
      requires e.Tick?
      modifies this
      ensures Now() == OnTick(config, old(Now()), e)
    {
      if !e.ready || intents != map[] || e.now - lastSubmit < config.cooldown || e.candidate.None? {
        return;
      }
      var candidate := e.candidate.value;
      intents := intents[e.intent := Intent(candidate, map[], false)];
      var buys := TryOrder(e.intent, BuyRole, Buy, candidate.buyVenue, e.buy);
      var sells := TryOrder(e.intent, SellRole, Sell, candidate.sellVenue, e.sell);
      lastSubmit := e.now;
      trace := trace + [Submitted(e.intent)];
      if buys + sells == 0 {
        FinalizeIntent(e.intent);
      }
    }

    method DidFillOrder(id: nat, row: Row)
      modifies this
      ensures Now() == DidFill(old(Now()), id, row)
    {
      if id in orders {
        orders := orders[id := orders[id].(fills := orders[id].fills + [row])];
      }
    }

    /** The completion and failure handlers. */
    method EndOrder(e: Input)
      requires e.CompleteEvent? || e.FailEvent?
      modifies this
      ensures Now() == Step(config, old(Now()), e)
    {
      if e.order !in orders || orders[e.order].completed {
        return;
      }
      var o := orders[e.order];
      var leg := if e.CompleteEvent? then LegFromOrder(config, e.order, o, e.base, e.quote)
                 else FailedLeg(o.side, o.requested);
      orders := orders[e.order := o.(completed := true)];
      if o.intent in intents {
        var intent := intents[o.intent];
        intents := intents[o.intent := intent.(legs := intent.legs[o.role := leg])];
        MaybeRecover(o.intent, e.recovery);
      }
    }
  }
}
