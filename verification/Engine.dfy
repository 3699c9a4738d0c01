/** execution.py: the two-leg execution engine over two paper adapters.  Both legs are submitted, an
    imbalance is recovered on the leg that holds it, and the profit is booked. */
module Engine {
  import opened Options
  import opened PaperAdapter
  import opened Pricing
  import PricingDecision

  // ----- the state machine of domain.py -----

  datatype State = READY | SUBMITTING | BALANCED_FILL | PARTIAL_IMBALANCE | RECOVERY | FAILED_SAFE | HALTED

  function AllowedFrom(current: State): set<State> {
    match current
    case READY => {SUBMITTING, HALTED}
    case SUBMITTING => {BALANCED_FILL, PARTIAL_IMBALANCE, FAILED_SAFE}
    case PARTIAL_IMBALANCE => {RECOVERY, FAILED_SAFE}
    case RECOVERY => {BALANCED_FILL, FAILED_SAFE}
    case BALANCED_FILL => {}
    case FAILED_SAFE => {HALTED}
    case HALTED => {}
  }

  // None is InvalidTransition.
  function Transition(current: State, target: State): Option<State> {
    if target in AllowedFrom(current) then Some(target) else None
  }

  ghost predicate Legal(journal: seq<State>) {
    forall i :: 0 < i < |journal| ==> Transition(journal[i - 1], journal[i]).Some?
  }

  // ----- one execution -----

  // An adapter answers with a fill, or raises once it has seeded its wallet and finds no usable book.
  datatype Answer = Raised | Answered(market: Market)

  // What the three orders of an execution meet, and the fee rate seen when the recovery loss is estimated.
  datatype Meeting = Meeting(buy: Answer, sell: Answer, recovery: Answer, recoveryFee: Option<real>)

  datatype Result = NotExecutable | BadLossLimit
                  | Completed(state: State, buy: Fill, sell: Fill, recovery: Option<Fill>, profit: real, exposure: real)
                  | LimitExceeded(buy: Fill, sell: Fill)
                  | RecoveryRaised(buy: Fill, sell: Fill)

  datatype Wallets = Wallets(buyer: Wallet, seller: Wallet)

  datatype Outcome = Outcome(wallets: Wallets, result: Result, journal: seq<State>)

  const RECOVERY_SLIPPAGE := 0.001

  function ZeroFill(r: Request): Fill {
    Fill(r.side, r.base, 0.0, r.limit, 0.0, 0.0, 0.0, Failed)
  }

  function Submit(w: Wallet, r: Request, answer: Answer): (Wallet, Fill) {
    match answer
    case Raised => (SeedFor(w, r), ZeroFill(r))
    case Answered(market) => Execute(w, r, r.limit, market)
  }

  function QuoteValue(f: Fill): real {
    Times(f.filled, f.average)
  }

  function RecoveryCash(f: Fill): real {
    (if f.side == Sell then QuoteValue(f) else -QuoteValue(f)) - f.fee
  }

  function RealizedProfit(buy: Fill, sell: Fill, recovery: Option<Fill>): real {
    QuoteValue(sell) - QuoteValue(buy) - buy.fee - sell.fee
    + if recovery.Some? then RecoveryCash(recovery.value) else 0.0
  }

  function BuyRequest(op: Opportunity, asset: string): Request {
    Request(Buy, asset, op.base, op.buyVwap)
  }

  function SellRequest(op: Opportunity, asset: string): Request {
    Request(Sell, asset, op.base, op.sellVwap)
  }

  function Abs(x: real): real {
    if x < 0.0 then -x else x
  }

  // Too much base is sold where it was bought, too little is bought where it was sold.
  function RecoveryRequest(op: Opportunity, asset: string, exposure: real): Request {
    if exposure > 0.0 then Request(Sell, asset, Abs(exposure), op.buyVwap)
    else Request(Buy, asset, Abs(exposure), op.sellVwap)
  }

  function WorstLoss(r: Request, fee: Option<real>): real {
    Times(Times(r.base, r.limit), RECOVERY_SLIPPAGE + Rate(fee))
  }

  // The adapter that recovers: the buyer's for a sale, the seller's for a purchase.
  function Recoverer(ws: Wallets, side: Side): Wallet {
    if side == Sell then ws.buyer else ws.seller
  }

  function WithRecoverer(ws: Wallets, side: Side, w: Wallet): Wallets {
    if side == Sell then ws.(buyer := w) else ws.(seller := w)
  }

  function Recover(ws: Wallets, r: Request, buy: Fill, sell: Fill, exposure: real, maxLoss: real, m: Meeting): Outcome {
    var path := [READY, SUBMITTING, PARTIAL_IMBALANCE, RECOVERY];
    if WorstLoss(r, m.recoveryFee) > maxLoss then
      Outcome(ws, LimitExceeded(buy, sell), path + [FAILED_SAFE])
    else match m.recovery
      case Raised =>
        Outcome(WithRecoverer(ws, r.side, SeedFor(Recoverer(ws, r.side), r)), RecoveryRaised(buy, sell), path)
      case Answered(market) =>
        var (w, f) := Execute(Recoverer(ws, r.side), r, 0.0, market);
        var left := exposure + Signed(f.side, f.filled);
        var state := if left == 0.0 then BALANCED_FILL else FAILED_SAFE;
        Outcome(WithRecoverer(ws, r.side, w),
                Completed(state, buy, sell, Some(f), RealizedProfit(buy, sell, Some(f)), left), path + [state])
  }

  // Both legs have answered.
  function SettleLegs(ws: Wallets, op: Opportunity, asset: string, buy: Fill, sell: Fill, maxLoss: real, m: Meeting)
    : Outcome
  {
    var exposure := buy.filled - sell.filled;
    if exposure != 0.0 then
      Recover(ws, RecoveryRequest(op, asset, exposure), buy, sell, exposure, maxLoss, m)
    else
      var state := if buy.filled == op.base then BALANCED_FILL else FAILED_SAFE;
      Outcome(ws, Completed(state, buy, sell, None, RealizedProfit(buy, sell, None), exposure),
              [READY, SUBMITTING, state])
  }

  /** The whole execution of an opportunity whose exchanges are the two wallets'. */
  function Executed(ws: Wallets, op: Opportunity, asset: string, maxLoss: real, m: Meeting): Outcome {
    if !op.executable then Outcome(ws, NotExecutable, [])
    else if maxLoss <= 0.0 then Outcome(ws, BadLossLimit, [])
    else
      var (b, buy) := Submit(ws.buyer, BuyRequest(op, asset), m.buy);
      var (s, sell) := Submit(ws.seller, SellRequest(op, asset), m.sell);
      SettleLegs(Wallets(b, s), op, asset, buy, sell, maxLoss, m)
  }

  // ----- no forbidden transition; balanced means no exposure -----

  // A journal that starts READY, takes allowed steps only and ends in the state of a completed result.
  ghost predicate Recorded(o: Outcome) {
    && Legal(o.journal)
    && (o.journal != [] ==> o.journal[0] == READY)
    && (o.result.Completed? ==> |o.journal| > 0 && o.journal[|o.journal| - 1] == o.result.state)
  }

  ghost predicate BalancedExactly(result: Result, base: real) {
    result.Completed? ==>
      && (result.state == BALANCED_FILL || result.state == FAILED_SAFE)
      && (result.state == BALANCED_FILL <==>
            result.exposure == 0.0 && (result.recovery.Some? || result.buy.filled == base))
  }

  lemma RecoverJournal(ws: Wallets, r: Request, buy: Fill, sell: Fill, exposure: real, maxLoss: real, m: Meeting,
                       base: real)
    ensures var o := Recover(ws, r, buy, sell, exposure, maxLoss, m);
            Recorded(o) && BalancedExactly(o.result, base)
  {}

  /** Every recorded step is an allowed transition, and a completed execution ends balanced exactly when no
      exposure is left and either something was recovered or the whole amount was filled. */
  lemma JournalLegal(ws: Wallets, op: Opportunity, asset: string, maxLoss: real, m: Meeting)
    ensures var o := Executed(ws, op, asset, maxLoss, m);
            Recorded(o) && BalancedExactly(o.result, op.base)
  {
    if op.executable && maxLoss > 0.0 {
      var (b, buy) := Submit(ws.buyer, BuyRequest(op, asset), m.buy);
      var (s, sell) := Submit(ws.seller, SellRequest(op, asset), m.sell);
      SettlingJournal(Wallets(b, s), op, asset, buy, sell, maxLoss, m);
    }
  }

  lemma SettlingJournal(ws: Wallets, op: Opportunity, asset: string, buy: Fill, sell: Fill, maxLoss: real, m: Meeting)
    ensures var o := SettleLegs(ws, op, asset, buy, sell, maxLoss, m);
            Recorded(o) && BalancedExactly(o.result, op.base)
  {
    var exposure := buy.filled - sell.filled;
    if exposure != 0.0 {
      RecoverJournal(ws, RecoveryRequest(op, asset, exposure), buy, sell, exposure, maxLoss, m, op.base);
    }
  }

  // ----- where an imbalance is recovered -----

  // The estimated loss of recovering so much: a thousandth of its value and the fee.
  ghost function EstimatedLoss(amount: real, price: real, fee: Option<real>): real {
    Times(Times(amount, price),
          0.001 + if fee.Some? && 0.0 <= fee.value <= 0.1 then fee.value else 0.0015)
  }

  // The recovery's fill undoes the gap when it fills what it asks for, on the side that holds the surplus.
  ghost predicate Routed(ws: Wallets, after: Wallets, gap: real, f: Fill, left: real) {
    && f.requested == Abs(gap) && gap + Signed(f.side, f.requested) == 0.0 && left == gap + Signed(f.side, f.filled)
    && (gap > 0.0 ==> after.seller == ws.seller) && (gap < 0.0 ==> after.buyer == ws.buyer)
  }

  /** Legs that differ are recovered unless the estimated loss, at the price of the leg that holds the surplus, exceeds
      the limit: then nothing more is ordered.  A surplus is sold on the buyer's side, a shortage bought on the
      seller's, and only that wallet changes. */
  lemma RecoveryRouted(ws: Wallets, op: Opportunity, asset: string, buy: Fill, sell: Fill, maxLoss: real, m: Meeting)
    requires buy.filled != sell.filled
    ensures var o := SettleLegs(ws, op, asset, buy, sell, maxLoss, m);
            var gap := buy.filled - sell.filled;
            if EstimatedLoss(Abs(gap), if gap > 0.0 then op.buyVwap else op.sellVwap, m.recoveryFee) > maxLoss
            then o.wallets == ws && o.result == LimitExceeded(buy, sell)
            else if m.recovery.Raised? then o.result == RecoveryRaised(buy, sell)
            else o.result.Completed? && o.result.recovery.Some?
                 && Routed(ws, o.wallets, gap, o.result.recovery.value, o.result.exposure)
  {}

  // ----- conservation -----

  function Total(ws: Wallets, asset: string): real {
    Balance(ws.buyer, asset) + Balance(ws.seller, asset)
  }

  ghost predicate Ready(ws: Wallets) {
    TRY in ws.buyer.seeded && TRY in ws.seller.seeded
  }

  // What one leg did to its wallet.
  ghost predicate LegMoved(w: Wallet, after: Wallet, r: Request, f: Fill) {
    f.side == r.side && 0.0 <= f.filled <= Max(r.base, 0.0) && Moved(w, after, r, f, QuoteValue(f))
  }

  lemma SubmitMoves(w: Wallet, r: Request, answer: Answer)
    requires r.asset != TRY && TRY in w.seeded
    ensures LegMoved(w, Submit(w, r, answer).0, r, Submit(w, r, answer).1)
  {
    match answer {
      case Raised =>
        SeedMoves(w, r);
        NoMoney(r.limit);
      case Answered(market) =>
        var quote := OrderConserves(w, r, r.limit, market);
        WorthIsValue(Submit(w, r, answer).1, quote);
    }
  }

  lemma NoMoney(limit: real)
    ensures Times(0.0, limit) == 0.0
  {}

  lemma WorthIsValue(f: Fill, quote: real)
    requires Worth(f, quote)
    ensures quote == QuoteValue(f)
  {}

  // All the base conjured up by first orders during an execution.
  function ConjuredIn(ws: Wallets, op: Opportunity, asset: string, maxLoss: real, m: Meeting): real {
    if !op.executable || maxLoss <= 0.0 then 0.0
    else
      var (b, buy) := Submit(ws.buyer, BuyRequest(op, asset), m.buy);
      var (s, sell) := Submit(ws.seller, SellRequest(op, asset), m.sell);
      Conjured(ws.buyer, BuyRequest(op, asset)) + Conjured(ws.seller, SellRequest(op, asset))
      + ConjuredSettling(Wallets(b, s), op, asset, buy, sell, maxLoss, m)
  }

  // The money and the base that the fills of a result moved.
  function Cash(result: Result): real {
    match result
    case NotExecutable => 0.0
    case BadLossLimit => 0.0
    case Completed(_, buy, sell, recovery, _, _) => RealizedProfit(buy, sell, recovery)
    case LimitExceeded(buy, sell) => RealizedProfit(buy, sell, None)
    case RecoveryRaised(buy, sell) => RealizedProfit(buy, sell, None)
  }

  function Exposure(result: Result): real {
    match result
    case NotExecutable => 0.0
    case BadLossLimit => 0.0
    case Completed(_, _, _, _, _, exposure) => exposure
    case LimitExceeded(buy, sell) => buy.filled - sell.filled
    case RecoveryRaised(buy, sell) => buy.filled - sell.filled
  }

  // Between two pairs of wallets exactly this much money and base appeared, in no other asset anything.
  ghost predicate Shifted(before: Wallets, after: Wallets, asset: string, cash: real, base: real) {
    && Total(after, TRY) == Total(before, TRY) + cash
    && Total(after, asset) == Total(before, asset) + base
    && (forall a :: a != TRY && a != asset ==> Total(after, a) == Total(before, a))
    && Ready(after)
  }

  lemma LegsShift(ws: Wallets, op: Opportunity, asset: string, b: Wallet, buy: Fill, s: Wallet, sell: Fill)
    requires Ready(ws) && asset != TRY
    requires LegMoved(ws.buyer, b, BuyRequest(op, asset), buy) && LegMoved(ws.seller, s, SellRequest(op, asset), sell)
    ensures Shifted(ws, Wallets(b, s), asset, RealizedProfit(buy, sell, None),
                    buy.filled - sell.filled
                    + Conjured(ws.buyer, BuyRequest(op, asset)) + Conjured(ws.seller, SellRequest(op, asset)))
  {}

  lemma RecoveryShifts(ws: Wallets, r: Request, w: Wallet, f: Fill)
    requires Ready(ws) && r.asset != TRY && LegMoved(Recoverer(ws, r.side), w, r, f)
    ensures Shifted(ws, WithRecoverer(ws, r.side, w), r.asset, RecoveryCash(f),
                    Signed(f.side, f.filled) + Conjured(Recoverer(ws, r.side), r))
  {}

  lemma SeedShifts(ws: Wallets, r: Request)
    requires Ready(ws) && r.asset != TRY
    ensures Shifted(ws, WithRecoverer(ws, r.side, SeedFor(Recoverer(ws, r.side), r)), r.asset, 0.0,
                    Conjured(Recoverer(ws, r.side), r))
  {
    SeedMoves(Recoverer(ws, r.side), r);
  }

  lemma ShiftTwice(a: Wallets, b: Wallets, c: Wallets, asset: string,
                   cash1: real, base1: real, cash2: real, base2: real)
    requires Shifted(a, b, asset, cash1, base1) && Shifted(b, c, asset, cash2, base2)
    ensures Shifted(a, c, asset, cash1 + cash2, base1 + base2)
  {}

  lemma RecoverConserves(ws: Wallets, r: Request, buy: Fill, sell: Fill, exposure: real, maxLoss: real, m: Meeting)
    requires Ready(ws) && r.asset != TRY && exposure == buy.filled - sell.filled
    ensures var o := Recover(ws, r, buy, sell, exposure, maxLoss, m);
            Shifted(ws, o.wallets, r.asset, Cash(o.result) - RealizedProfit(buy, sell, None),
                    Exposure(o.result) - exposure
                    + if WorstLoss(r, m.recoveryFee) <= maxLoss then Conjured(Recoverer(ws, r.side), r) else 0.0)
  {
    if WorstLoss(r, m.recoveryFee) <= maxLoss {
      var w := Recoverer(ws, r.side);
      match m.recovery {
        case Raised =>
          SeedShifts(ws, r);
        case Answered(market) =>
          var quote := OrderConserves(w, r, 0.0, market);
          var (after, f) := Execute(w, r, 0.0, market);
          WorthIsValue(f, quote);
          RecoveryShifts(ws, r, after, f);
      }
    }
  }

  /** Across an execution the money of both wallets changes by exactly what the fills say, and the base by
      the reported exposure plus what was seeded; whether it completes, is blocked or raises. */
  lemma ExecutionConserves(ws: Wallets, op: Opportunity, asset: string, maxLoss: real, m: Meeting)
    requires Ready(ws) && asset != TRY
    ensures var o := Executed(ws, op, asset, maxLoss, m);
            Shifted(ws, o.wallets, asset, Cash(o.result), Exposure(o.result) + ConjuredIn(ws, op, asset, maxLoss, m))
  {
    if op.executable && maxLoss > 0.0 {
      var (b, buy) := Submit(ws.buyer, BuyRequest(op, asset), m.buy);
      var (s, sell) := Submit(ws.seller, SellRequest(op, asset), m.sell);
      SubmitMoves(ws.buyer, BuyRequest(op, asset), m.buy);
      SubmitMoves(ws.seller, SellRequest(op, asset), m.sell);
      LegsShift(ws, op, asset, b, buy, s, sell);
      var mid := Wallets(b, s);
      var seeds := Conjured(ws.buyer, BuyRequest(op, asset)) + Conjured(ws.seller, SellRequest(op, asset));
      var o := SettleLegs(mid, op, asset, buy, sell, maxLoss, m);
      SettlingConserves(mid, op, asset, buy, sell, maxLoss, m);
      ShiftTwice(ws, mid, o.wallets, asset, RealizedProfit(buy, sell, None), buy.filled - sell.filled + seeds,
                 Cash(o.result) - RealizedProfit(buy, sell, None),
                 Exposure(o.result) - (buy.filled - sell.filled)
                 + ConjuredSettling(mid, op, asset, buy, sell, maxLoss, m));
    }
  }

  // The base conjured up by a first recovery order.
  function ConjuredSettling(ws: Wallets, op: Opportunity, asset: string, buy: Fill, sell: Fill, maxLoss: real,
                            m: Meeting): real
  {
    var exposure := buy.filled - sell.filled;
    var r := RecoveryRequest(op, asset, exposure);
    if exposure != 0.0 && WorstLoss(r, m.recoveryFee) <= maxLoss then Conjured(Recoverer(ws, r.side), r) else 0.0
  }

  lemma SettlingConserves(ws: Wallets, op: Opportunity, asset: string, buy: Fill, sell: Fill, maxLoss: real, m: Meeting)
    requires Ready(ws) && asset != TRY
    ensures var o := SettleLegs(ws, op, asset, buy, sell, maxLoss, m);
            Shifted(ws, o.wallets, asset, Cash(o.result) - RealizedProfit(buy, sell, None),
                    Exposure(o.result) - (buy.filled - sell.filled)
                    + ConjuredSettling(ws, op, asset, buy, sell, maxLoss, m))
  {
    var exposure := buy.filled - sell.filled;
    if exposure != 0.0 {
      RecoverConserves(ws, RecoveryRequest(op, asset, exposure), buy, sell, exposure, maxLoss, m);
    }
  }

  /** For a completed execution: the booked profit is the money gained; once both wallets are seeded with the
      asset a balanced fill leaves their base unchanged. */
  lemma ProfitIsMoneyGained(ws: Wallets, op: Opportunity, asset: string, maxLoss: real, m: Meeting)
    requires Ready(ws) && asset != TRY && Executed(ws, op, asset, maxLoss, m).result.Completed?
    ensures var o := Executed(ws, op, asset, maxLoss, m);
            && o.result.profit == Total(o.wallets, TRY) - Total(ws, TRY)
            && (asset in ws.buyer.seeded && asset in ws.seller.seeded ==>
                  o.result.exposure == Total(o.wallets, asset) - Total(ws, asset))
  {
    ExecutionConserves(ws, op, asset, maxLoss, m);
    if asset in ws.buyer.seeded && asset in ws.seller.seeded {
      NothingConjured(ws, op, asset, maxLoss, m);
    }
  }

  lemma StaysSeeded(w: Wallet, r: Request, answer: Answer)
    ensures w.seeded <= Submit(w, r, answer).0.seeded
  {}

  lemma NothingConjured(ws: Wallets, op: Opportunity, asset: string, maxLoss: real, m: Meeting)
    requires Ready(ws) && asset in ws.buyer.seeded && asset in ws.seller.seeded
    ensures ConjuredIn(ws, op, asset, maxLoss, m) == 0.0
  {
    StaysSeeded(ws.buyer, BuyRequest(op, asset), m.buy);
    StaysSeeded(ws.seller, SellRequest(op, asset), m.sell);
  }

  // ----- recovery -----

  // No larger than the imbalance and on its side.
  ghost predicate Shrunk(imbalance: real, left: real) {
    Abs(left) <= Abs(imbalance) && (imbalance >= 0.0 ==> left >= 0.0) && (imbalance <= 0.0 ==> left <= 0.0)
  }

  lemma RecoverShrinks(ws: Wallets, op: Opportunity, asset: string, buy: Fill, sell: Fill, maxLoss: real, m: Meeting)
    requires Ready(ws) && asset != TRY && buy.filled != sell.filled
    ensures var exposure := buy.filled - sell.filled;
            var result := Recover(ws, RecoveryRequest(op, asset, exposure), buy, sell, exposure, maxLoss, m).result;
            result.Completed? ==> Shrunk(exposure, result.exposure)
  {
    var r := RecoveryRequest(op, asset, buy.filled - sell.filled);
    if m.recovery.Answered? {
      var quote := OrderConserves(Recoverer(ws, r.side), r, 0.0, m.recovery.market);
    }
  }

  lemma SettlingShrinks(ws: Wallets, op: Opportunity, asset: string, buy: Fill, sell: Fill, maxLoss: real, m: Meeting)
    requires Ready(ws) && asset != TRY
    ensures var result := SettleLegs(ws, op, asset, buy, sell, maxLoss, m).result;
            result.Completed? ==>
              result.buy == buy && result.sell == sell && Shrunk(buy.filled - sell.filled, result.exposure)
  {
    if buy.filled != sell.filled {
      RecoverShrinks(ws, op, asset, buy, sell, maxLoss, m);
    }
  }

  /** Recovery never overshoots: what remains has the sign of the imbalance and is no larger. */
  lemma RecoveryShrinks(ws: Wallets, op: Opportunity, asset: string, maxLoss: real, m: Meeting)
    requires Ready(ws) && asset != TRY && Executed(ws, op, asset, maxLoss, m).result.Completed?
    ensures var r := Executed(ws, op, asset, maxLoss, m).result;
            Shrunk(r.buy.filled - r.sell.filled, r.exposure)
  {
    var (b, buy) := Submit(ws.buyer, BuyRequest(op, asset), m.buy);
    var (s, sell) := Submit(ws.seller, SellRequest(op, asset), m.sell);
    StaysSeeded(ws.buyer, BuyRequest(op, asset), m.buy);
    StaysSeeded(ws.seller, SellRequest(op, asset), m.sell);
    SettlingShrinks(Wallets(b, s), op, asset, buy, sell, maxLoss, m);
  }

  // ----- the realized profit covers the expected one -----

  ghost predicate FilledAtRates(result: Result, op: Opportunity) {
    && result.Completed? && result.state == BALANCED_FILL && result.recovery.None?
    && result.buy.rate == op.buyFee && result.sell.rate == op.sellFee
  }

  // The fill of an order that was answered, at what it is worth.
  lemma AnsweredFill(w: Wallet, r: Request, market: Market) returns (quote: real)
    requires r.limit > 0.0
    ensures var f := Execute(w, r, r.limit, market).1;
            && quote == QuoteValue(f) && f.fee == Times(quote, f.rate) && 0.0 <= f.rate <= 0.10
            && (r.side == Buy ==> AtMost(quote, f.filled, r.limit))
            && (r.side == Sell ==> AtLeast(quote, f.filled, r.limit))
  {
    var x := MatchedIn(w, r, r.limit, market);
    MatchedSound(SeedFor(w, r), r, LevelsFor(r, market), r.limit, Rate(market.fee));
    FillWithinLimit(w, r, r.limit, market);
    quote := x.quote;
    WorthIsValue(FillOf(r, x, Rate(market.fee)), quote);
  }

  lemma ProfitIsNet(buy: Fill, sell: Fill, qb: real, qs: real)
    requires qb == QuoteValue(buy) && buy.fee == Times(qb, buy.rate)
    requires qs == QuoteValue(sell) && sell.fee == Times(qs, sell.rate)
    ensures RealizedProfit(buy, sell, None) == NetOf(qb, qs, buy.rate, sell.rate)
  {}

  lemma AtLimits(op: Opportunity, bc: real, sv: real, qb: real, qs: real)
    requires Takes(bc, op.base, op.buyVwap, 0.0) && Promised(op, sv)
    requires AtMost(qb, op.base, op.buyVwap) && AtLeast(qs, op.base, op.sellVwap)
    ensures qb <= bc && sv <= qs
  {}

  /** A balanced fill without recovery, at the fee rates the opportunity was priced with, realizes at least
      the expected net profit plus the safety buffer. */
  lemma ProfitCoversExpected(ws: Wallets, op: Opportunity, asset: string, maxLoss: real, m: Meeting, bc: real, sv: real)
    requires Offered(op, bc, sv) && FilledAtRates(Executed(ws, op, asset, maxLoss, m).result, op)
    ensures Covered(op, Executed(ws, op, asset, maxLoss, m).result.profit)
  {
    var (b, buy) := Submit(ws.buyer, BuyRequest(op, asset), m.buy);
    var (s, sell) := Submit(ws.seller, SellRequest(op, asset), m.sell);
    var qb := AnsweredFill(ws.buyer, BuyRequest(op, asset), m.buy.market);
    var qs := AnsweredFill(ws.seller, SellRequest(op, asset), m.sell.market);
    AtLimits(op, bc, sv, qb, qs);
    BetterNet(op, bc, sv, qb, qs);
    ProfitIsNet(buy, sell, qb, qs);
  }

  /** So does one of an opportunity priced from two books and capped to budgets. */
  lemma CappedProfitCovers(asks: seq<Level>, bids: seq<Level>, t: Terms,
                           buyValue: Option<real>, sellValue: Option<real>,
                           ws: Wallets, asset: string, maxLoss: real, m: Meeting)
    requires Priced(asks, bids, t).Some?
    requires ApplyQuoteBudgets(Priced(asks, bids, t).value, buyValue, sellValue).Some?
    requires var op := ApplyQuoteBudgets(Priced(asks, bids, t).value, buyValue, sellValue).value;
             FilledAtRates(Executed(ws, op, asset, maxLoss, m).result, op)
    ensures var op := ApplyQuoteBudgets(Priced(asks, bids, t).value, buyValue, sellValue).value;
            Covered(op, Executed(ws, op, asset, maxLoss, m).result.profit)
  {
    var bc, sv := CappedOffered(asks, bids, t, buyValue, sellValue);
    ProfitCoversExpected(ws, ApplyQuoteBudgets(Priced(asks, bids, t).value, buyValue, sellValue).value,
                         asset, maxLoss, m, bc, sv);
  }

  /** The profit booked for an executable opportunity that is capped and then filled in balance is at least the demanded
      share of its cost, and the buffer on top. */
  lemma ProfitDemanded(asks: seq<Level>, bids: seq<Level>, t: Terms,
                       buyValue: Option<real>, sellValue: Option<real>,
                       ws: Wallets, asset: string, maxLoss: real, m: Meeting)
    requires Priced(asks, bids, t).Some? && Priced(asks, bids, t).value.executable
    requires ApplyQuoteBudgets(Priced(asks, bids, t).value, buyValue, sellValue).Some?
    requires var op := ApplyQuoteBudgets(Priced(asks, bids, t).value, buyValue, sellValue).value;
             FilledAtRates(Executed(ws, op, asset, maxLoss, m).result, op)
    ensures var op := ApplyQuoteBudgets(Priced(asks, bids, t).value, buyValue, sellValue).value;
            PricingDecision.Earns(op, Executed(ws, op, asset, maxLoss, m).result.profit, t.minProfit)
  {
    PricingDecision.CappedAtLeast(asks, bids, t, buyValue, sellValue);
    CappedProfitCovers(asks, bids, t, buyValue, sellValue, ws, asset, maxLoss, m);
  }

  // ----- whole runs -----

  ghost predicate Solvent(ws: Wallets) {
    NonNegative(ws.buyer) && NonNegative(ws.seller)
  }

  ghost predicate BestFirstAnswer(answer: Answer) {
    answer.Answered? ==> Ascending(Live(answer.market.asks))
  }

  ghost predicate BestFirstBooks(m: Meeting) {
    BestFirstAnswer(m.buy) && BestFirstAnswer(m.sell) && BestFirstAnswer(m.recovery)
  }

  lemma SubmitSolvent(w: Wallet, r: Request, answer: Answer)
    requires NonNegative(w) && BestFirstAnswer(answer)
    ensures NonNegative(Submit(w, r, answer).0)
  {
    SeededNonNegative(w, r);
    if answer.Answered? {
      OrderKeepsNonNegative(w, r, r.limit, answer.market);
    }
  }

  lemma ExecutionSolvent(ws: Wallets, op: Opportunity, asset: string, maxLoss: real, m: Meeting)
    requires Solvent(ws) && BestFirstBooks(m)
    ensures Solvent(Executed(ws, op, asset, maxLoss, m).wallets)
  {
    var (b, buy) := Submit(ws.buyer, BuyRequest(op, asset), m.buy);
    var (s, sell) := Submit(ws.seller, SellRequest(op, asset), m.sell);
    SubmitSolvent(ws.buyer, BuyRequest(op, asset), m.buy);
    SubmitSolvent(ws.seller, SellRequest(op, asset), m.sell);
    SettlingSolvent(Wallets(b, s), op, asset, buy, sell, maxLoss, m);
  }

  lemma SettlingSolvent(ws: Wallets, op: Opportunity, asset: string, buy: Fill, sell: Fill, maxLoss: real, m: Meeting)
    requires Solvent(ws) && BestFirstBooks(m)
    ensures Solvent(SettleLegs(ws, op, asset, buy, sell, maxLoss, m).wallets)
  {
    var r := RecoveryRequest(op, asset, buy.filled - sell.filled);
    var w := Recoverer(ws, r.side);
    SeededNonNegative(w, r);
    if m.recovery.Answered? {
      OrderKeepsNonNegative(w, r, 0.0, m.recovery.market);
    }
  }

  datatype Job = Job(op: Opportunity, asset: string, maxLoss: real, meeting: Meeting)

  function RunJobs(ws: Wallets, jobs: seq<Job>): Wallets {
    if jobs == [] then ws
    else
      var before, j := RunJobs(ws, jobs[..|jobs| - 1]), jobs[|jobs| - 1];
      Executed(before, j.op, j.asset, j.maxLoss, j.meeting).wallets
  }

  // The money moved by all the executions of a run.
  function RunCash(ws: Wallets, jobs: seq<Job>): real {
    if jobs == [] then 0.0
    else
      var before, j := RunJobs(ws, jobs[..|jobs| - 1]), jobs[|jobs| - 1];
      RunCash(ws, jobs[..|jobs| - 1]) + Cash(Executed(before, j.op, j.asset, j.maxLoss, j.meeting).result)
  }

  /** Over any run of executions the two wallets together hold exactly the starting money plus what the fills
      of every execution netted, and no balance is ever negative. */
  lemma {:induction false} RunConserves(ws: Wallets, jobs: seq<Job>)
    requires Ready(ws) && forall i :: 0 <= i < |jobs| ==> jobs[i].asset != TRY
    ensures Ready(RunJobs(ws, jobs)) && Total(RunJobs(ws, jobs), TRY) == Total(ws, TRY) + RunCash(ws, jobs)
    ensures Solvent(ws) && (forall i :: 0 <= i < |jobs| ==> BestFirstBooks(jobs[i].meeting)) ==>
              Solvent(RunJobs(ws, jobs))
  {
    if jobs != [] {
      var n := |jobs| - 1;
      var j := jobs[n];
      RunConserves(ws, jobs[..n]);
      var before := RunJobs(ws, jobs[..n]);
      ExecutionConserves(before, j.op, j.asset, j.maxLoss, j.meeting);
      if Solvent(ws) && forall i :: 0 <= i < |jobs| ==> BestFirstBooks(jobs[i].meeting) {
        assert forall i :: 0 <= i < n ==> jobs[..n][i] == jobs[i];
        ExecutionSolvent(before, j.op, j.asset, j.maxLoss, j.meeting);
      }
    }
  }

  // ----- the engine -----

  class ArbitrageExecutionEngine {
    // The states recorded for the execution at hand.
    var journal: seq<State>

    constructor ()
      ensures journal == []
    {
      journal := [];
    }

    method SubmitLeg(adapter: HummingbotPaperAdapter, r: Request, answer: Answer) returns (fill: Fill)
      modifies adapter
      ensures (adapter.State(), fill) == Submit(old(adapter.State()), r, answer)
    {
      match answer {
        case Raised =>
          adapter.SeedOrder(r);
          fill := ZeroFill(r);
        case Answered(market) =>
          fill := adapter.SubmitLimit(r, market);
      }
    }

    method Step(target: State)
      requires journal != [] && Transition(journal[|journal| - 1], target).Some?
      modifies this
      ensures journal == old(journal) + [target]
    {
      journal := journal + [target];
    }

    method RecoverImbalance(buyer: HummingbotPaperAdapter, seller: HummingbotPaperAdapter, r: Request,
                            buy: Fill, sell: Fill, exposure: real, maxLoss: real, m: Meeting) returns (result: Result)
      requires buyer != seller && journal == [READY, SUBMITTING, PARTIAL_IMBALANCE, RECOVERY]
      modifies this, buyer, seller
      ensures Outcome(Wallets(buyer.State(), seller.State()), result, journal)
              == Recover(Wallets(old(buyer.State()), old(seller.State())), r, buy, sell, exposure, maxLoss, m)
    {
      if WorstLoss(r, m.recoveryFee) > maxLoss {
        Step(FAILED_SAFE);
        return LimitExceeded(buy, sell);
      }
      var adapter := if r.side == Sell then buyer else seller;
      match m.recovery {
        case Raised =>
          adapter.SeedOrder(r);
          return RecoveryRaised(buy, sell);
        case Answered(market) =>
          var f := adapter.RecoverMarket(r, market);
          var left := exposure + Signed(f.side, f.filled);
          Step(if left == 0.0 then BALANCED_FILL else FAILED_SAFE);
          return Completed(journal[|journal| - 1], buy, sell, Some(f), RealizedProfit(buy, sell, Some(f)), left);
      }
    }

    method ExecutePaper(buyer: HummingbotPaperAdapter, seller: HummingbotPaperAdapter, op: Opportunity, asset: string,
                        maxLoss: real, m: Meeting) returns (result: Result)
      requires buyer != seller
      modifies this, buyer, seller
      ensures Outcome(Wallets(buyer.State(), seller.State()), result, journal)
              == Executed(Wallets(old(buyer.State()), old(seller.State())), op, asset, maxLoss, m)
    {
      journal := [];
      if !op.executable {
        return NotExecutable;
      }
      if maxLoss <= 0.0 {
        return BadLossLimit;
      }
      journal := [READY];
      Step(SUBMITTING);
      var buy := SubmitLeg(buyer, BuyRequest(op, asset), m.buy);
      var sell := SubmitLeg(seller, SellRequest(op, asset), m.sell);
      result := SettleBoth(buyer, seller, op, asset, buy, sell, maxLoss, m);
    }

    method SettleBoth(buyer: HummingbotPaperAdapter, seller: HummingbotPaperAdapter, op: Opportunity, asset: string,
                      buy: Fill, sell: Fill, maxLoss: real, m: Meeting) returns (result: Result)
      requires buyer != seller && journal == [READY, SUBMITTING]
      modifies this, buyer, seller
      ensures Outcome(Wallets(buyer.State(), seller.State()), result, journal)
              == SettleLegs(Wallets(old(buyer.State()), old(seller.State())), op, asset, buy, sell, maxLoss, m)
    {
      var exposure := buy.filled - sell.filled;
      if exposure == 0.0 && buy.filled == op.base {
        Step(BALANCED_FILL);
      } else if exposure != 0.0 {
        Step(PARTIAL_IMBALANCE);
        Step(RECOVERY);
        result := RecoverImbalance(buyer, seller, RecoveryRequest(op, asset, exposure), buy, sell, exposure,
                                   maxLoss, m);
        return;
      } else {
        Step(FAILED_SAFE);
      }
      result := Completed(journal[|journal| - 1], buy, sell, None, RealizedProfit(buy, sell, None), exposure);
    }
  }
}
