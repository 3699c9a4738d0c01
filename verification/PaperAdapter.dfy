/** execution.py: the order-book backed paper adapter.  It walks the live book within a limit price, fills no
    more than its synthetic wallet can carry and settles the fill in that wallet. */
module PaperAdapter {
  import opened Options
  import opened Pricing

  datatype Side = Buy | Sell
  datatype Status = Filled | Partial | NoLiquidity | Failed

  // asset is the base asset of the request's pair; a limit of zero is no limit.
  datatype Request = Request(side: Side, asset: string, base: real, limit: real)

  datatype Fill = Fill(side: Side, requested: real, filled: real, average: real, fee: real, rate: real,
                       slippage: real, status: Status)

  // What the adapter sees when the order is matched: the two sides of the book, both empty when there is
  // no fresh one, and what the fee provider returned.
  datatype Market = Market(asks: seq<Level>, bids: seq<Level>, fee: Option<real>)

  datatype Wallet = Wallet(balances: map<string, real>, seeded: set<string>, initialTry: real, multiplier: real)

  const TRY := "TRY"
  const DUST := 0.00000000000001

  // ----- walking the book within a limit -----

  function Times(x: real, y: real): real {
    x * y
  }

  predicate PricedOut(side: Side, price: real, limit: real) {
    limit != 0.0 && ((side == Buy && price > limit) || (side == Sell && price < limit))
  }

  // The levels before the first one beyond the limit.
  function Cut(l: seq<Level>, side: Side, limit: real): (c: seq<Level>)
    ensures c <= l
    ensures forall i :: 0 <= i < |c| ==> !PricedOut(side, c[i].price, limit)
  {
    if l == [] || PricedOut(side, l[0].price, limit) then [] else [l[0]] + Cut(l[1..], side, limit)
  }

  // What is taken when walking for x stops once no more than dust is missing.
  function Taken(l: seq<Level>, x: real): real {
    if l == [] then 0.0
    else
      var take := Min(l[0].amount, x);
      if x - take <= DUST then take else take + Taken(l[1..], x - take)
  }

  function Paid(l: seq<Level>, x: real): real {
    if l == [] then 0.0
    else
      var take := Min(l[0].amount, x);
      var paid := take * l[0].price;
      if x - take <= DUST then paid else paid + Paid(l[1..], x - take)
  }

  datatype Walked = Walked(filled: real, quote: real, average: real, best: real)

  function Best(l: seq<Level>): real {
    if l == [] then 0.0 else l[0].price
  }

  function Walk(levels: seq<Level>, amount: real, side: Side, limit: real): Walked {
    var c, x := Cut(Live(levels), side, limit), Max(amount, 0.0);
    Walked(Taken(c, x), Paid(c, x), Vwap(Paid(c, x), Taken(c, x)), Best(Live(levels)))
  }

  /** The walk takes at most x, nearly all of it unless the book runs out, and pays exactly what taking that
      much from the front of the book costs. */
  lemma {:induction false} TakenIs(l: seq<Level>, x: real)
    requires AllLive(l) && x >= 0.0
    ensures 0.0 <= Taken(l, x) <= Min(x, Depth(l)) && Paid(l, x) == Cost(l, Taken(l, x)) >= 0.0
    ensures Taken(l, x) < x - DUST ==> Taken(l, x) == Depth(l)
  {
    TakenBounds(l, x);
    PaidIsCost(l, x);
    CostNonNegative(l, Taken(l, x));
  }

  lemma {:induction false} TakenBounds(l: seq<Level>, x: real)
    requires AllLive(l) && x >= 0.0
    ensures 0.0 <= Taken(l, x) <= Min(x, Depth(l)) && (Taken(l, x) < x - DUST ==> Taken(l, x) == Depth(l))
  {
    DepthPositive(l);
    if l != [] {
      DepthPositive(l[1..]);
      if x - Min(l[0].amount, x) > DUST {
        TakenBounds(l[1..], x - Min(l[0].amount, x));
      }
    }
  }

  lemma {:induction false} PaidIsCost(l: seq<Level>, x: real)
    requires AllLive(l) && x >= 0.0
    ensures Paid(l, x) == Cost(l, Taken(l, x))
  {
    if l != [] {
      var t, take := l[1..], Min(l[0].amount, x);
      PaidFirst(l, x);
      TakenFirst(l, x);
      CostStep(l, Taken(l, x));
      if x - take > DUST {
        PaidIsCost(t, x - take);
      }
      OneTotal(take, l[0].price, Cost(t, Taken(l, x) - take), Paid(l, x), Cost(l, Taken(l, x)));
    }
  }

  lemma PaidFirst(l: seq<Level>, x: real)
    requires l != []
    ensures var take := Min(l[0].amount, x);
            Takes(Paid(l, x), take, l[0].price, if x - take <= DUST then 0.0 else Paid(l[1..], x - take))
  {}

  lemma TakenFirst(l: seq<Level>, x: real)
    requires l != [] && AllLive(l) && x >= 0.0
    ensures var take := Min(l[0].amount, x);
            && Taken(l, x) == take + (if x - take <= DUST then 0.0 else Taken(l[1..], x - take))
            && Min(l[0].amount, Taken(l, x)) == take && Taken(l, x) >= 0.0
  {
    TakenBounds(l, x);
    if x - Min(l[0].amount, x) > DUST {
      TakenBounds(l[1..], x - Min(l[0].amount, x));
    }
  }

  lemma OneTotal(x: real, h: real, c: real, a: real, b: real)
    requires Takes(a, x, h, c) && Takes(b, x, h, c)
    ensures a == b
  {}

  // The state of the loop: what is filled and paid, and what the remaining levels will add.
  ghost predicate Walking(levels: seq<Level>, x: real, side: Side, limit: real, i: nat, filled: real, quote: real)
    requires i <= |levels|
  {
    var c, rest := Cut(Live(levels), side, limit), Cut(Live(levels[i..]), side, limit);
    && Taken(c, x) == filled + Taken(rest, x - filled)
    && Paid(c, x) == quote + Paid(rest, x - filled)
  }

  // At a live level within the limit.
  lemma WalkLevel(levels: seq<Level>, x: real, side: Side, limit: real, i: nat, filled: real, quote: real,
                  take: real, paid: real)
    requires i < |levels| && Walking(levels, x, side, limit, i, filled, quote) && IsLive(levels[i])
    requires !PricedOut(side, levels[i].price, limit) && take == Min(levels[i].amount, x - filled)
    requires Takes(paid, take, levels[i].price, 0.0)
    ensures var c := Cut(Live(levels), side, limit);
            if x - filled - take <= DUST then Finished(levels, x, side, limit, filled + take, quote + paid)
            else Walking(levels, x, side, limit, i + 1, filled + take, quote + paid)
  {
    LiveStep(levels, i);
    var l := Cut(Live(levels[i..]), side, limit);
    var t := Cut(Live(levels[i + 1..]), side, limit);
    assert Live(levels[i..])[1..] == Live(levels[i + 1..]);
    assert l == [levels[i]] + t && l[1..] == t;
    PaidStep(l, x - filled, take, paid);
    assert x - (filled + take) == x - filled - take;
  }

  lemma PaidStep(l: seq<Level>, x: real, take: real, paid: real)
    requires l != [] && take == Min(l[0].amount, x) && Takes(paid, take, l[0].price, 0.0)
    ensures Taken(l, x) == if x - take <= DUST then take else take + Taken(l[1..], x - take)
    ensures Paid(l, x) == if x - take <= DUST then paid else paid + Paid(l[1..], x - take)
  {
    assert paid == Min(l[0].amount, x) * l[0].price;
  }

  lemma SkipLevel(levels: seq<Level>, x: real, side: Side, limit: real, i: nat, filled: real, quote: real)
    requires i < |levels| && Walking(levels, x, side, limit, i, filled, quote)
    ensures !IsLive(levels[i]) ==> Walking(levels, x, side, limit, i + 1, filled, quote)
    ensures IsLive(levels[i]) && PricedOut(side, levels[i].price, limit) ==>
              Finished(levels, x, side, limit, filled, quote)
  {
    LiveStep(levels, i);
  }

  lemma BestStep(levels: seq<Level>, i: nat)
    requires i < |levels|
    ensures IsLive(levels[i]) ==> Best(Live(levels[i..])) == levels[i].price
    ensures !IsLive(levels[i]) ==> Best(Live(levels[i..])) == Best(Live(levels[i + 1..]))
  {
    LiveStep(levels, i);
  }

  // The walk has ended with these totals.
  ghost predicate Finished(levels: seq<Level>, x: real, side: Side, limit: real, filled: real, quote: real) {
    Taken(Cut(Live(levels), side, limit), x) == filled && Paid(Cut(Live(levels), side, limit), x) == quote
  }

  ghost predicate BestSeen(levels: seq<Level>, i: nat, best: Option<real>)
    requires i <= |levels|
  {
    match best
    case None => Best(Live(levels[i..])) == Best(Live(levels))
    case Some(price) => price == Best(Live(levels))
  }

  lemma EndOfBook(levels: seq<Level>, x: real, side: Side, limit: real, filled: real, quote: real, best: Option<real>)
    ensures Walking(levels, x, side, limit, |levels|, filled, quote) ==> Finished(levels, x, side, limit, filled, quote)
    ensures BestSeen(levels, |levels|, best) ==> Best(Live(levels)) == if best.Some? then best.value else 0.0
  {
    assert levels[|levels|..] == [];
  }

  lemma EndOfWalk(levels: seq<Level>, amount: real, side: Side, limit: real, filled: real, quote: real)
    requires Finished(levels, Max(amount, 0.0), side, limit, filled, quote)
    ensures Walk(levels, amount, side, limit) == Walked(filled, quote, Vwap(quote, filled), Best(Live(levels)))
  {}

  lemma StartOfBook(levels: seq<Level>, x: real, side: Side, limit: real)
    ensures Walking(levels, x, side, limit, 0, 0.0, 0.0) && BestSeen(levels, 0, None)
  {
    assert levels[0..] == levels;
  }

  method WalkBook(levels: seq<Level>, amount: real, side: Side, limit: real) returns (w: Walked)
    ensures w == Walk(levels, amount, side, limit)
  {
    var x := Max(amount, 0.0);
    var remaining, filled, quote, best := x, 0.0, 0.0, None;
    StartOfBook(levels, x, side, limit);
    var i, stopped := 0, false;
    while i < |levels| && !stopped
      invariant 0 <= i <= |levels| && remaining == x - filled
      invariant !stopped ==> BestSeen(levels, i, best) && Walking(levels, x, side, limit, i, filled, quote)
      invariant stopped ==> best == Some(Best(Live(levels))) && Finished(levels, x, side, limit, filled, quote)
    {
      var price, available := levels[i].price, levels[i].amount;
      BestStep(levels, i);
      SkipLevel(levels, x, side, limit, i, filled, quote);
      if price > 0.0 && available > 0.0 {
        if best.None? {
          best := Some(price);
        }
        if PricedOut(side, price, limit) {
          stopped := true;
        } else {
          var take := Min(available, remaining);
          var paid := Times(take, price);
          WalkLevel(levels, x, side, limit, i, filled, quote, take, paid);
          filled, quote, remaining := filled + take, quote + paid, remaining - take;
          stopped := remaining <= DUST;
        }
      }
      i := i + 1;
    }
    EndOfBook(levels, x, side, limit, filled, quote, best);
    EndOfWalk(levels, amount, side, limit, filled, quote);
    w := Walked(filled, quote, Vwap(quote, filled), if best.Some? then best.value else 0.0);
  }

  // ----- the wallet -----

  function Balance(w: Wallet, asset: string): real {
    if asset in w.balances then w.balances[asset] else 0.0
  }

  ghost predicate NonNegative(w: Wallet) {
    w.initialTry >= 0.0 && forall a :: a in w.balances ==> w.balances[a] >= 0.0
  }

  function Credit(w: Wallet, asset: string, change: real): Wallet {
    w.(balances := w.balances[asset := Balance(w, asset) + change])
  }

  function Seed(w: Wallet, asset: string, amount: real): Wallet {
    if asset in w.seeded then w
    else
      var seed := if asset == TRY then w.initialTry else Max(Times(amount, w.multiplier), 0.0);
      w.(balances := w.balances[asset := Max(Balance(w, asset), seed)], seeded := w.seeded + {asset})
  }

  function SeedFor(w: Wallet, r: Request): Wallet {
    var w1 := Seed(w, TRY, Times(r.base, Max(r.limit, 1.0)));
    if r.side == Sell then Seed(w1, r.asset, r.base) else w1
  }

  function Rate(fee: Option<real>): (rate: real)
    ensures 0.0 <= rate <= 0.10
  {
    if fee.Some? && 0.0 <= fee.value <= 0.10 then fee.value else 0.0015
  }

  function LevelsFor(r: Request, m: Market): seq<Level> {
    if r.side == Buy then m.asks else m.bids
  }

  // How much the wallet can pay for, or has.
  function Affordable(w: Wallet, r: Request, average: real, rate: real): real
    requires rate >= 0.0
  {
    if r.side == Sell then Balance(w, r.asset)
    else if average > 0.0 then AffordableBuy(Balance(w, TRY), average, rate) else 0.0
  }

  function AffordableBuy(funds: real, average: real, rate: real): real
    requires average > 0.0 && rate >= 0.0
  {
    PositiveProduct(average, 1.0 + rate);
    funds / (average * (1.0 + rate))
  }

  lemma PositiveProduct(x: real, y: real)
    requires x > 0.0 && y > 0.0
    ensures x * y > 0.0
  {}

  // The walk for the request, repeated for what the wallet can carry when that is less.
  function Matched(w: Wallet, r: Request, levels: seq<Level>, limit: real, rate: real): Walked
    requires rate >= 0.0
  {
    var first := Walk(levels, r.base, r.side, limit);
    if first.filled != 0.0 && Affordable(w, r, first.average, rate) < first.filled
    then Walk(levels, Affordable(w, r, first.average, rate), r.side, limit)
    else first
  }

  function Settle(w: Wallet, r: Request, filled: real, quote: real, fee: real): Wallet {
    if filled == 0.0 then w
    else if r.side == Buy then Credit(Credit(w, TRY, -quote - fee), r.asset, filled)
    else Credit(Credit(w, r.asset, -filled), TRY, quote - fee)
  }

  function Slippage(side: Side, filled: real, average: real, best: real): real {
    if filled != 0.0 && best != 0.0 then Times(if side == Buy then average - best else best - average, filled) else 0.0
  }

  function FillOf(r: Request, m: Walked, rate: real): Fill {
    Fill(r.side, r.base, m.filled, m.average, Times(m.quote, rate), rate,
         Max(Slippage(r.side, m.filled, m.average, m.best), 0.0),
         if m.filled == r.base then Filled else if m.filled > 0.0 then Partial else NoLiquidity)
  }

  function MatchedIn(w: Wallet, r: Request, limit: real, market: Market): Walked {
    Matched(SeedFor(w, r), r, LevelsFor(r, market), limit, Rate(market.fee))
  }

  /** What one order does to the wallet, and its fill. */
  function Execute(w: Wallet, r: Request, limit: real, market: Market): (Wallet, Fill) {
    var m, rate := MatchedIn(w, r, limit, market), Rate(market.fee);
    (Settle(SeedFor(w, r), r, m.filled, m.quote, Times(m.quote, rate)), FillOf(r, m, rate))
  }

  // The new parameters, unless the multiplier or the budget cannot be read or the multiplier is out of range.
  function Configure(w: Wallet, multiplier: Option<real>, budget: Option<real>): Wallet {
    if multiplier.None? || budget.None? || !(1.0 <= multiplier.value <= 100.0) then w
    else
      var initial := Max(Times(budget.value, multiplier.value), 0.0);
      Wallet(w.balances[TRY := Max(Balance(w, TRY), initial)], w.seeded + {TRY}, initial, multiplier.value)
  }

  // ----- what a match is worth -----

  // A match taken from the front of a best-first book within the limit.
  ghost predicate Sound(m: Walked, levels: seq<Level>, r: Request, limit: real) {
    && 0.0 <= m.filled <= Max(r.base, 0.0) && m.quote >= 0.0
    && m.quote == Cost(Cut(Live(levels), r.side, limit), m.filled)
    && Takes(m.quote, m.filled, m.average, 0.0)
  }

  lemma {:induction false} CutLive(l: seq<Level>, side: Side, limit: real)
    requires AllLive(l)
    ensures AllLive(Cut(l, side, limit))
    ensures Ascending(l) ==> Ascending(Cut(l, side, limit))
  {}

  lemma WalkSound(levels: seq<Level>, amount: real, r: Request, limit: real)
    requires amount <= Max(r.base, 0.0)
    ensures Sound(Walk(levels, amount, r.side, limit), levels, r, limit)
    ensures Walk(levels, amount, r.side, limit).filled <= Max(amount, 0.0)
    ensures Walk(levels, amount, r.side, limit).filled <= Depth(Cut(Live(levels), r.side, limit))
  {
    var c, x := Cut(Live(levels), r.side, limit), Max(amount, 0.0);
    CutLive(Live(levels), r.side, limit);
    TakenIs(c, x);
    if Taken(c, x) == 0.0 {
      assert Cost(c, 0.0) == 0.0;
    }
    VwapWorth(Paid(c, x), Taken(c, x));
  }

  lemma MatchedSound(w: Wallet, r: Request, levels: seq<Level>, limit: real, rate: real)
    requires rate >= 0.0
    ensures Sound(Matched(w, r, levels, limit, rate), levels, r, limit)
  {
    WalkSound(levels, r.base, r, limit);
    var first := Walk(levels, r.base, r.side, limit);
    var a := Affordable(w, r, first.average, rate);
    if first.filled != 0.0 && a < first.filled {
      WalkSound(levels, a, r, limit);
    }
  }

  // Every level within the limit is at least as good as it.
  lemma {:induction false} WithinLimit(l: seq<Level>, side: Side, limit: real, x: real)
    requires AllLive(l) && limit > 0.0 && 0.0 <= x <= Depth(l)
    requires forall i :: 0 <= i < |l| ==> !PricedOut(side, l[i].price, limit)
    ensures side == Buy ==> AtMost(Cost(l, x), x, limit)
    ensures side == Sell ==> AtLeast(Cost(l, x), x, limit)
  {
    if l != [] {
      var take, t := Min(l[0].amount, x), l[1..];
      DepthPositive(t);
      WithinLimit(t, side, limit, x - take);
      CostStep(l, x);
      LimitStep(take, l[0].price, limit, x, Cost(t, x - take), Cost(l, x));
    } else {
      NoValue(limit);
    }
  }

  ghost predicate AtLeast(total: real, x: real, h: real) {
    total >= x * h
  }

  lemma NoValue(limit: real)
    ensures AtMost(0.0, 0.0, limit) && AtLeast(0.0, 0.0, limit)
  {}

  lemma LimitStep(take: real, price: real, limit: real, x: real, c: real, total: real)
    requires take >= 0.0 && Takes(total, take, price, c)
    ensures price <= limit && AtMost(c, x - take, limit) ==> AtMost(total, x, limit)
    ensures price >= limit && AtLeast(c, x - take, limit) ==> AtLeast(total, x, limit)
  {
    assert x * limit == take * limit + (x - take) * limit;
    if price <= limit {
      MulLe(price, limit, take);
    }
    if price >= limit {
      MulLe(limit, price, take);
    }
  }

  /** A fill never beats its limit the wrong way round, and never exceeds the request. */
  lemma FillWithinLimit(w: Wallet, r: Request, limit: real, market: Market)
    requires limit > 0.0
    ensures var m := MatchedIn(w, r, limit, market);
            && m.filled <= Max(r.base, 0.0)
            && (r.side == Buy ==> AtMost(m.quote, m.filled, limit))
            && (r.side == Sell ==> AtLeast(m.quote, m.filled, limit))
  {
    var levels, rate := LevelsFor(r, market), Rate(market.fee);
    var s, m := SeedFor(w, r), MatchedIn(w, r, limit, market);
    MatchedSound(s, r, levels, limit, rate);
    MatchedDepth(s, r, levels, limit, rate);
    CutLive(Live(levels), r.side, limit);
    WithinLimit(Cut(Live(levels), r.side, limit), r.side, limit, m.filled);
  }

  lemma MatchedDepth(w: Wallet, r: Request, levels: seq<Level>, limit: real, rate: real)
    requires rate >= 0.0
    ensures Matched(w, r, levels, limit, rate).filled <= Depth(Cut(Live(levels), r.side, limit))
  {
    WalkSound(levels, r.base, r, limit);
    var first := Walk(levels, r.base, r.side, limit);
    var a := Affordable(w, r, first.average, rate);
    if first.filled != 0.0 && a < first.filled {
      WalkSound(levels, a, r, limit);
    }
  }

  // ----- wallets never go negative -----

  lemma SeedKeeps(w: Wallet, asset: string, amount: real)
    requires NonNegative(w)
    ensures NonNegative(Seed(w, asset, amount))
  {}

  // The fee is on top of the price.
  ghost predicate CoveredBy(quote: real, rate: real, funds: real) {
    quote + Times(quote, rate) <= funds
  }

  lemma CanPay(funds: real, filled: real, quote: real, average: real, rate: real)
    requires average > 0.0 && rate >= 0.0 && AtMost(quote, filled, average)
    requires filled <= AffordableBuy(funds, average, rate)
    ensures CoveredBy(quote, rate, funds)
  {
    var unit, one := average * (1.0 + rate), 1.0 + rate;
    PositiveProduct(average, one);
    assert funds / unit * unit == funds;
    MulLe(filled, funds / unit, unit);
    MulLe(quote, filled * average, one);
    assert filled * average * one == filled * (average * one);
    assert quote * one == quote + quote * rate;
  }

  lemma AffordableNonNegative(funds: real, average: real, rate: real)
    requires funds >= 0.0 && average > 0.0 && rate >= 0.0
    ensures AffordableBuy(funds, average, rate) >= 0.0
  {
    var unit := average * (1.0 + rate);
    PositiveProduct(average, 1.0 + rate);
    assert funds / unit * unit == funds;
    Cancel(0.0, funds / unit, unit);
  }

  lemma AverageBounds(ca: real, a: real, cb: real, b: real, average: real)
    requires NoDearer(ca, a, cb, b) && b > 0.0 && Takes(cb, b, average, 0.0)
    ensures AtMost(ca, a, average)
  {
    assert a * cb == a * average * b;
    Cancel(ca, a * average, b);
  }

  lemma PositiveAverage(quote: real, filled: real, average: real)
    requires Takes(quote, filled, average, 0.0) && filled > 0.0 && quote > 0.0
    ensures average > 0.0
  {
    if average <= 0.0 {
      MulLe(average, 0.0, filled);
    }
  }

  // A matched purchase can be paid for: walking a best-first book for less is never dearer on average.
  lemma BuyIsPaid(w: Wallet, r: Request, levels: seq<Level>, limit: real, rate: real)
    requires r.side == Buy && rate >= 0.0 && Balance(w, TRY) >= 0.0 && Ascending(Live(levels))
    ensures var m := Matched(w, r, levels, limit, rate);
            m.filled != 0.0 ==> CoveredBy(m.quote, rate, Balance(w, TRY))
  {
    var first := Walk(levels, r.base, Buy, limit);
    var c := Cut(Live(levels), Buy, limit);
    CutLive(Live(levels), Buy, limit);
    WalkSound(levels, r.base, r, limit);
    if first.filled != 0.0 {
      CostPositive(c, first.filled);
      PositiveAverage(first.quote, first.filled, first.average);
      var funds := Balance(w, TRY);
      var a := Affordable(w, r, first.average, rate);
      AffordableNonNegative(funds, first.average, rate);
      if a < first.filled {
        WalkSound(levels, a, r, limit);
        var second := Walk(levels, a, Buy, limit);
        CostConvex(c, second.filled, first.filled);
        AverageBounds(second.quote, second.filled, first.quote, first.filled, first.average);
        CanPay(funds, second.filled, second.quote, first.average, rate);
      } else {
        CanPay(funds, first.filled, first.quote, first.average, rate);
      }
    }
  }

  lemma SellIsHeld(w: Wallet, r: Request, levels: seq<Level>, limit: real, rate: real)
    requires r.side == Sell && rate >= 0.0 && Balance(w, r.asset) >= 0.0
    ensures Matched(w, r, levels, limit, rate).filled <= Balance(w, r.asset)
            || Matched(w, r, levels, limit, rate).filled == 0.0
  {
    var first := Walk(levels, r.base, Sell, limit);
    WalkSound(levels, r.base, r, limit);
    var a := Balance(w, r.asset);
    if first.filled != 0.0 && a < first.filled {
      WalkSound(levels, a, r, limit);
    }
  }

  lemma FeeIsPart(quote: real, rate: real)
    requires quote >= 0.0 && 0.0 <= rate <= 0.10
    ensures quote - Times(quote, rate) >= 0.0
  {
    MulLe(rate, 1.0, quote);
  }

  // What a match needs for its wallet to stay non-negative.
  ghost predicate Carried(s: Wallet, side: Side, asset: string, filled: real, quote: real, fee: real) {
    && filled >= 0.0 && quote - fee >= 0.0
    && (filled != 0.0 && side == Buy ==> quote + fee <= Balance(s, TRY))
    && (filled != 0.0 && side == Sell ==> filled <= Balance(s, asset))
  }

  lemma MatchCarried(s: Wallet, r: Request, levels: seq<Level>, limit: real, rate: real)
    requires NonNegative(s) && 0.0 <= rate <= 0.10 && (r.side == Buy ==> Ascending(Live(levels)))
    ensures var m := Matched(s, r, levels, limit, rate);
            Carried(s, r.side, r.asset, m.filled, m.quote, Times(m.quote, rate))
  {
    var m := Matched(s, r, levels, limit, rate);
    MatchedSound(s, r, levels, limit, rate);
    FeeIsPart(m.quote, rate);
    if r.side == Buy {
      BuyIsPaid(s, r, levels, limit, rate);
    } else {
      SellIsHeld(s, r, levels, limit, rate);
    }
  }

  lemma SeededNonNegative(w: Wallet, r: Request)
    requires NonNegative(w)
    ensures NonNegative(SeedFor(w, r))
  {
    var amount := Times(r.base, Max(r.limit, 1.0));
    SeedKeeps(w, TRY, amount);
    SeedKeeps(Seed(w, TRY, amount), r.asset, r.base);
  }

  /** No order on a best-first book makes any balance negative. */
  lemma OrderKeepsNonNegative(w: Wallet, r: Request, limit: real, market: Market)
    requires NonNegative(w) && Ascending(Live(market.asks))
    ensures NonNegative(Execute(w, r, limit, market).0)
  {
    var s, rate := SeedFor(w, r), Rate(market.fee);
    SeededNonNegative(w, r);
    MatchCarried(s, r, LevelsFor(r, market), limit, rate);
    var m := MatchedIn(w, r, limit, market);
    SettleKeeps(s, r, m.filled, m.quote, Times(m.quote, rate));
  }

  lemma SettleKeeps(s: Wallet, r: Request, filled: real, quote: real, fee: real)
    requires NonNegative(s) && Carried(s, r.side, r.asset, filled, quote, fee)
    ensures NonNegative(Settle(s, r, filled, quote, fee))
  {}

  datatype Action = Configured(multiplier: Option<real>, budget: Option<real>)
                  | Submitted(request: Request, market: Market)
                  | Recovered(request: Request, market: Market)

  function Act(w: Wallet, a: Action): Wallet {
    match a
    case Configured(multiplier, budget) => Configure(w, multiplier, budget)
    case Submitted(r, market) => Execute(w, r, r.limit, market).0
    case Recovered(r, market) => Execute(w, r, 0.0, market).0
  }

  function Run(w: Wallet, actions: seq<Action>): Wallet {
    if actions == [] then w else Act(Run(w, actions[..|actions| - 1]), actions[|actions| - 1])
  }

  ghost predicate BestFirst(a: Action) {
    !a.Configured? ==> Ascending(Live(a.market.asks))
  }

  /** Whatever is configured, submitted and recovered in whatever order, no balance is ever negative. */
  lemma {:induction false} RunKeepsNonNegative(w: Wallet, actions: seq<Action>)
    requires NonNegative(w) && forall i :: 0 <= i < |actions| ==> BestFirst(actions[i])
    ensures NonNegative(Run(w, actions))
  {
    if actions != [] {
      var n := |actions| - 1;
      RunKeepsNonNegative(w, actions[..n]);
      var before, a := Run(w, actions[..n]), actions[n];
      assert BestFirst(a);
      match a {
        case Configured(_, _) =>
        case Submitted(r, market) => OrderKeepsNonNegative(before, r, r.limit, market);
        case Recovered(r, market) => OrderKeepsNonNegative(before, r, 0.0, market);
      }
    }
  }

  // ----- conservation -----

  // How much base the first order against an asset conjures up for the paper wallet.
  function Conjured(w: Wallet, r: Request): real {
    Balance(SeedFor(w, r), r.asset) - Balance(w, r.asset)
  }

  function Signed(side: Side, amount: real): real {
    if side == Buy then amount else -amount
  }

  // A fill at its average price is worth the money that moved.
  ghost predicate Worth(f: Fill, quote: real) {
    Takes(quote, f.filled, f.average, 0.0)
  }

  lemma SettleMoves(s: Wallet, r: Request, filled: real, quote: real, fee: real)
    requires r.asset != TRY && (filled == 0.0 ==> quote == 0.0 && fee == 0.0)
    ensures var after := Settle(s, r, filled, quote, fee);
            && Balance(after, TRY) == Balance(s, TRY) - Signed(r.side, quote) - fee
            && Balance(after, r.asset) == Balance(s, r.asset) + Signed(r.side, filled)
            && (forall a :: a != TRY && a != r.asset ==> Balance(after, a) == Balance(s, a))
            && after.seeded == s.seeded
  {}

  lemma SeedMoves(w: Wallet, r: Request)
    requires r.asset != TRY && TRY in w.seeded
    ensures var s := SeedFor(w, r);
            && Balance(s, TRY) == Balance(w, TRY) && Balance(s, r.asset) == Balance(w, r.asset) + Conjured(w, r)
            && (forall a :: a != r.asset ==> Balance(s, a) == Balance(w, a))
            && TRY in s.seeded && Conjured(w, r) >= 0.0 && (r.asset in w.seeded ==> Conjured(w, r) == 0.0)
  {}

  // What an order with this fill did to the wallet.
  ghost predicate Moved(w: Wallet, after: Wallet, r: Request, fill: Fill, quote: real) {
    && Balance(after, TRY) == Balance(w, TRY) - Signed(r.side, quote) - fill.fee
    && Balance(after, r.asset) == Balance(w, r.asset) + Conjured(w, r) + Signed(r.side, fill.filled)
    && (forall a :: a != TRY && a != r.asset ==> Balance(after, a) == Balance(w, a))
    && TRY in after.seeded && Conjured(w, r) >= 0.0 && (r.asset in w.seeded ==> Conjured(w, r) == 0.0)
  }

  /** The fill says exactly what the wallet gained and paid, apart from seeding. */
  lemma OrderConserves(w: Wallet, r: Request, limit: real, market: Market) returns (quote: real)
    requires r.asset != TRY && TRY in w.seeded
    ensures var (after, fill) := Execute(w, r, limit, market);
            && fill.side == r.side && 0.0 <= fill.filled <= Max(r.base, 0.0)
            && Worth(fill, quote) && Moved(w, after, r, fill, quote)
  {
    var m, rate := MatchedIn(w, r, limit, market), Rate(market.fee);
    MatchedSound(SeedFor(w, r), r, LevelsFor(r, market), limit, rate);
    quote := m.quote;
    if m.filled == 0.0 {
      NothingPaid(m.quote, m.average, rate);
    }
    SeedMoves(w, r);
    SettleMoves(SeedFor(w, r), r, m.filled, m.quote, Times(m.quote, rate));
  }

  lemma NothingPaid(quote: real, average: real, rate: real)
    requires Takes(quote, 0.0, average, 0.0)
    ensures quote == 0.0 && Times(quote, rate) == 0.0
  {}

  // ----- the adapter -----

  class HummingbotPaperAdapter {
    var balances: map<string, real>
    var seededAssets: set<string>
    var initialTry: real
    var initialBaseMultiplier: real

    ghost function State(): Wallet
      reads this
    {
      Wallet(balances, seededAssets, initialTry, initialBaseMultiplier)
    }

    constructor (initial: real, multiplier: real)
      ensures State() == Wallet(map[TRY := Max(initial, 0.0)], {TRY}, Max(initial, 0.0), Max(multiplier, 1.0))
      ensures NonNegative(State())
    {
      initialTry := Max(initial, 0.0);
      initialBaseMultiplier := Max(multiplier, 1.0);
      balances := map[TRY := Max(initial, 0.0)];
      seededAssets := {TRY};
    }

    function BalanceOf(asset: string): real
      reads this
    {
      if asset in balances then balances[asset] else 0.0
    }

    method ConfigureProfile(multiplier: Option<real>, budget: Option<real>)
      modifies this
      ensures State() == Configure(old(State()), multiplier, budget)
    {
      if multiplier.Some? && budget.Some? && 1.0 <= multiplier.value <= 100.0 {
        var held := BalanceOf(TRY);
        initialTry := Max(Times(budget.value, multiplier.value), 0.0);
        initialBaseMultiplier := multiplier.value;
        balances := balances[TRY := Max(held, initialTry)];
        seededAssets := seededAssets + {TRY};
      }
    }

    method EnsureSeed(asset: string, amount: real)
      modifies this
      ensures State() == Seed(old(State()), asset, amount)
    {
      if asset in seededAssets {
        return;
      }
      var seed := if asset == TRY then initialTry else Max(Times(amount, initialBaseMultiplier), 0.0);
      balances := balances[asset := Max(BalanceOf(asset), seed)];
      seededAssets := seededAssets + {asset};
    }

    method SeedOrder(r: Request)
      modifies this
      ensures State() == SeedFor(old(State()), r)
    {
      EnsureSeed(TRY, Times(r.base, Max(r.limit, 1.0)));
      if r.side == Sell {
        EnsureSeed(r.asset, r.base);
      }
    }

    /** The walk, repeated for what the wallet can carry. */
    method MatchOrder(r: Request, limit: real, levels: seq<Level>, rate: real)
      returns (filled: real, quote: real, average: real, best: real)
      requires rate >= 0.0
      ensures Walked(filled, quote, average, best) == Matched(State(), r, levels, limit, rate)
    {
      var w := WalkBook(levels, r.base, r.side, limit);
      filled, quote, average, best := w.filled, w.quote, w.average, w.best;
      if r.side == Buy && filled != 0.0 {
        var affordable := if average > 0.0 then AffordableBuy(BalanceOf(TRY), average, rate) else 0.0;
        if affordable < filled {
          w := WalkBook(levels, affordable, r.side, limit);
          filled, quote, average := w.filled, w.quote, w.average;
        }
      } else if r.side == Sell && filled != 0.0 {
        var availableBase := BalanceOf(r.asset);
        if availableBase < filled {
          w := WalkBook(levels, availableBase, r.side, limit);
          filled, quote, average := w.filled, w.quote, w.average;
        }
      }
    }

    method SettleOrder(r: Request, filled: real, quote: real, fee: real)
      modifies this
      ensures State() == Settle(old(State()), r, filled, quote, fee)
    {
      if filled != 0.0 {
        if r.side == Buy {
          balances := balances[TRY := BalanceOf(TRY) - quote - fee];
          balances := balances[r.asset := BalanceOf(r.asset) + filled];
        } else {
          balances := balances[r.asset := BalanceOf(r.asset) - filled];
          balances := balances[TRY := BalanceOf(TRY) + quote - fee];
        }
      }
    }

    method ExecuteOrder(r: Request, limit: real, market: Market) returns (fill: Fill)
      modifies this
      ensures (State(), fill) == Execute(old(State()), r, limit, market)
    {
      SeedOrder(r);
      var levels := if r.side == Buy then market.asks else market.bids;
      var rate := Rate(market.fee);
      var filled, quote, average, best := MatchOrder(r, limit, levels, rate);
      var fee := Times(quote, rate);
      SettleOrder(r, filled, quote, fee);
      var slippage := 0.0;
      if filled != 0.0 && best != 0.0 {
        slippage := Times(if r.side == Buy then average - best else best - average, filled);
      }
      var status := if filled == r.base then Filled else if filled > 0.0 then Partial else NoLiquidity;
      fill := Fill(r.side, r.base, filled, average, fee, rate, Max(slippage, 0.0), status);
    }

    method SubmitLimit(r: Request, market: Market) returns (fill: Fill)
      modifies this
      ensures (State(), fill) == Execute(old(State()), r, r.limit, market)
    {
      fill := ExecuteOrder(r, r.limit, market);
    }

    method RecoverMarket(r: Request, market: Market) returns (fill: Fill)
      modifies this
      ensures (State(), fill) == Execute(old(State()), r, 0.0, market)
    {
      fill := ExecuteOrder(r, 0.0, market);
    }
  }
}
