/** execution.py: how much an order fills, in terms of the book and the wallet alone. */
module PaperFills {
  import opened Options
  import opened PaperAdapter
  import opened Pricing

  // ----- a limited walk -----

  // At most the limit for a purchase, at least the limit for a sale; zero is no limit.
  ghost predicate Acceptable(side: Side, price: real, limit: real) {
    limit == 0.0 || (if side == Buy then price <= limit else price >= limit)
  }

  // All that a book offers at an acceptable price.
  ghost function Available(levels: seq<Level>, side: Side, limit: real): real {
    if levels == [] then 0.0
    else
      (if levels[0].price > 0.0 && levels[0].amount > 0.0 && Acceptable(side, levels[0].price, limit)
       then levels[0].amount else 0.0) + Available(levels[1..], side, limit)
  }

  ghost predicate BestFirst(levels: seq<Level>, side: Side) {
    if side == Buy then Ascending(Live(levels)) else Descending(Live(levels))
  }

  // All of most but at most a hundred-trillionth.
  ghost predicate NearlyAll(filled: real, most: real) {
    most - 0.00000000000001 <= filled <= most
  }

  lemma LaterLive(levels: seq<Level>, side: Side)
    requires levels != [] && BestFirst(levels, side)
    ensures BestFirst(levels[1..], side)
    ensures IsLive(levels[0]) ==> forall i :: 0 <= i < |Live(levels[1..])| ==>
              if side == Buy then Live(levels[1..])[i].price >= levels[0].price
              else Live(levels[1..])[i].price <= levels[0].price
  {
    var l, t := Live(levels), Live(levels[1..]);
    if IsLive(levels[0]) {
      assert l == [levels[0]] + t;
      assert l[0] == levels[0];
      assert forall i :: 0 <= i < |t| ==> t[i] == l[i + 1];
      forall i | 0 <= i < |t|
        ensures if side == Buy then t[i].price >= levels[0].price else t[i].price <= levels[0].price
      {
        assert t[i] == l[i + 1];
      }
    }
  }

  // No acceptable level follows one that is not.
  lemma {:induction false} NoneAvailable(levels: seq<Level>, side: Side, limit: real)
    requires forall i :: 0 <= i < |Live(levels)| ==> !Acceptable(side, Live(levels)[i].price, limit)
    ensures Available(levels, side, limit) == 0.0
  {
    if levels != [] {
      var l, t := Live(levels), Live(levels[1..]);
      if IsLive(levels[0]) {
        assert l == [levels[0]] + t;
        assert l[0] == levels[0];
      }
      forall i | 0 <= i < |t|
        ensures !Acceptable(side, t[i].price, limit)
      {
        assert t[i] == l[if IsLive(levels[0]) then i + 1 else i];
      }
      NoneAvailable(levels[1..], side, limit);
    }
  }

  lemma {:induction false} CutDepth(levels: seq<Level>, side: Side, limit: real)
    requires BestFirst(levels, side)
    ensures Depth(Cut(Live(levels), side, limit)) == Available(levels, side, limit)
  {
    if levels != [] {
      var l, t := Live(levels), Live(levels[1..]);
      LaterLive(levels, side);
      if !IsLive(levels[0]) {
        CutDepth(levels[1..], side, limit);
      } else if PricedOut(side, levels[0].price, limit) {
        NoneAvailable(levels[1..], side, limit);
      } else {
        CutDepth(levels[1..], side, limit);
        assert l[1..] == t;
        assert Cut(l, side, limit)[1..] == Cut(t, side, limit);
      }
    }
  }

  // The front of a book is worth what it is worth in the whole book.
  lemma {:induction false} CostOfFront(c: seq<Level>, l: seq<Level>, x: real)
    requires c <= l && AllLive(l) && 0.0 <= x <= Depth(c)
    ensures Cost(c, x) == Cost(l, x)
  {
    if c != [] && x > 0.0 {
      DepthPositive(c[1..]);
      CostOfFront(c[1..], l[1..], x - Min(l[0].amount, x));
    }
  }

  /** On a best-first book a limited walk takes all that is asked for or all that the book offers at acceptable prices,
      whichever is less, up to dust, and pays what that much of the front of the book costs. */
  lemma WalkTakes(levels: seq<Level>, amount: real, side: Side, limit: real)
    requires BestFirst(levels, side)
    ensures var w := Walk(levels, amount, side, limit);
            && NearlyAll(w.filled, Min(Max(amount, 0.0), Available(levels, side, limit)))
            && 0.0 <= w.filled && w.quote == Cost(Live(levels), w.filled) && Takes(w.quote, w.filled, w.average, 0.0)
  {
    var c, x := Cut(Live(levels), side, limit), Max(amount, 0.0);
    CutDepth(levels, side, limit);
    CutLive(Live(levels), side, limit);
    TakenIs(c, x);
    DepthPositive(c);
    CostOfFront(c, Live(levels), Taken(c, x));
    VwapWorth(Paid(c, x), Taken(c, x));
  }

  // ----- an order -----

  ghost function BookFor(r: Request, market: Market): seq<Level> {
    if r.side == Buy then market.asks else market.bids
  }

  ghost predicate FeeRate(fee: Option<real>, rate: real) {
    rate == if fee.Some? && 0.0 <= fee.value <= 0.1 then fee.value else 0.0015
  }

  function WithFee(quote: real, rate: real): real {
    quote + quote * rate
  }

  // The wallet after seeding holds enough for this much.
  ghost predicate Carries(s: Wallet, r: Request, x: real, quote: real, rate: real) {
    if r.side == Buy then WithFee(quote, rate) <= Balance(s, TRY) else x <= Balance(s, r.asset)
  }

  ghost predicate ProRata(a: real, price: real, x: real, funds: real) {
    a * price == x * funds
  }

  // What it carries otherwise: all the base it holds, or the share of x that its money is of the price with the fee.
  ghost predicate Carriable(s: Wallet, r: Request, x: real, quote: real, rate: real, a: real) {
    if r.side == Buy then ProRata(a, WithFee(quote, rate), x, Balance(s, TRY)) else a == Balance(s, r.asset)
  }

  // The second walk, for less than the first one took.
  lemma Rewalk(levels: seq<Level>, base: real, side: Side, limit: real, a: real)
    requires BestFirst(levels, side) && 0.0 <= a < Walk(levels, base, side, limit).filled
    ensures NearlyAll(Walk(levels, a, side, limit).filled, a)
  {
    WalkTakes(levels, base, side, limit);
    WalkTakes(levels, a, side, limit);
  }

  lemma UnitWithFee(quote: real, filled: real, average: real, rate: real)
    requires Takes(quote, filled, average, 0.0)
    ensures Takes(WithFee(quote, rate), filled, average * (1.0 + rate), 0.0)
  {
    var one := 1.0 + rate;
    assert filled * average * one == filled * (average * one);
    assert quote * one == quote + quote * rate;
  }

  // When the money falls short of the first walk, and what it buys then.
  lemma Short(funds: real, unit: real, filled: real, price: real)
    requires unit > 0.0 && Takes(price, filled, unit, 0.0)
    ensures funds / unit < filled <==> funds < price
    ensures ProRata(funds / unit, price, filled, funds)
  {
    var a := funds / unit;
    assert a * unit == funds;
    if a < filled {
      MulLt(a, filled, unit);
    } else {
      MulLe(filled, a, unit);
    }
    assert a * (filled * unit) == filled * (a * unit);
  }

  lemma BuyShort(funds: real, filled: real, quote: real, average: real, rate: real)
    requires average > 0.0 && rate >= 0.0 && Takes(quote, filled, average, 0.0)
    ensures AffordableBuy(funds, average, rate) < filled <==> funds < WithFee(quote, rate)
    ensures ProRata(AffordableBuy(funds, average, rate), WithFee(quote, rate), filled, funds)
  {
    PositiveProduct(average, 1.0 + rate);
    UnitWithFee(quote, filled, average, rate);
    Short(funds, average * (1.0 + rate), filled, WithFee(quote, rate));
  }

  // What matching fills, when the first walk takes x worth quote.
  ghost predicate CarriedOut(s: Wallet, r: Request, x: real, quote: real, rate: real, filled: real) {
    if Carries(s, r, x, quote, rate) then filled == x
    else exists a :: Carriable(s, r, x, quote, rate, a) && NearlyAll(filled, a)
  }

  lemma BuyCarried(s: Wallet, r: Request, asks: seq<Level>, limit: real, rate: real)
    requires NonNegative(s) && r.side == Buy && BestFirst(asks, Buy) && rate >= 0.0
    requires Walk(asks, r.base, Buy, limit).filled != 0.0
    ensures var first := Walk(asks, r.base, Buy, limit);
            CarriedOut(s, r, first.filled, first.quote, rate, Matched(s, r, asks, limit, rate).filled)
  {
    var first := Walk(asks, r.base, Buy, limit);
    WalkTakes(asks, r.base, Buy, limit);
    PositiveWalk(asks, first);
    var a := AffordableBuy(Balance(s, TRY), first.average, rate);
    AffordableNonNegative(Balance(s, TRY), first.average, rate);
    BuyShort(Balance(s, TRY), first.filled, first.quote, first.average, rate);
    MatchedIs(s, r, asks, limit, rate, a);
    if a < first.filled {
      Rewalk(asks, r.base, Buy, limit, a);
      assert Carriable(s, r, first.filled, first.quote, rate, a);
    }
  }

  lemma MatchedIs(s: Wallet, r: Request, levels: seq<Level>, limit: real, rate: real, a: real)
    requires rate >= 0.0 && a == Affordable(s, r, Walk(levels, r.base, r.side, limit).average, rate)
    ensures var first := Walk(levels, r.base, r.side, limit);
            Matched(s, r, levels, limit, rate) ==
            if first.filled != 0.0 && a < first.filled then Walk(levels, a, r.side, limit) else first
  {}

  lemma PositiveWalk(levels: seq<Level>, w: Walked)
    requires w.filled > 0.0 && w.quote == Cost(Live(levels), w.filled) && Takes(w.quote, w.filled, w.average, 0.0)
    requires Live(levels) != []
    ensures w.average > 0.0
  {
    CostPositive(Live(levels), w.filled);
    PositiveAverage(w.quote, w.filled, w.average);
  }

  lemma SellCarried(s: Wallet, r: Request, bids: seq<Level>, limit: real, rate: real)
    requires NonNegative(s) && r.side == Sell && BestFirst(bids, Sell) && rate >= 0.0
    requires Walk(bids, r.base, Sell, limit).filled != 0.0
    ensures var first := Walk(bids, r.base, Sell, limit);
            CarriedOut(s, r, first.filled, first.quote, rate, Matched(s, r, bids, limit, rate).filled)
  {
    var first, a := Walk(bids, r.base, Sell, limit), Balance(s, r.asset);
    MatchedIs(s, r, bids, limit, rate, a);
    if a < first.filled {
      Rewalk(bids, r.base, Sell, limit, a);
      assert Carriable(s, r, first.filled, first.quote, rate, a);
    }
  }

  /** What an order fills.  Let x be what it asks for or what the book offers at acceptable prices, whichever is less,
      up to dust.  It fills x if the wallet carries x, and else what the wallet carries, up to dust. */
  ghost predicate Fills(s: Wallet, r: Request, market: Market, limit: real, x: real, fill: Fill) {
    && NearlyAll(x, Min(Max(r.base, 0.0), Available(BookFor(r, market), r.side, limit)))
    && FeeRate(market.fee, fill.rate)
    && if x == 0.0 then fill.filled == 0.0
       else CarriedOut(s, r, x, Cost(Live(BookFor(r, market)), x), fill.rate, fill.filled)
  }

  lemma OrderFills(w: Wallet, r: Request, limit: real, market: Market) returns (x: real)
    requires NonNegative(w) && BestFirst(BookFor(r, market), r.side)
    ensures Fills(SeedFor(w, r), r, market, limit, x, Execute(w, r, limit, market).1)
  {
    var s, book, rate := SeedFor(w, r), BookFor(r, market), Rate(market.fee);
    SeededNonNegative(w, r);
    x := Walk(book, r.base, r.side, limit).filled;
    WalkTakes(book, r.base, r.side, limit);
    if x != 0.0 {
      if r.side == Buy {
        BuyCarried(s, r, book, limit, rate);
      } else {
        SellCarried(s, r, book, limit, rate);
      }
    }
  }

  // ----- what a fill states -----

  // No part of a best-first book is better than its first price.
  lemma FirstIsBest(l: seq<Level>, side: Side, x: real)
    requires AllLive(l) && l != [] && 0.0 <= x <= Depth(l)
    requires if side == Buy then Ascending(l) else Descending(l)
    ensures if side == Buy then AtLeast(Cost(l, x), x, l[0].price) else AtMost(Cost(l, x), x, l[0].price)
  {
    var p := l[0].price;
    if side == Buy {
      Marginal(l, p, 0.0, x);
      FromNothing(Cost(l, x), x, p);
    } else {
      NegatedCost(l, x);
      NegatedCost(l, 0.0);
      NegatedDepth(l);
      Marginal(Negated(l), -p, 0.0, x);
      FromNothing(-Cost(l, x), x, -p);
    }
  }

  lemma FromNothing(c: real, x: real, p: real)
    requires Rises(0.0, 0.0, c, x, p)
    ensures AtLeast(c, x, p) && AtMost(-c, x, -p)
  {
    assert x * -p == -(p * x);
  }

  // The book's best price, and the fill's distance from it.
  ghost predicate Slips(slippage: real, quote: real, filled: real, best: real, side: Side) {
    slippage >= 0.0 && slippage == if side == Buy then quote - filled * best else filled * best - quote
  }

  /** A fill states its fee on what the front of the book costs, how much worse that is than all at the best price, and
      whether it filled the request, a part of it or nothing. */
  ghost predicate States(fill: Fill, r: Request, book: seq<Level>) {
    var l, quote := Live(book), Cost(Live(book), fill.filled);
    && Takes(quote, fill.filled, fill.average, 0.0) && fill.fee == Times(quote, fill.rate)
    && (fill.filled > 0.0 ==> l != [] && Slips(fill.slippage, quote, fill.filled, l[0].price, r.side))
    && (fill.status == Filled <==> fill.filled == r.base)
    && (fill.status == NoLiquidity <==> fill.filled == 0.0 && r.base != 0.0)
  }

  lemma OrderStates(w: Wallet, r: Request, limit: real, market: Market)
    requires BestFirst(BookFor(r, market), r.side)
    ensures States(Execute(w, r, limit, market).1, r, BookFor(r, market))
  {
    var s, book, rate := SeedFor(w, r), BookFor(r, market), Rate(market.fee);
    var m := Matched(s, r, book, limit, rate);
    MatchedTakes(s, r, book, limit, rate);
    if m.filled > 0.0 {
      SlippageIs(m, book, r.side);
    }
  }

  lemma MatchedTakes(s: Wallet, r: Request, book: seq<Level>, limit: real, rate: real)
    requires BestFirst(book, r.side) && rate >= 0.0
    ensures var m := Matched(s, r, book, limit, rate);
            && 0.0 <= m.filled <= Depth(Live(book)) && m.quote == Cost(Live(book), m.filled)
            && Takes(m.quote, m.filled, m.average, 0.0) && m.best == Best(Live(book))
  {
    var a := Affordable(s, r, Walk(book, r.base, r.side, limit).average, rate);
    MatchedIs(s, r, book, limit, rate, a);
    WalkTakes(book, r.base, r.side, limit);
    WalkTakes(book, a, r.side, limit);
    WalkDepth(book, r.base, r.side, limit);
    WalkDepth(book, a, r.side, limit);
  }

  lemma WalkDepth(levels: seq<Level>, amount: real, side: Side, limit: real)
    ensures Walk(levels, amount, side, limit).filled <= Depth(Live(levels))
  {
    var c := Cut(Live(levels), side, limit);
    CutLive(Live(levels), side, limit);
    TakenIs(c, Max(amount, 0.0));
    FrontDepth(c, Live(levels));
  }

  lemma {:induction false} FrontDepth(c: seq<Level>, l: seq<Level>)
    requires c <= l && AllLive(l)
    ensures Depth(c) <= Depth(l)
  {
    DepthPositive(l);
    if c != [] {
      FrontDepth(c[1..], l[1..]);
    }
  }

  lemma SlippageIs(m: Walked, book: seq<Level>, side: Side)
    requires BestFirst(book, side) && 0.0 < m.filled <= Depth(Live(book)) && m.best == Best(Live(book))
    requires m.quote == Cost(Live(book), m.filled) && Takes(m.quote, m.filled, m.average, 0.0)
    ensures Live(book) != []
    ensures Slips(Max(Slippage(side, m.filled, m.average, m.best), 0.0), m.quote, m.filled, Live(book)[0].price, side)
  {
    FirstIsBest(Live(book), side, m.filled);
    Distance(m.quote, m.filled, m.average, m.best);
  }

  lemma Distance(quote: real, filled: real, average: real, best: real)
    requires Takes(quote, filled, average, 0.0)
    ensures Times(average - best, filled) == quote - filled * best
    ensures Times(best - average, filled) == filled * best - quote
  {}

  /** The first sale of an asset is never cut short by the wallet. */
  lemma FirstSale(w: Wallet, r: Request, limit: real, market: Market)
    requires NonNegative(w) && w.multiplier >= 1.0 && r.side == Sell && r.asset != TRY && r.asset !in w.seeded
    requires BestFirst(market.bids, Sell)
    ensures NearlyAll(Execute(w, r, limit, market).1.filled,
                      Min(Max(r.base, 0.0), Available(market.bids, Sell, limit)))
  {
    var x := OrderFills(w, r, limit, market);
    SaleSeed(w, r);
    assert BookFor(r, market) == market.bids;
  }

  lemma SaleSeed(w: Wallet, r: Request)
    requires w.multiplier >= 1.0 && r.side == Sell && r.asset != TRY && r.asset !in w.seeded
    ensures Balance(SeedFor(w, r), r.asset) >= r.base
  {
    if r.base >= 0.0 {
      Magnified(r.base, w.multiplier);
    }
  }

  lemma Magnified(base: real, multiplier: real)
    requires base >= 0.0 && multiplier >= 1.0
    ensures Times(base, multiplier) >= base
  {
    MulLe(1.0, multiplier, base);
  }
}
