/** domain.py and coordinator.py: when an opportunity counts as executable and what a budget cap leaves, in terms of
    the books, the budgets and the threshold alone. */
module PricingDecision {
  import opened Options
  import opened Pricing

  // What every level of a book together is worth.
  function Worth(levels: seq<Level>): real {
    Cost(Live(levels), Depth(Live(levels)))
  }

  function PricedCost(op: Opportunity): real {
    op.base * op.buyVwap
  }

  ghost predicate AtLeast(net: real, cost: real, rate: real) {
    net >= rate * cost
  }

  // ----- what a budget buys -----

  // A budget buys the amount that costs it, or the whole book.
  lemma BudgetSpent(l: seq<Level>, q: real)
    requires AllLive(l) && q >= 0.0
    ensures Cost(l, Bought(l, q)) == Min(q, Cost(l, Depth(l)))
  {
    BoughtIsMost(l, q);
    if Spent(l, q) == q {
      WholeIsMost(l, Bought(l, q));
    }
  }

  lemma WholeIsMost(l: seq<Level>, x: real)
    requires AllLive(l) && 0.0 <= x <= Depth(l)
    ensures Cost(l, x) <= Cost(l, Depth(l))
  {
    Marginal(l, 0.0, x, Depth(l));
    assert Rises(Cost(l, x), x, Cost(l, Depth(l)), Depth(l), 0.0);
  }

  // ----- executable -----

  lemma RateTest(net: real, cost: real, rate: real)
    requires cost > 0.0
    ensures net / cost >= rate <==> AtLeast(net, cost, rate)
  {
    assert net / cost * cost == net;
    if net / cost >= rate {
      MulLe(rate, net / cost, cost);
    }
    if AtLeast(net, cost, rate) {
      Cancel(rate, net / cost, cost);
    }
  }

  // A positive amount that was bought has a positive price.
  lemma PositivePrice(asks: seq<Level>, budget: real, amount: real)
    requires 0.0 < amount <= Bought(Live(asks), budget)
    ensures amount * BuyEstimate(asks, budget).vwap > 0.0
  {
    var l := Live(asks);
    var b := Bought(l, budget);
    BoughtIsMost(l, budget);
    CostPositive(l, b);
    Ratio(Cost(l, b), b, amount);
  }

  lemma Ratio(c: real, b: real, amount: real)
    requires c > 0.0 && b > 0.0 && amount > 0.0
    ensures amount * (c / b) > 0.0
  {
    assert c / b > 0.0;
  }

  lemma SpentEnough(asks: seq<Level>, budget: real)
    requires Bought(Live(asks), budget) > 0.0
    ensures BuyEstimate(asks, budget).complete <==> Worth(asks) >= budget - 0.00000001
  {
    BoughtIsMost(Live(asks), budget);
    BudgetSpent(Live(asks), budget);
  }

  lemma SoldEnough(bids: seq<Level>, amount: real)
    requires amount > 0.0
    ensures SellEstimate(bids, amount).complete <==> Depth(Live(bids)) >= amount - 0.00000001
  {
    DepthPositive(Live(bids));
    FilledIs(Live(bids), amount);
  }

  // All that makes an order worth placing: there is something to trade, the asks are worth the budget, the bids take
  // the amount, and what is left after fees and buffer is the demanded share of the cost.
  ghost predicate WorthPlacing(asks: seq<Level>, bids: seq<Level>, t: Terms, op: Opportunity) {
    && op.base > 0.0 && Worth(asks) >= t.budget - 0.00000001 && Depth(Live(bids)) >= op.base - 0.00000001
    && AtLeast(op.net, PricedCost(op), t.minProfit)
  }

  lemma BaseBought(asks: seq<Level>, bids: seq<Level>, t: Terms)
    requires Priced(asks, bids, t).Some? && Priced(asks, bids, t).value.base > 0.0
    ensures t.budget > 0.0 && Priced(asks, bids, t).value.base <= Bought(Live(asks), t.budget)
    ensures JustBelow(Priced(asks, bids, t).value.base, t.step, Bought(Live(asks), t.budget))
  {
    if t.budget >= 0.0 {
      BoughtIsMost(Live(asks), t.budget);
    }
  }

  /** An opportunity is executable exactly when its order is worth placing. */
  lemma ExecutableExactly(asks: seq<Level>, bids: seq<Level>, t: Terms)
    requires Priced(asks, bids, t).Some?
    ensures Priced(asks, bids, t).value.executable <==> WorthPlacing(asks, bids, t, Priced(asks, bids, t).value)
  {
    var op := Priced(asks, bids, t).value;
    var buy, sell := BuyEstimate(asks, t.budget), SellEstimate(bids, op.base);
    OpportunityIs(asks, bids, t);
    if op.base > 0.0 {
      BaseBought(asks, bids, t);
      SpentEnough(asks, t.budget);
      SoldEnough(bids, op.base);
      PositivePrice(asks, t.budget, op.base);
      TradedAt(op.base, buy, sell, t);
    }
  }

  lemma OpportunityIs(asks: seq<Level>, bids: seq<Level>, t: Terms)
    requires Priced(asks, bids, t).Some?
    ensures var op := Priced(asks, bids, t).value;
            op == OpportunityFor(op.base, BuyEstimate(asks, t.budget), SellEstimate(bids, op.base), t)
  {}

  lemma TradedAt(amount: real, buy: FillEstimate, sell: FillEstimate, t: Terms)
    requires amount > 0.0 && amount * buy.vwap > 0.0
    ensures var op := OpportunityFor(amount, buy, sell, t);
            op.executable <==> buy.complete && sell.complete && AtLeast(op.net, PricedCost(op), t.minProfit)
  {
    var op := OpportunityFor(amount, buy, sell, t);
    RateTest(op.net, PricedCost(op), t.minProfit);
  }

  /** There is no opportunity exactly when something can be bought and the step is not positive. */
  lemma PricedUnless(asks: seq<Level>, bids: seq<Level>, t: Terms)
    ensures Priced(asks, bids, t).None? <==> t.step <= 0.0 && t.budget > 0.0 && Live(asks) != []
  {
    if t.budget > 0.0 && Live(asks) != [] {
      BoughtIsMost(Live(asks), t.budget);
    }
  }

  // The amount is the largest multiple of the step in what the budget, or the whole book, buys.
  ghost predicate BestAmount(asks: seq<Level>, t: Terms, base: real, b: real) {
    && 0.0 < b <= Depth(Live(asks)) && Cost(Live(asks), b) == Min(t.budget, Worth(asks))
    && JustBelow(base, t.step, b) && exists k :: base == Steps(k, t.step)
  }

  /** What is ordered, and the buffer that is set aside. */
  lemma AmountAndBuffer(asks: seq<Level>, bids: seq<Level>, t: Terms)
    requires Priced(asks, bids, t).Some?
    ensures var op := Priced(asks, bids, t).value;
            && Takes(op.buffer, PricedCost(op), t.bufferRate, 0.0)
            && if t.budget > 0.0 && Live(asks) != [] then exists b :: BestAmount(asks, t, op.base, b)
               else op.base == 0.0
  {
    var base := Priced(asks, bids, t).value.base;
    OpportunityIs(asks, bids, t);
    BufferIs(base, BuyEstimate(asks, t.budget), SellEstimate(bids, base), t);
    if t.budget > 0.0 && Live(asks) != [] {
      BoughtIsMost(Live(asks), t.budget);
      AmountIs(asks, t);
      assert BestAmount(asks, t, base, Bought(Live(asks), t.budget));
    }
  }

  lemma BufferIs(amount: real, buy: FillEstimate, sell: FillEstimate, t: Terms)
    ensures var op := OpportunityFor(amount, buy, sell, t);
            Takes(op.buffer, PricedCost(op), t.bufferRate, 0.0)
  {}

  lemma AmountIs(asks: seq<Level>, t: Terms)
    requires t.budget > 0.0 && Live(asks) != [] && QuantizeDown(Bought(Live(asks), t.budget), t.step).Some?
    ensures BestAmount(asks, t, QuantizeDown(Bought(Live(asks), t.budget), t.step).value, Bought(Live(asks), t.budget))
  {
    BoughtIsMost(Live(asks), t.budget);
    BudgetSpent(Live(asks), t.budget);
  }

  // The books give at least this share of the cost, and the buffer on top of it.
  ghost predicate Earns(op: Opportunity, walk: real, rate: real) {
    walk >= rate * PricedCost(op) + op.buffer
  }

  /** Walking both books for the amount of an executable opportunity nets at least the demanded share of its cost, and
      the buffer on top. */
  lemma ExecutableEarns(asks: seq<Level>, bids: seq<Level>, t: Terms)
    requires Ascending(Live(asks)) && t.buyFee >= -1.0 && Priced(asks, bids, t).Some?
    requires Priced(asks, bids, t).value.executable
    ensures var op := Priced(asks, bids, t).value;
            Earns(op, WalkNet(asks, bids, op.base, t.buyFee, t.sellFee), t.minProfit)
  {
    ExecutableExactly(asks, bids, t);
    PricedIsLowerBound(asks, bids, t);
  }

  // ----- caps -----

  // The order and both budgets allow this amount.
  ghost predicate Fits(op: Opportunity, buyBudget: real, sellBudget: real, amount: real) {
    amount <= op.base && amount * op.buyVwap <= buyBudget && amount * op.sellVwap <= sellBudget
  }

  lemma Within(amount: real, price: real, budget: real)
    requires price > 0.0
    ensures amount * price <= budget <==> amount <= budget / price
  {
    assert budget / price * price == budget;
    if amount <= budget / price {
      MulLe(amount, budget / price, price);
    } else {
      MulLt(budget / price, amount, price);
    }
  }

  lemma FitsMost(op: Opportunity, b: real, s: real, amount: real)
    requires op.buyVwap > 0.0 && op.sellVwap > 0.0
    ensures Fits(op, b, s, amount) <==> amount <= Min(op.base, Min(b / op.buyVwap, s / op.sellVwap))
  {
    Within(amount, op.buyVwap, b);
    Within(amount, op.sellVwap, s);
  }

  lemma StepsGrow(j: int, k: int, step: real)
    requires step > 0.0
    ensures if j < k then Steps(j, step) + step <= Steps(k, step) else Steps(k, step) <= Steps(j, step)
  {
    if j < k {
      NextMultiple(j as real, step, Steps(j, step), (j + 1) as real, Steps(j + 1, step));
      MultiplesGrow((j + 1) as real, k as real, step, Steps(j + 1, step), Steps(k, step));
    } else {
      MultiplesGrow(k as real, j as real, step, Steps(k, step), Steps(j, step));
    }
  }

  lemma NextMultiple(x: real, step: real, xs: real, y: real, ys: real)
    requires y == x + 1.0 && Takes(xs, x, step, 0.0) && Takes(ys, y, step, 0.0)
    ensures ys == xs + step
  {
    OneMore(x, step, y);
  }

  lemma MultiplesGrow(x: real, y: real, step: real, xs: real, ys: real)
    requires step > 0.0 && x <= y && Takes(xs, x, step, 0.0) && Takes(ys, y, step, 0.0)
    ensures xs <= ys
  {
    MulLe(x, y, step);
  }

  lemma LargestSteps(value: real, step: real, k: int)
    requires step > 0.0 && value >= 0.0
    ensures Steps(k, step) <= QuantizeDown(value, step).value <==> Steps(k, step) <= value
  {
    var j :| QuantizeDown(value, step).value == Steps(j, step);
    StepsGrow(j, k, step);
    StepsGrow(k, j, step);
  }

  lemma DividedNonNegative(b: real, price: real)
    requires b >= 0.0 && price > 0.0
    ensures b / price >= 0.0
  {}

  /** A capped order is the largest number of hundred-millionths that the order and both budgets allow.  There is none
      exactly when a figure or a budget is not positive or not even one hundred-millionth is allowed. */
  lemma CapIsMost(op: Opportunity, buyValue: Option<real>, sellValue: Option<real>, k: nat)
    ensures var capped := ApplyQuoteBudgets(op, buyValue, sellValue);
            var b, s := QuoteBudget(buyValue), QuoteBudget(sellValue);
            && (capped.Some? <==> op.base > 0.0 && op.buyVwap > 0.0 && op.sellVwap > 0.0 && b > 0.0 && s > 0.0
                                  && Fits(op, b, s, 0.00000001))
            && (capped.Some? && Fits(op, b, s, Steps(k, 0.00000001)) ==> Steps(k, 0.00000001) <= capped.value.base)
  {
    var b, s := QuoteBudget(buyValue), QuoteBudget(sellValue);
    if op.base > 0.0 && op.buyVwap > 0.0 && op.sellVwap > 0.0 && b > 0.0 && s > 0.0 {
      var most := Min(op.base, Min(b / op.buyVwap, s / op.sellVwap));
      DividedNonNegative(b, op.buyVwap);
      DividedNonNegative(s, op.sellVwap);
      FitsMost(op, b, s, Steps(1, 0.00000001));
      LargestSteps(most, CAP_STEP, 1);
      FitsMost(op, b, s, Steps(k, 0.00000001));
      LargestSteps(most, CAP_STEP, k);
      AmountStep(most);
    }
  }

  // An amount of whole steps that is not zero is at least one step.
  lemma AmountStep(most: real)
    requires most >= 0.0
    ensures QuantizeDown(most, CAP_STEP).value > 0.0 <==> Steps(1, CAP_STEP) <= QuantizeDown(most, CAP_STEP).value
  {
    var j :| QuantizeDown(most, CAP_STEP).value == Steps(j, CAP_STEP);
    StepsGrow(0, j, CAP_STEP);
    StepsGrow(j, 1, CAP_STEP);
  }

  // The same figure for each unit of the order.
  ghost predicate Proportional(x: real, amount: real, y: real, base: real) {
    x * base == y * amount
  }

  /** A cap keeps every figure in proportion to the order. */
  lemma CapProportional(op: Opportunity, buyValue: Option<real>, sellValue: Option<real>)
    requires ApplyQuoteBudgets(op, buyValue, sellValue).Some?
    ensures var capped := ApplyQuoteBudgets(op, buyValue, sellValue).value;
            && Proportional(capped.gross, capped.base, op.gross, op.base)
            && Proportional(capped.fees, capped.base, op.fees, op.base)
            && Proportional(capped.buffer, capped.base, op.buffer, op.base)
  {
    CapBounds(op, buyValue, sellValue);
    var capped := ApplyQuoteBudgets(op, buyValue, sellValue).value;
    if capped != op {
      ScaledShares(op, capped.base);
    }
  }

  lemma ScaledShares(op: Opportunity, amount: real)
    requires op.base > 0.0
    ensures var part := Scaled(op, amount);
            && Proportional(part.gross, amount, op.gross, op.base) && Proportional(part.fees, amount, op.fees, op.base)
            && Proportional(part.buffer, amount, op.buffer, op.base)
  {
    ShareOf(op.gross, amount, op.base);
    ShareOf(op.fees, amount, op.base);
    ShareOf(op.buffer, amount, op.base);
  }

  lemma ShareOf(y: real, amount: real, base: real)
    requires base > 0.0
    ensures Proportional(y * (amount / base), amount, y, base)
  {
    var k := amount / base;
    assert k * base == amount;
    assert y * k * base == y * (k * base);
  }

  // ----- a capped order still earns its share -----

  lemma ScaledAtLeast(op: Opportunity, amount: real, rate: real)
    requires op.base > 0.0 && amount > 0.0 && op.net == op.gross - op.fees - op.buffer
    requires AtLeast(op.net, PricedCost(op), rate)
    ensures AtLeast(Scaled(op, amount).net, PricedCost(Scaled(op, amount)), rate)
  {
    var k := amount / op.base;
    assert k * op.base == amount;
    Cancel(0.0, k, op.base);
    ScaledFigures(op, amount, k);
    MulLe(rate * PricedCost(op), op.net, k);
    assert rate * PricedCost(op) * k == rate * (PricedCost(op) * k);
  }

  lemma ScaledFigures(op: Opportunity, amount: real, k: real)
    requires op.base > 0.0 && k == amount / op.base && k * op.base == amount
    requires op.net == op.gross - op.fees - op.buffer
    ensures Scaled(op, amount).net == op.net * k && PricedCost(Scaled(op, amount)) == PricedCost(op) * k
  {
    assert (op.gross - op.fees - op.buffer) * k == op.gross * k - op.fees * k - op.buffer * k;
    assert op.base * op.buyVwap * k == k * op.base * op.buyVwap;
  }

  lemma CappedAtLeast(asks: seq<Level>, bids: seq<Level>, t: Terms, buyValue: Option<real>, sellValue: Option<real>)
    requires Priced(asks, bids, t).Some? && Priced(asks, bids, t).value.executable
    requires ApplyQuoteBudgets(Priced(asks, bids, t).value, buyValue, sellValue).Some?
    ensures var capped := ApplyQuoteBudgets(Priced(asks, bids, t).value, buyValue, sellValue).value;
            AtLeast(capped.net, PricedCost(capped), t.minProfit)
  {
    var op := Priced(asks, bids, t).value;
    var b, bc := PricedFacts(asks, bids, t);
    ExecutableExactly(asks, bids, t);
    CapBounds(op, buyValue, sellValue);
    var capped := ApplyQuoteBudgets(op, buyValue, sellValue).value;
    if capped != op {
      ScaledAtLeast(op, capped.base, t.minProfit);
    }
  }

  /** What walking both books nets for an executable opportunity that is capped to budgets: at least the demanded share
      of its cost, and the buffer on top. */
  lemma CappedEarns(asks: seq<Level>, bids: seq<Level>, t: Terms, buyValue: Option<real>, sellValue: Option<real>)
    requires Ascending(Live(asks)) && Descending(Live(bids)) && t.buyFee >= -1.0 && t.sellFee <= 1.0
    requires Priced(asks, bids, t).Some? && Priced(asks, bids, t).value.executable
    requires ApplyQuoteBudgets(Priced(asks, bids, t).value, buyValue, sellValue).Some?
    ensures var capped := ApplyQuoteBudgets(Priced(asks, bids, t).value, buyValue, sellValue).value;
            Earns(capped, WalkNet(asks, bids, capped.base, t.buyFee, t.sellFee), t.minProfit)
  {
    CappedAtLeast(asks, bids, t, buyValue, sellValue);
    CappedIsLowerBound(asks, bids, t, buyValue, sellValue);
  }
}
