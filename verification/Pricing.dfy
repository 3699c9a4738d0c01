/** domain.py and coordinator.py: walking order books, pricing a two-leg opportunity and capping it to
    budgets.  Decimal is modelled as exact reals. */
module Pricing {
  import opened Options

  datatype Level = Level(price: real, amount: real)

  function Min(x: real, y: real): real {
    if x <= y then x else y
  }

  function Max(x: real, y: real): real {
    if x >= y then x else y
  }

  // ----- walking a book -----

  predicate IsLive(level: Level) {
    level.price > 0.0 && level.amount > 0.0
  }

  ghost predicate AllLive(l: seq<Level>) {
    forall i :: 0 <= i < |l| ==> l[i].price > 0.0 && l[i].amount > 0.0
  }

  // The levels that are walked at all.
  function Live(levels: seq<Level>): (l: seq<Level>)
    ensures AllLive(l)
    ensures forall x :: x in l ==> x in levels
  {
    if levels == [] then []
    else if IsLive(levels[0]) then [levels[0]] + Live(levels[1..])
    else Live(levels[1..])
  }

  ghost predicate Positive(l: seq<Level>) {
    forall i :: 0 <= i < |l| ==> l[i].amount > 0.0
  }

  function Depth(l: seq<Level>): real {
    if l == [] then 0.0 else l[0].amount + Depth(l[1..])
  }

  // What taking x from the front of the book is worth, and how much of x there is.
  function Cost(l: seq<Level>, x: real): real {
    if l == [] || x <= 0.0 then 0.0
    else Min(l[0].amount, x) * l[0].price + Cost(l[1..], x - Min(l[0].amount, x))
  }

  function Filled(l: seq<Level>, x: real): real {
    if l == [] || x <= 0.0 then 0.0
    else Min(l[0].amount, x) + Filled(l[1..], x - Min(l[0].amount, x))
  }

  // The most that q buys.
  function Bought(l: seq<Level>, q: real): real
    requires AllLive(l)
  {
    if l == [] || q <= 0.0 then 0.0
    else Min(l[0].amount, q / l[0].price) + Bought(l[1..], q - Min(l[0].amount, q / l[0].price) * l[0].price)
  }

  ghost predicate Ascending(l: seq<Level>) {
    forall i, j :: 0 <= i < j < |l| ==> l[i].price <= l[j].price
  }

  ghost predicate Descending(l: seq<Level>) {
    forall i, j :: 0 <= i < j < |l| ==> l[i].price >= l[j].price
  }

  lemma {:induction false} DepthPositive(l: seq<Level>)
    requires Positive(l)
    ensures Depth(l) >= 0.0
  {
    if l != [] {
      DepthPositive(l[1..]);
    }
  }

  lemma {:induction false} FilledIs(l: seq<Level>, x: real)
    requires Positive(l)
    ensures Filled(l, x) == Max(0.0, Min(x, Depth(l)))
  {
    DepthPositive(l);
    if l != [] && x > 0.0 {
      DepthPositive(l[1..]);
      FilledIs(l[1..], x - Min(l[0].amount, x));
    }
  }

  // ----- cost is convex -----

  ghost predicate AtMost(total: real, x: real, h: real) {
    total <= x * h
  }

  // ca / a <= cb / b, without the divisions.
  ghost predicate NoDearer(ca: real, a: real, cb: real, b: real) {
    ca * b <= a * cb
  }

  // From a to b the value rises at a rate of at least p.
  ghost predicate Rises(ca: real, a: real, cb: real, b: real, p: real) {
    cb - ca >= p * (b - a)
  }

  // Where every price is at least p, so is every marginal price.
  lemma {:induction false} Marginal(l: seq<Level>, p: real, a: real, b: real)
    requires Positive(l) && forall i :: 0 <= i < |l| ==> l[i].price >= p
    requires 0.0 <= a <= b <= Depth(l)
    ensures Rises(Cost(l, a), a, Cost(l, b), b, p)
  {
    if l == [] {
      Flat(a, b, p);
    } else {
      var m, h, t := l[0].amount, l[0].price, l[1..];
      var x, y := Min(m, a), Min(m, b);
      DepthPositive(t);
      Marginal(t, p, a - x, b - y);
      var ca, cb := Cost(t, a - x), Cost(t, b - y);
      CostStep(l, a);
      CostStep(l, b);
      MarginalStep(p, h, a, b, x, y, ca, cb, Cost(l, a), Cost(l, b));
    }
  }

  lemma Flat(a: real, b: real, p: real)
    requires a == b
    ensures Rises(0.0, a, 0.0, b, p)
  {}

  lemma MarginalStep(p: real, h: real, a: real, b: real, x: real, y: real, ca: real, cb: real, la: real, lb: real)
    requires p <= h && x <= y && Rises(ca, a - x, cb, b - y, p)
    requires Takes(la, x, h, ca) && Takes(lb, y, h, cb)
    ensures Rises(la, a, lb, b, p)
  {
    MulLe(p, h, y - x);
    assert h * (y - x) == y * h - x * h;
    assert p * (b - a) == p * ((b - y) - (a - x)) + p * (y - x);
  }

  // Taking x at price h leaves c for the rest.
  ghost predicate Takes(total: real, x: real, h: real, c: real) {
    total == x * h + c
  }

  lemma CostStep(l: seq<Level>, x: real)
    requires l != [] && Positive(l) && x >= 0.0
    ensures Takes(Cost(l, x), Min(l[0].amount, x), l[0].price, Cost(l[1..], x - Min(l[0].amount, x)))
  {}

  lemma MulLe(p: real, h: real, d: real)
    requires p <= h && d >= 0.0
    ensures p * d <= h * d
  {
    assert (h - p) * d >= 0.0;
  }

  /** Buying less never has the higher average price: for a <= b, Cost(a) / a <= Cost(b) / b. */
  lemma {:induction false} CostConvex(l: seq<Level>, a: real, b: real)
    requires Positive(l) && Ascending(l) && 0.0 <= a <= b <= Depth(l)
    ensures NoDearer(Cost(l, a), a, Cost(l, b), b)
  {
    if l == [] || a == 0.0 {
      Zero(a, b, Cost(l, a), Cost(l, b));
    } else {
      var m, h := l[0].amount, l[0].price;
      var t := l[1..];
      CostStep(l, a);
      CostStep(l, b);
      DepthPositive(t);
      if b <= m {
        Linear(a, b, h, Cost(l, a), Cost(l, b));
      } else if a <= m {
        Marginal(t, h, 0.0, b - m);
        Across(a, b, m, h, Cost(t, b - m), Cost(l, a), Cost(l, b));
      } else {
        var a', b' := a - m, b - m;
        CostConvex(t, a', b');
        Marginal(t, h, a', b');
        Chord(a, b, m, h, a', b', Cost(t, a'), Cost(t, b'), Cost(l, a), Cost(l, b));
      }
    }
  }

  lemma Zero(a: real, b: real, ca: real, cb: real)
    requires a == 0.0 && ca == 0.0
    ensures NoDearer(ca, a, cb, b)
  {}

  lemma Linear(a: real, b: real, h: real, ca: real, cb: real)
    requires Takes(ca, a, h, 0.0) && Takes(cb, b, h, 0.0)
    ensures NoDearer(ca, a, cb, b)
  {
    assert a * h * b == a * (b * h);
  }

  lemma Across(a: real, b: real, m: real, h: real, c: real, ca: real, cb: real)
    requires a >= 0.0 && Takes(ca, a, h, 0.0) && Takes(cb, m, h, c) && Rises(0.0, 0.0, c, b - m, h)
    ensures NoDearer(ca, a, cb, b)
  {
    assert m * h + h * (b - m) == h * b;
    MulLe(h * b, cb, a);
    assert a * h * b == h * b * a;
  }

  lemma Chord(a: real, b: real, m: real, h: real, a': real, b': real, ca: real, cb: real, la: real, lb: real)
    requires Takes(la, m, h, ca) && Takes(lb, m, h, cb)
    requires m >= 0.0 && a == m + a' && b == m + b'
    requires NoDearer(ca, a', cb, b') && Rises(ca, a', cb, b', h)
    ensures NoDearer(la, a, lb, b)
  {
    MulLe(h * (b' - a'), cb - ca, m);
    Expand(m, h, a', b', ca, cb);
  }

  lemma Expand(m: real, h: real, a: real, b: real, ca: real, cb: real)
    ensures (m + a) * (m * h + cb) - (m * h + ca) * (m + b) == (cb - ca) * m - h * (b - a) * m + (a * cb - ca * b)
  {
    assert (m + a) * (m * h + cb) == m * (m * h) + m * cb + a * (m * h) + a * cb;
    assert (m * h + ca) * (m + b) == m * (m * h) + (m * h) * b + ca * m + ca * b;
    assert m * (cb - ca - h * (b - a)) == m * cb - m * ca - m * (h * b) + m * (h * a);
    assert (m * h) * b == m * (h * b) && a * (m * h) == m * (h * a);
  }

  // ----- revenue is concave -----

  function Negated(l: seq<Level>): (n: seq<Level>)
    ensures |n| == |l| && forall i :: 0 <= i < |l| ==> n[i] == Level(-l[i].price, l[i].amount)
  {
    seq(|l|, i requires 0 <= i < |l| => Level(-l[i].price, l[i].amount))
  }

  lemma {:induction false} NegatedCost(l: seq<Level>, x: real)
    ensures Cost(Negated(l), x) == -Cost(l, x)
  {
    if l != [] && x > 0.0 {
      assert Negated(l)[1..] == Negated(l[1..]);
      NegatedCost(l[1..], x - Min(l[0].amount, x));
    }
  }

  lemma {:induction false} NegatedDepth(l: seq<Level>)
    ensures Depth(Negated(l)) == Depth(l)
  {
    if l != [] {
      assert Negated(l)[1..] == Negated(l[1..]);
      NegatedDepth(l[1..]);
    }
  }

  lemma {:induction false} CostNonNegative(l: seq<Level>, x: real)
    requires AllLive(l)
    ensures Cost(l, x) >= 0.0
  {
    if l != [] && x > 0.0 {
      CostNonNegative(l[1..], x - Min(l[0].amount, x));
      CostStep(l, x);
      Product(Min(l[0].amount, x), l[0].price, Cost(l[1..], x - Min(l[0].amount, x)), Cost(l, x));
    }
  }

  lemma Product(x: real, h: real, c: real, total: real)
    requires x >= 0.0 && h >= 0.0 && c >= 0.0 && Takes(total, x, h, c)
    ensures total >= 0.0
  {}

  lemma CostPositive(l: seq<Level>, x: real)
    requires AllLive(l) && l != [] && x > 0.0
    ensures Cost(l, x) > 0.0
  {
    var take := Min(l[0].amount, x);
    CostStep(l, x);
    CostNonNegative(l[1..], x - take);
    PositiveTake(take, l[0].price, Cost(l[1..], x - take), Cost(l, x));
  }

  lemma PositiveTake(take: real, price: real, c: real, total: real)
    requires Takes(total, take, price, c) && take > 0.0 && price > 0.0 && c >= 0.0
    ensures total > 0.0
  {}

  lemma {:induction false} CostCapped(l: seq<Level>, x: real)
    requires Positive(l) && x >= Depth(l)
    ensures Cost(l, x) == Cost(l, Depth(l))
  {
    if l != [] {
      DepthPositive(l[1..]);
      CostCapped(l[1..], x - l[0].amount);
    }
  }

  /** Selling less never has the lower average price, however thin the book: Cost(a) / a >= Cost(b) / b. */
  lemma RevenueConcave(l: seq<Level>, a: real, b: real)
    requires AllLive(l) && Descending(l) && 0.0 <= a <= b
    ensures NoDearer(-Cost(l, a), a, -Cost(l, b), b)
  {
    var d := Depth(l);
    DepthPositive(l);
    var a', b' := Min(a, d), Min(b, d);
    if a > d {
      CostCapped(l, a);
    }
    if b > d {
      CostCapped(l, b);
    }
    NegatedCost(l, a');
    NegatedCost(l, b');
    NegatedDepth(l);
    CostConvex(Negated(l), a', b');
    CostNonNegative(l, a');
    Thin(Cost(l, a), a, a', Cost(l, b), b, b');
  }

  lemma Thin(ca: real, a: real, a': real, cb: real, b: real, b': real)
    requires NoDearer(-ca, a', -cb, b') && ca >= 0.0 && a' <= a <= b && b' <= b
    requires (a == a' && (b == b' || b' >= a')) || (a' == b' && ca == cb)
    ensures NoDearer(-ca, a, -cb, b)
  {
    if a == a' {
      MulLe(b', b, ca);
    } else {
      MulLe(a, b, ca);
    }
  }

  // ----- estimates -----

  datatype FillEstimate = FillEstimate(base: real, quote: real, vwap: real, complete: bool)

  const TOLERANCE := 0.00000001

  function Vwap(quote: real, base: real): real {
    if base != 0.0 then quote / base else 0.0
  }

  // The money that Bought spends.
  function Spent(l: seq<Level>, q: real): real
    requires AllLive(l)
  {
    if l == [] || q <= 0.0 then 0.0
    else
      var paid := Min(l[0].amount, q / l[0].price) * l[0].price;
      paid + Spent(l[1..], q - paid)
  }

  function BuyEstimate(asks: seq<Level>, budget: real): FillEstimate {
    var l := Live(asks);
    FillEstimate(Bought(l, budget), Spent(l, budget), Vwap(Spent(l, budget), Bought(l, budget)),
                 budget - Spent(l, budget) <= TOLERANCE)
  }

  function SellEstimate(bids: seq<Level>, amount: real): FillEstimate {
    var l := Live(bids);
    FillEstimate(Filled(l, amount), Cost(l, amount), Vwap(Cost(l, amount), Filled(l, amount)),
                 amount - Filled(l, amount) <= TOLERANCE)
  }

  lemma LiveStep(levels: seq<Level>, i: nat)
    requires i < |levels|
    ensures Live(levels[i..])
            == if IsLive(levels[i]) then [levels[i]] + Live(levels[i + 1..]) else Live(levels[i + 1..])
  {
    assert levels[i..][1..] == levels[i + 1..];
  }

  // What is taken so far and what the rest of the book will give.
  ghost predicate Buying(asks: seq<Level>, budget: real, i: nat, base: real, quote: real)
    requires i <= |asks|
  {
    && Bought(Live(asks), budget) == base + Bought(Live(asks[i..]), budget - quote)
    && Spent(Live(asks), budget) == quote + Spent(Live(asks[i..]), budget - quote)
  }

  ghost predicate Selling(bids: seq<Level>, amount: real, i: nat, sold: real, quote: real)
    requires i <= |bids|
  {
    && Filled(Live(bids), amount) == sold + Filled(Live(bids[i..]), amount - sold)
    && Cost(Live(bids), amount) == quote + Cost(Live(bids[i..]), amount - sold)
  }

  lemma SkipBuying(asks: seq<Level>, budget: real, i: nat, base: real, quote: real)
    requires i < |asks| && Buying(asks, budget, i, base, quote)
    requires !IsLive(asks[i]) || budget - quote <= 0.0
    ensures Buying(asks, budget, i + 1, base, quote)
  {
    LiveStep(asks, i);
  }

  lemma SkipSelling(bids: seq<Level>, amount: real, i: nat, sold: real, quote: real)
    requires i < |bids| && Selling(bids, amount, i, sold, quote)
    requires !IsLive(bids[i]) || amount - sold <= 0.0
    ensures Selling(bids, amount, i + 1, sold, quote)
  {
    LiveStep(bids, i);
  }

  lemma TakeBuying(asks: seq<Level>, budget: real, i: nat, base: real, quote: real, take: real, spent: real)
    requires i < |asks| && Buying(asks, budget, i, base, quote) && IsLive(asks[i]) && budget - quote > 0.0
    requires take == Min(asks[i].amount, (budget - quote) / asks[i].price) && Takes(spent, take, asks[i].price, 0.0)
    ensures Buying(asks, budget, i + 1, base + take, quote + spent)
  {
    LiveStep(asks, i);
    var l := Live(asks[i..]);
    assert l[1..] == Live(asks[i + 1..]);
    BoughtStep(l, budget - quote, take, spent);
  }

  lemma BoughtStep(l: seq<Level>, q: real, take: real, spent: real)
    requires AllLive(l) && l != [] && q > 0.0
    requires take == Min(l[0].amount, q / l[0].price) && Takes(spent, take, l[0].price, 0.0)
    ensures Bought(l, q) == take + Bought(l[1..], q - spent) && Spent(l, q) == spent + Spent(l[1..], q - spent)
  {
    assert spent == Min(l[0].amount, q / l[0].price) * l[0].price;
  }

  lemma TakeSelling(bids: seq<Level>, amount: real, i: nat, sold: real, quote: real, take: real, paid: real)
    requires i < |bids| && Selling(bids, amount, i, sold, quote) && IsLive(bids[i]) && amount - sold > 0.0
    requires take == Min(bids[i].amount, amount - sold) && Takes(paid, take, bids[i].price, 0.0)
    ensures Selling(bids, amount, i + 1, sold + take, quote + paid)
  {
    LiveStep(bids, i);
    var l := Live(bids[i..]);
    assert l[1..] == Live(bids[i + 1..]);
    CostStep(l, amount - sold);
    SamePrice(take, bids[i].price, paid, Cost(l[1..], amount - sold - take), Cost(l, amount - sold));
    assert amount - (sold + take) == amount - sold - take;
  }

  lemma SamePrice(x: real, h: real, paid: real, c: real, total: real)
    requires Takes(paid, x, h, 0.0) && Takes(total, x, h, c)
    ensures total == paid + c
  {}

  method BuyForQuote(asks: seq<Level>, budget: real) returns (fill: FillEstimate)
    ensures fill == BuyEstimate(asks, budget)
  {
    var remaining, base, quote := budget, 0.0, 0.0;
    assert asks[0..] == asks;
    for i := 0 to |asks|
      invariant remaining == budget - quote && Buying(asks, budget, i, base, quote)
    {
      var level := asks[i];
      if level.price <= 0.0 || level.amount <= 0.0 || remaining <= 0.0 {
        SkipBuying(asks, budget, i, base, quote);
        continue;
      }
      var take := Min(level.amount, remaining / level.price);
      var spent := take * level.price;
      TakeBuying(asks, budget, i, base, quote, take, spent);
      base, quote, remaining := base + take, quote + spent, remaining - spent;
    }
    assert asks[|asks|..] == [];
    fill := FillEstimate(base, quote, Vwap(quote, base), remaining <= TOLERANCE);
  }

  method SellBase(bids: seq<Level>, amount: real) returns (fill: FillEstimate)
    ensures fill == SellEstimate(bids, amount)
  {
    var remaining, sold, quote := amount, 0.0, 0.0;
    assert bids[0..] == bids;
    for i := 0 to |bids|
      invariant remaining == amount - sold && Selling(bids, amount, i, sold, quote)
    {
      var level := bids[i];
      if level.price <= 0.0 || level.amount <= 0.0 || remaining <= 0.0 {
        SkipSelling(bids, amount, i, sold, quote);
        continue;
      }
      var take := Min(level.amount, remaining);
      var paid := take * level.price;
      TakeSelling(bids, amount, i, sold, quote, take, paid);
      sold, quote, remaining := sold + take, quote + paid, remaining - take;
    }
    assert bids[|bids|..] == [];
    fill := FillEstimate(sold, quote, Vwap(quote, sold), remaining <= TOLERANCE);
  }

  /** A budget buys as much as it can: within it, and all of it is spent unless the book runs out. */
  lemma {:induction false} BoughtIsMost(l: seq<Level>, q: real)
    requires AllLive(l) && q >= 0.0
    ensures 0.0 <= Bought(l, q) <= Depth(l) && Spent(l, q) == Cost(l, Bought(l, q)) <= q
    ensures Spent(l, q) < q ==> Bought(l, q) == Depth(l)
    ensures q > 0.0 && l != [] ==> Bought(l, q) > 0.0
  {
    DepthPositive(l);
    if l != [] && q > 0.0 {
      var m, h, t := l[0].amount, l[0].price, l[1..];
      var take := Min(m, q / h);
      var paid := take * h;
      Quotient(q, h, m, paid);
      BoughtStep(l, q, take, paid);
      BoughtIsMost(t, q - paid);
      DepthStep(l, take, Bought(t, q - paid));
      CostStep(l, Bought(l, q));
      SamePrice(take, h, paid, Cost(t, Bought(t, q - paid)), Cost(l, Bought(l, q)));
    }
  }

  // What is taken of the first level is what a walk for the whole takes of it.
  lemma DepthStep(l: seq<Level>, take: real, more: real)
    requires l != [] && 0.0 <= take <= l[0].amount && 0.0 <= more <= Depth(l[1..])
    ensures take + more <= Depth(l) && (take == l[0].amount || more == 0.0 ==> Min(l[0].amount, take + more) == take)
  {}

  lemma Quotient(q: real, h: real, m: real, paid: real)
    requires q > 0.0 && h > 0.0 && m > 0.0 && Takes(paid, Min(m, q / h), h, 0.0)
    ensures q / h > 0.0 && 0.0 < paid <= q && (q / h <= m ==> paid == q)
  {
    assert q / h * h == q;
    MulLe(Min(m, q / h), q / h, h);
  }

  // ----- opportunities -----

  datatype Terms = Terms(budget: real, step: real, buyFee: real, sellFee: real, bufferRate: real, minProfit: real)

  datatype Opportunity = Opportunity(base: real, buyVwap: real, sellVwap: real, gross: real, fees: real,
                                     buffer: real, net: real, pct: real, executable: bool, buyFee: real, sellFee: real)

  // Rounding toward zero.
  function Truncate(x: real): int {
    if x >= 0.0 then x.Floor else -((-x).Floor)
  }

  function Steps(k: int, step: real): real {
    k as real * step
  }

  /** The largest multiple of step that is no more than a non-negative value; no such thing for step <= 0. */
  function QuantizeDown(value: real, step: real): (r: Option<real>)
    ensures r.Some? <==> step > 0.0
    ensures r.Some? && value >= 0.0 ==> 0.0 <= r.value <= value < r.value + step
    ensures r.Some? ==> exists k :: r.value == Steps(k, step)
  {
    if step <= 0.0 then None
    else
      var k := Truncate(value / step);
      assert value >= 0.0 ==> JustBelow(Steps(k, step), step, value) by {
        if value >= 0.0 {
          QuantizeBounds(value, step, k);
        }
      }
      Some(Steps(k, step))
  }

  // No multiple of step fits between r and the value.
  ghost predicate JustBelow(r: real, step: real, value: real) {
    0.0 <= r <= value < r + step
  }

  lemma QuantizeBounds(value: real, step: real, k: int)
    requires value >= 0.0 && step > 0.0 && k == Truncate(value / step)
    ensures JustBelow(Steps(k, step), step, value)
  {
    var x := value / step;
    assert x * step == value;
    Cancel(0.0, x, step);
    Bracket(k as real, x, step, value, Steps(k, step));
  }

  lemma Bracket(y: real, x: real, step: real, value: real, r: real)
    requires Takes(value, x, step, 0.0) && step > 0.0 && 0.0 <= y <= x < y + 1.0 && Takes(r, y, step, 0.0)
    ensures JustBelow(r, step, value)
  {
    MulLe(0.0, y, step);
    MulLe(y, x, step);
    Above(y, x, step, value, r);
  }

  lemma Above(y: real, x: real, step: real, value: real, r: real)
    requires Takes(value, x, step, 0.0) && step > 0.0 && x < y + 1.0 && Takes(r, y, step, 0.0)
    ensures value < r + step
  {
    var z := y + 1.0;
    OneMore(y, step, z);
    MulLt(x, z, step);
  }

  lemma OneMore(y: real, step: real, z: real)
    requires z == y + 1.0
    ensures z * step == y * step + step
  {}

  lemma MulLt(x: real, y: real, b: real)
    requires x < y && b > 0.0
    ensures x * b < y * b
  {
    assert (y - x) * b > 0.0;
  }

  lemma Cancel(x: real, y: real, b: real)
    requires x * b <= y * b && b > 0.0
    ensures x <= y
  {
    if x > y {
      MulLt(y, x, b);
    }
  }

  // What selling for sv and buying for bc leaves after fees.
  function NetOf(bc: real, sv: real, buyFee: real, sellFee: real): real {
    sv - bc - (bc * buyFee + sv * sellFee)
  }

  function Priced(asks: seq<Level>, bids: seq<Level>, t: Terms): Option<Opportunity> {
    var buy := BuyEstimate(asks, t.budget);
    var amount := if buy.base != 0.0 then QuantizeDown(buy.base, t.step) else Some(0.0);
    if amount.None? then None else Some(OpportunityFor(amount.value, buy, SellEstimate(bids, amount.value), t))
  }

  function OpportunityFor(amount: real, buy: FillEstimate, sell: FillEstimate, t: Terms): Opportunity {
    var cost := amount * buy.vwap;
    var fees := cost * t.buyFee + sell.quote * t.sellFee;
    var buffer := cost * t.bufferRate;
    var net := sell.quote - cost - fees - buffer;
    var pct := if cost != 0.0 then net / cost else 0.0;
    Opportunity(amount, buy.vwap, sell.vwap, sell.quote - cost, fees, buffer, net, pct,
                buy.complete && sell.complete && amount > 0.0 && pct >= t.minProfit, t.buyFee, t.sellFee)
  }

  /** None is the source's ValueError for a step that is not positive. */
  method CalculateOpportunity(asks: seq<Level>, bids: seq<Level>, t: Terms) returns (result: Option<Opportunity>)
    ensures result == Priced(asks, bids, t)
  {
    var buy := BuyForQuote(asks, t.budget);
    var amount := if buy.base != 0.0 then QuantizeDown(buy.base, t.step) else Some(0.0);
    if amount.None? {
      return None;
    }
    var sell := SellBase(bids, amount.value);
    return Some(OpportunityFor(amount.value, buy, sell, t));
  }

  // The economics of an opportunity: bc is the priced cost, sv the priced proceeds.
  ghost predicate Economics(op: Opportunity, bc: real, sv: real) {
    && Takes(bc, op.base, op.buyVwap, 0.0)
    && op.net + op.buffer == NetOf(bc, sv, op.buyFee, op.sellFee)
  }

  // No more is promised for the sale than its average price gives.
  ghost predicate Promised(op: Opportunity, sv: real) {
    AtMost(sv, op.base, op.sellVwap)
  }

  // A positive order whose figures follow from its average prices.
  ghost predicate Offered(op: Opportunity, bc: real, sv: real) {
    op.base > 0.0 && op.buyVwap > 0.0 && op.sellVwap > 0.0 && Economics(op, bc, sv) && Promised(op, sv)
  }

  lemma OpportunityEconomics(amount: real, buy: FillEstimate, sell: FillEstimate, t: Terms) returns (bc: real)
    ensures Economics(OpportunityFor(amount, buy, sell, t), bc, sell.quote)
  {
    bc := amount * buy.vwap;
  }

  // Promised figures no better than the walk.
  ghost predicate Covered(op: Opportunity, walk: real) {
    op.net + op.buffer <= walk
  }

  lemma BetterNet(op: Opportunity, bc: real, sv: real, c: real, r: real)
    requires Economics(op, bc, sv) && c <= bc && sv <= r && op.buyFee >= -1.0 && (op.sellFee <= 1.0 || sv == r)
    ensures Covered(op, NetOf(c, r, op.buyFee, op.sellFee))
  {
    MulLe(c, bc, 1.0 + op.buyFee);
    if sv != r {
      MulLe(sv, r, 1.0 - op.sellFee);
    }
  }

  /** What walking both books for exactly this amount would net, fees paid. */
  function WalkNet(asks: seq<Level>, bids: seq<Level>, amount: real, buyFee: real, sellFee: real): real {
    NetOf(Cost(Live(asks), amount), Cost(Live(bids), amount), buyFee, sellFee)
  }

  // Buying less than was priced costs no more than the priced average.
  lemma CheaperThanPriced(l: seq<Level>, a: real, b: real, bc: real)
    requires AllLive(l) && Ascending(l) && 0.0 <= a <= b <= Depth(l) && b > 0.0
    requires Takes(bc, a, Cost(l, b) / b, 0.0)
    ensures Cost(l, a) <= bc
  {
    CostConvex(l, a, b);
    DivideOut(Cost(l, a), a, Cost(l, b), b, bc);
  }

  lemma DivideOut(ca: real, a: real, cb: real, b: real, bc: real)
    requires NoDearer(ca, a, cb, b) && b > 0.0 && Takes(bc, a, cb / b, 0.0)
    ensures ca <= bc
  {
    assert cb / b * b == cb;
    assert bc * b == a * (cb / b * b) by {
      assert a * (cb / b) * b == a * (cb / b * b);
    }
    Cancel(ca, bc, b);
  }

  // An opportunity priced from the two books, with cost bc.
  ghost predicate PricedFrom(op: Opportunity, asks: seq<Level>, bids: seq<Level>, t: Terms, b: real, bc: real) {
    && 0.0 <= op.base <= b <= Depth(Live(asks))
    && op.buyVwap == Vwap(Cost(Live(asks), b), b)
    && Economics(op, bc, Cost(Live(bids), op.base))
    && op.buyFee == t.buyFee && op.sellFee == t.sellFee
    && op.net == op.gross - op.fees - op.buffer
  }

  lemma PricedFacts(asks: seq<Level>, bids: seq<Level>, t: Terms) returns (b: real, bc: real)
    requires Priced(asks, bids, t).Some?
    ensures PricedFrom(Priced(asks, bids, t).value, asks, bids, t, b, bc)
  {
    var l := Live(asks);
    DepthPositive(l);
    if t.budget >= 0.0 {
      BoughtIsMost(l, t.budget);
    }
    b := Bought(l, t.budget);
    var op := Priced(asks, bids, t).value;
    bc := OpportunityEconomics(op.base, BuyEstimate(asks, t.budget), SellEstimate(bids, op.base), t);
  }

  // No part of the priced amount costs more than the average price it was priced at.
  lemma PartCost(op: Opportunity, asks: seq<Level>, bids: seq<Level>, t: Terms, b: real, bc: real, a: real, ac: real)
    requires PricedFrom(op, asks, bids, t, b, bc) && Ascending(Live(asks))
    requires 0.0 <= a <= op.base && Takes(ac, a, op.buyVwap, 0.0)
    ensures Cost(Live(asks), a) <= ac
  {
    if b > 0.0 {
      CheaperThanPriced(Live(asks), a, b, ac);
    }
  }

  lemma WholeCovered(op: Opportunity, asks: seq<Level>, bids: seq<Level>, t: Terms, b: real, bc: real)
    requires PricedFrom(op, asks, bids, t, b, bc) && Ascending(Live(asks)) && t.buyFee >= -1.0
    ensures Covered(op, WalkNet(asks, bids, op.base, t.buyFee, t.sellFee))
  {
    PartCost(op, asks, bids, t, b, bc, op.base, bc);
    var r := Cost(Live(bids), op.base);
    BetterNet(op, bc, r, Cost(Live(asks), op.base), r);
  }

  /** The priced net profit, even with the safety buffer added back, is never more than what walking both
      books for the quantized amount would net. */
  lemma PricedIsLowerBound(asks: seq<Level>, bids: seq<Level>, t: Terms)
    requires Ascending(Live(asks)) && t.buyFee >= -1.0 && Priced(asks, bids, t).Some?
    ensures var op := Priced(asks, bids, t).value;
            Covered(op, WalkNet(asks, bids, op.base, t.buyFee, t.sellFee))
  {
    var b, bc := PricedFacts(asks, bids, t);
    WholeCovered(Priced(asks, bids, t).value, asks, bids, t, b, bc);
  }

  // ----- budgets -----

  // A missing or unreadable budget counts as zero, and so does a negative one.
  function QuoteBudget(value: Option<real>): real {
    if value.None? then 0.0 else Max(value.value, 0.0)
  }

  const CAP_STEP := 0.00000001

  function Scaled(op: Opportunity, amount: real): Opportunity
    requires op.base > 0.0
  {
    var scale := amount / op.base;
    var gross, fees, buffer := op.gross * scale, op.fees * scale, op.buffer * scale;
    op.(base := amount, gross := gross, fees := fees, buffer := buffer, net := gross - fees - buffer)
  }

  function ApplyQuoteBudgets(op: Opportunity, buyValue: Option<real>, sellValue: Option<real>): Option<Opportunity> {
    var buyBudget, sellBudget := QuoteBudget(buyValue), QuoteBudget(sellValue);
    if op.base <= 0.0 || op.buyVwap <= 0.0 || op.sellVwap <= 0.0 then None
    else if buyBudget <= 0.0 || sellBudget <= 0.0 then None
    else
      var most := Min(op.base, Min(buyBudget / op.buyVwap, sellBudget / op.sellVwap));
      var amount := QuantizeDown(most, CAP_STEP).value;
      if amount <= 0.0 then None
      else if amount == op.base then Some(op)
      else Some(Scaled(op, amount))
  }

  lemma CapBounds(op: Opportunity, buyValue: Option<real>, sellValue: Option<real>)
    requires ApplyQuoteBudgets(op, buyValue, sellValue).Some?
    ensures var capped := ApplyQuoteBudgets(op, buyValue, sellValue).value;
            && 0.0 < capped.base <= op.base && (capped == op || capped == Scaled(op, capped.base))
  {}

  /** A cap never raises the order, and both legs at their average prices stay within their budgets. */
  lemma CapRespected(op: Opportunity, buyValue: Option<real>, sellValue: Option<real>)
    requires ApplyQuoteBudgets(op, buyValue, sellValue).Some?
    ensures var capped := ApplyQuoteBudgets(op, buyValue, sellValue).value;
            && 0.0 < capped.base <= op.base && capped.buyVwap == op.buyVwap && capped.sellVwap == op.sellVwap
            && capped.base * op.buyVwap <= QuoteBudget(buyValue)
            && capped.base * op.sellVwap <= QuoteBudget(sellValue)
  {
    var capped := ApplyQuoteBudgets(op, buyValue, sellValue).value;
    var b, s := QuoteBudget(buyValue), QuoteBudget(sellValue);
    CapShares(op, buyValue, sellValue);
    Affords(b, op.buyVwap, capped.base);
    Affords(s, op.sellVwap, capped.base);
  }

  lemma CapShares(op: Opportunity, buyValue: Option<real>, sellValue: Option<real>)
    requires ApplyQuoteBudgets(op, buyValue, sellValue).Some?
    ensures var capped := ApplyQuoteBudgets(op, buyValue, sellValue).value;
            && op.buyVwap > 0.0 && op.sellVwap > 0.0 && 0.0 < capped.base <= op.base
            && capped.base <= QuoteBudget(buyValue) / op.buyVwap && capped.base <= QuoteBudget(sellValue) / op.sellVwap
            && capped.buyVwap == op.buyVwap && capped.sellVwap == op.sellVwap
  {}

  lemma Affords(budget: real, price: real, amount: real)
    requires price > 0.0 && amount <= budget / price
    ensures amount * price <= budget
  {
    assert budget / price * price == budget;
    MulLe(amount, budget / price, price);
  }

  // Scaling keeps the economics.
  lemma ScaledEconomics(op: Opportunity, amount: real, bc: real, sv: real) returns (ac: real, asv: real)
    requires op.base > 0.0 && Economics(op, bc, sv) && op.net == op.gross - op.fees - op.buffer
    ensures Economics(Scaled(op, amount), ac, asv) && Takes(asv, sv, amount / op.base, 0.0)
  {
    var k := amount / op.base;
    ac, asv := bc * k, sv * k;
    assert op.base * k == amount;
    ScaledCost(op.base, op.buyVwap, k, bc, amount);
    ScaledNet(bc, sv, op.buyFee, op.sellFee, k);
    var s := Scaled(op, amount);
    assert s.net + s.buffer == (op.gross - op.fees) * k;
  }

  lemma ScaledCost(base: real, price: real, k: real, bc: real, amount: real)
    requires Takes(bc, base, price, 0.0) && Takes(amount, base, k, 0.0)
    ensures Takes(bc * k, amount, price, 0.0)
  {
    assert base * price * k == base * k * price;
  }

  lemma ScaledNet(bc: real, sv: real, buyFee: real, sellFee: real, k: real)
    ensures NetOf(bc * k, sv * k, buyFee, sellFee) == NetOf(bc, sv, buyFee, sellFee) * k
  {
    assert bc * k * buyFee == bc * buyFee * k;
    assert sv * k * sellFee == sv * sellFee * k;
  }

  // Selling a part brings at least its share.
  lemma PartRevenue(l: seq<Level>, a: real, b: real, share: real)
    requires AllLive(l) && Descending(l) && 0.0 <= a <= b && b > 0.0 && Takes(share, Cost(l, b), a / b, 0.0)
    ensures share <= Cost(l, a)
  {
    RevenueConcave(l, a, b);
    Share(Cost(l, a), a, Cost(l, b), b, share);
  }

  lemma Share(ca: real, a: real, cb: real, b: real, share: real)
    requires NoDearer(-ca, a, -cb, b) && b > 0.0 && Takes(share, cb, a / b, 0.0)
    ensures share <= ca
  {
    var k := a / b;
    assert k * b == a;
    assert cb * k * b == cb * (k * b);
    assert a * cb <= ca * b;
    Cancel(cb * k, ca, b);
  }

  lemma PartCovered(op: Opportunity, asks: seq<Level>, bids: seq<Level>, t: Terms, b: real, bc: real, amount: real)
    requires PricedFrom(op, asks, bids, t, b, bc) && 0.0 < amount <= op.base
    requires Ascending(Live(asks)) && Descending(Live(bids)) && t.buyFee >= -1.0 && t.sellFee <= 1.0
    ensures Covered(Scaled(op, amount), WalkNet(asks, bids, amount, t.buyFee, t.sellFee))
  {
    var ac, sv := ScaledEconomics(op, amount, bc, Cost(Live(bids), op.base));
    PartRevenue(Live(bids), amount, op.base, sv);
    CoveredPart(op, Scaled(op, amount), asks, bids, t, b, bc, ac, sv);
  }

  lemma CoveredPart(op: Opportunity, part: Opportunity, asks: seq<Level>, bids: seq<Level>, t: Terms,
                    b: real, bc: real, ac: real, sv: real)
    requires PricedFrom(op, asks, bids, t, b, bc) && 0.0 < part.base <= op.base && part.buyVwap == op.buyVwap
    requires part.buyFee == t.buyFee && part.sellFee == t.sellFee && Economics(part, ac, sv)
    requires Ascending(Live(asks)) && t.buyFee >= -1.0 && t.sellFee <= 1.0 && sv <= Cost(Live(bids), part.base)
    ensures Covered(part, WalkNet(asks, bids, part.base, t.buyFee, t.sellFee))
  {
    PartCost(op, asks, bids, t, b, bc, part.base, ac);
    BetterNet(part, ac, sv, Cost(Live(asks), part.base), Cost(Live(bids), part.base));
  }

  /** The lower bound survives the budget cap although the cap scales every figure linearly: buying is
      convex and selling concave in the amount. */
  lemma CappedIsLowerBound(asks: seq<Level>, bids: seq<Level>, t: Terms,
                           buyValue: Option<real>, sellValue: Option<real>)
    requires Ascending(Live(asks)) && Descending(Live(bids)) && t.buyFee >= -1.0 && t.sellFee <= 1.0
    requires Priced(asks, bids, t).Some?
    requires ApplyQuoteBudgets(Priced(asks, bids, t).value, buyValue, sellValue).Some?
    ensures var capped := ApplyQuoteBudgets(Priced(asks, bids, t).value, buyValue, sellValue).value;
            Covered(capped, WalkNet(asks, bids, capped.base, t.buyFee, t.sellFee))
  {
    var op := Priced(asks, bids, t).value;
    var b, bc := PricedFacts(asks, bids, t);
    CapBounds(op, buyValue, sellValue);
    var capped := ApplyQuoteBudgets(op, buyValue, sellValue).value;
    if capped == op {
      WholeCovered(op, asks, bids, t, b, bc);
    } else {
      PartCovered(op, asks, bids, t, b, bc, capped.base);
    }
  }

  // ----- what the execution relies on -----

  lemma VwapWorth(quote: real, base: real)
    requires base != 0.0 || quote == 0.0
    ensures Takes(quote, base, Vwap(quote, base), 0.0)
  {
    if base != 0.0 {
      assert quote / base * base == quote;
    }
  }

  lemma PromisedBySale(bids: seq<Level>, amount: real)
    requires amount >= 0.0 && SellEstimate(bids, amount).vwap > 0.0
    ensures AtMost(Cost(Live(bids), amount), amount, SellEstimate(bids, amount).vwap)
  {
    var l := Live(bids);
    DepthPositive(l);
    FilledIs(l, amount);
    VwapWorth(Cost(l, amount), Filled(l, amount));
    MoreIsWorthMore(Cost(l, amount), Filled(l, amount), amount, SellEstimate(bids, amount).vwap);
  }

  lemma MoreIsWorthMore(quote: real, sold: real, amount: real, vwap: real)
    requires Takes(quote, sold, vwap, 0.0) && sold <= amount && vwap >= 0.0
    ensures AtMost(quote, amount, vwap)
  {
    MulLe(sold, amount, vwap);
  }

  /** An opportunity that is priced and then capped is offered at its average prices. */
  lemma CappedOffered(asks: seq<Level>, bids: seq<Level>, t: Terms, buyValue: Option<real>, sellValue: Option<real>)
    returns (bc: real, sv: real)
    requires Priced(asks, bids, t).Some?
    requires ApplyQuoteBudgets(Priced(asks, bids, t).value, buyValue, sellValue).Some?
    ensures Offered(ApplyQuoteBudgets(Priced(asks, bids, t).value, buyValue, sellValue).value, bc, sv)
  {
    var op := Priced(asks, bids, t).value;
    var b, c := PricedFacts(asks, bids, t);
    CapBounds(op, buyValue, sellValue);
    var capped := ApplyQuoteBudgets(op, buyValue, sellValue).value;
    bc, sv := c, Cost(Live(bids), op.base);
    PromisedBySale(bids, op.base);
    if capped != op {
      bc, sv := ScaledEconomics(op, capped.base, bc, sv);
      ScaledPromise(op, capped.base, Cost(Live(bids), op.base), sv);
    }
  }

  lemma ScaledPromise(op: Opportunity, amount: real, sv: real, asv: real)
    requires 0.0 < amount && op.base > 0.0 && Promised(op, sv) && Takes(asv, sv, amount / op.base, 0.0)
    ensures Promised(Scaled(op, amount), asv)
  {
    var k := amount / op.base;
    assert op.base * k == amount;
    Cancel(0.0, k, op.base);
    MulLe(sv, op.base * op.sellVwap, k);
    assert op.base * op.sellVwap * k == op.base * k * op.sellVwap;
  }
}
