/**
 * `order` and `submit_buy_orders`: turning the balancer's per-asset cash amounts into limit
 * buy orders on the step and tick grids, rejecting those outside the market's trading rule,
 * submitting the rest and totalling the cash spent on the orders that went through.
 *
 * The exchange is an input: `exchange(i, call)` is what the remote order call returns for
 * the i-th submitted order. Submission is modelled sequentially, in task order, which is
 * the order `asyncio.gather` reports results in.
 */
module BuyOrders {
  import opened Results
  import opened Constants
  import opened Arith
  import opened StepSize
  import opened SymbolInfo

  /** What `submit_buy_orders` reads of a balanced asset; `amountInvested` is in cents. */
  datatype Candidate = Candidate(symbol: string, amountInvested: real)

  /** The five bounds, in the order they are checked. */
  datatype Check = PriceBelowMin | PriceAboveMax | QuantityBelowMin | QuantityAboveMax | NotionalBelowMin

  /** Why an order is not submitted: the bound violated, the offending value and the bound. */
  datatype Rejection = Rejection(check: Check, value: real, bound: real)

  /** The outcome of the bound checks; `NoMinNotional` is the missing `minNotional` key,
      which is only looked up once the four price and quantity checks have passed. */
  datatype Verdict = Pass | Reject(rejection: Rejection) | NoMinNotional

  /** The exceptions that abort `submit_buy_orders` before any order is sent. `ZeroPrice`
      is the rounding of the infinite quantity a zero numpy price gives, and `ZeroStep` the
      rounding onto a zero step or tick: both are decimal remainders that cannot be taken. */
  datatype OrderError =
    | MissingSymbolInfo(symbol: string)
    | MissingPrice(symbol: string)
    | ZeroPrice(symbol: string)
    | MissingFilterKey(symbol: string, key: string)
    | ZeroStep(symbol: string, key: string)

  /** An order to place: quantity on the step grid, price on the tick grid. */
  datatype OrderRequest = OrderRequest(symbol: string, quantity: real, price: real)

  /** What happens to one asset in the submission loop. */
  datatype Fate = Skipped | Rejected(rejection: Rejection) | Accepted(request: OrderRequest)

  function Priority(c: Check): nat
  {
    match c
    case PriceBelowMin => 0
    case PriceAboveMax => 1
    case QuantityBelowMin => 2
    case QuantityAboveMax => 3
    case NotionalBelowMin => 4
  }

  /** Bound `c` is violated by an order at `price` for `quantity`. A missing minimum
      notional is violated by nothing. */
  predicate Fails(c: Check, price: real, quantity: real, pf: PriceFilter, lot: LotSize, minNotional: Option<real>)
  {
    match c
    case PriceBelowMin => price < pf.minPrice
    case PriceAboveMax => price > pf.maxPrice
    case QuantityBelowMin => quantity < lot.minQty
    case QuantityAboveMax => quantity > lot.maxQty
    case NotionalBelowMin => minNotional.Some? && price * quantity < minNotional.value
  }

  /** The value that bound `c` is compared against. */
  function Observed(c: Check, price: real, quantity: real): real
  {
    match c
    case PriceBelowMin => price
    case PriceAboveMax => price
    case QuantityBelowMin => quantity
    case QuantityAboveMax => quantity
    case NotionalBelowMin => price * quantity
  }

  /** The bound of check `c`. */
  function Bound(c: Check, pf: PriceFilter, lot: LotSize, minNotional: Option<real>): real
  {
    match c
    case PriceBelowMin => pf.minPrice
    case PriceAboveMax => pf.maxPrice
    case QuantityBelowMin => lot.minQty
    case QuantityAboveMax => lot.maxQty
    case NotionalBelowMin => if minNotional.Some? then minNotional.value else 0.0
  }

  /** The `failureReason` chain of `submit_buy_orders`. */
  function Validate(price: real, quantity: real, pf: PriceFilter, lot: LotSize, minNotional: Option<real>): (r: Verdict)
    ensures r.Reject? ==> Fails(r.rejection.check, price, quantity, pf, lot, minNotional)
    ensures r.Reject? ==> r.rejection.value == Observed(r.rejection.check, price, quantity)
    ensures r.Reject? ==> r.rejection.bound == Bound(r.rejection.check, pf, lot, minNotional)
    ensures r.Pass? ==> minNotional.Some? && price * quantity >= minNotional.value
    ensures r.NoMinNotional? ==> minNotional.None?
  {
    if price < pf.minPrice then Reject(Rejection(PriceBelowMin, price, pf.minPrice))
    else if price > pf.maxPrice then Reject(Rejection(PriceAboveMax, price, pf.maxPrice))
    else if quantity < lot.minQty then Reject(Rejection(QuantityBelowMin, quantity, lot.minQty))
    else if quantity > lot.maxQty then Reject(Rejection(QuantityAboveMax, quantity, lot.maxQty))
    else if minNotional.None? then NoMinNotional
    else if price * quantity < minNotional.value then
      Reject(Rejection(NotionalBelowMin, price * quantity, minNotional.value))
    else Pass
  }

  /** An order passes exactly when no bound is violated; a rejection names the violated
      bound of highest priority, with its value and bound; the missing minimum-notional key
      is hit exactly when the four price and quantity bounds hold. */
  lemma ValidateReportsFirstViolation(price: real, quantity: real, pf: PriceFilter, lot: LotSize, minNotional: Option<real>)
    ensures var v := Validate(price, quantity, pf, lot, minNotional);
      && (v.Pass? <==> minNotional.Some? && forall c :: !Fails(c, price, quantity, pf, lot, minNotional))
      && (v.NoMinNotional? <==> minNotional.None? && forall c :: !Fails(c, price, quantity, pf, lot, minNotional))
      && (v.Reject? ==>
           && Fails(v.rejection.check, price, quantity, pf, lot, minNotional)
           && (forall c :: Priority(c) < Priority(v.rejection.check) ==> !Fails(c, price, quantity, pf, lot, minNotional))
           && v.rejection.value == Observed(v.rejection.check, price, quantity)
           && v.rejection.bound == Bound(v.rejection.check, pf, lot, minNotional))
  {
    var v := Validate(price, quantity, pf, lot, minNotional);
    forall c | Priority(c) < (if v.Reject? then Priority(v.rejection.check) else 5)
      ensures !Fails(c, price, quantity, pf, lot, minNotional)
    {
      match c
      case PriceBelowMin =>
      case PriceAboveMax =>
      case QuantityBelowMin =>
      case QuantityAboveMax =>
      case NotionalBelowMin =>
    }
    if v.Reject? {
      assert Fails(v.rejection.check, price, quantity, pf, lot, minNotional);
    }
  }

  /** One pass of the submission loop over asset `c`, with the exchange's average prices
      and the symbol-info table. Lookups and roundings happen in the order the loop makes
      them; the first one that fails is the error. The prices are numpy floats, so dividing
      by a zero price does not raise: it yields an infinite quantity, and the error comes
      from rounding it, after the step size has been read. */
  function Assess(c: Candidate, prices: map<string, real>, info: map<string, TradingRule>): (r: Result<Fate, OrderError>)
    ensures r == Ok(Skipped) <==> c.amountInvested <= 0.0
  {
    if c.amountInvested <= 0.0 then Ok(Skipped)
    else if c.symbol !in info then Err(MissingSymbolInfo(c.symbol))
    else if c.symbol !in prices then Err(MissingPrice(c.symbol))
    else
      var rule, avg := info[c.symbol], prices[c.symbol];
      if rule.lotSize.None? then Err(MissingFilterKey(c.symbol, "stepSize"))
      else if rule.lotSize.value.stepSize == 0.0 then Err(ZeroStep(c.symbol, "stepSize"))
      else if avg == 0.0 then Err(ZeroPrice(c.symbol))
      else
        var quantity := Rounded(c.amountInvested / 100.0 / avg, rule.lotSize.value.stepSize);
        if rule.priceFilter.None? then Err(MissingFilterKey(c.symbol, "tickSize"))
        else if rule.priceFilter.value.tickSize == 0.0 then Err(ZeroStep(c.symbol, "tickSize"))
        else
          var price := Rounded(avg, rule.priceFilter.value.tickSize);
          match Validate(price, quantity, rule.priceFilter.value, rule.lotSize.value, rule.minNotional)
          case Pass => Ok(Accepted(OrderRequest(c.symbol, quantity, price)))
          case Reject(rejection) => Ok(Rejected(rejection))
          case NoMinNotional => Err(MissingFilterKey(c.symbol, "minNotional"))
  }

  /** An asset with cash to invest raises, naming itself, at the first lookup or rounding
      that fails, in the order the loop makes them: the symbol info, the average price, the
      step size, the rounding of the quantity, the tick size and the rounding of the price. */
  lemma AssessRaisesInLookupOrder(c: Candidate, prices: map<string, real>, info: map<string, TradingRule>)
    requires 0.0 < c.amountInvested
    ensures Assess(c, prices, info).Err? ==> Assess(c, prices, info).error.symbol == c.symbol
    ensures c.symbol !in info ==> Assess(c, prices, info) == Err(MissingSymbolInfo(c.symbol))
    ensures c.symbol in info && c.symbol !in prices ==> Assess(c, prices, info) == Err(MissingPrice(c.symbol))
    ensures c.symbol in info && c.symbol in prices ==>
      var rule, avg := info[c.symbol], prices[c.symbol];
      && (rule.lotSize.None? ==> Assess(c, prices, info) == Err(MissingFilterKey(c.symbol, "stepSize")))
      && (rule.lotSize.Some? && rule.lotSize.value.stepSize == 0.0 ==>
            Assess(c, prices, info) == Err(ZeroStep(c.symbol, "stepSize")))
      && (rule.lotSize.Some? && rule.lotSize.value.stepSize != 0.0 && avg == 0.0 ==>
            Assess(c, prices, info) == Err(ZeroPrice(c.symbol)))
      && (rule.lotSize.Some? && rule.lotSize.value.stepSize != 0.0 && avg != 0.0 && rule.priceFilter.None? ==>
            Assess(c, prices, info) == Err(MissingFilterKey(c.symbol, "tickSize")))
      && (rule.lotSize.Some? && rule.lotSize.value.stepSize != 0.0 && avg != 0.0 && rule.priceFilter.Some?
            && rule.priceFilter.value.tickSize == 0.0 ==>
            Assess(c, prices, info) == Err(ZeroStep(c.symbol, "tickSize")))
  {
  }

  /** An accepted asset had cash to invest, and its order is the rounded quantity at the
      rounded price, within every bound of the asset's trading rule. */
  lemma AcceptedOrderMeetsRule(c: Candidate, prices: map<string, real>, info: map<string, TradingRule>)
    ensures Assess(c, prices, info).Ok? && Assess(c, prices, info).value.Accepted? ==>
      var o := Assess(c, prices, info).value.request;
      && 0.0 < c.amountInvested && c.symbol in info && c.symbol in prices && prices[c.symbol] != 0.0
      && var rule := info[c.symbol];
      && rule.priceFilter.Some? && rule.lotSize.Some? && rule.minNotional.Some?
      && rule.priceFilter.value.tickSize != 0.0 && rule.lotSize.value.stepSize != 0.0
      && o.symbol == c.symbol
      && o.quantity == Rounded(c.amountInvested / 100.0 / prices[c.symbol], rule.lotSize.value.stepSize)
      && o.price == Rounded(prices[c.symbol], rule.priceFilter.value.tickSize)
      && rule.priceFilter.value.minPrice <= o.price <= rule.priceFilter.value.maxPrice
      && rule.lotSize.value.minQty <= o.quantity <= rule.lotSize.value.maxQty
      && rule.minNotional.value <= o.price * o.quantity
  {
    if Assess(c, prices, info).Ok? && Assess(c, prices, info).value.Accepted? {
      var rule := info[c.symbol];
      var avg := prices[c.symbol];
      var quantity := Rounded(c.amountInvested / 100.0 / avg, rule.lotSize.value.stepSize);
      var price := Rounded(avg, rule.priceFilter.value.tickSize);
      var pf, lot := rule.priceFilter.value, rule.lotSize.value;
      ValidateReportsFirstViolation(price, quantity, pf, lot, rule.minNotional);
      assert !Fails(PriceBelowMin, price, quantity, pf, lot, rule.minNotional);
      assert !Fails(PriceAboveMax, price, quantity, pf, lot, rule.minNotional);
      assert !Fails(QuantityBelowMin, price, quantity, pf, lot, rule.minNotional);
      assert !Fails(QuantityAboveMax, price, quantity, pf, lot, rule.minNotional);
      assert !Fails(NotionalBelowMin, price, quantity, pf, lot, rule.minNotional);
    }
  }

  /** Once every lookup and rounding of the pass succeeds, the asset is accepted exactly when
      its rule has a minimum notional and its rounded order violates no bound; it is then
      the rounded order. Otherwise it is rejected for the first bound its rounded order
      violates, or, with all four price and quantity bounds met, it hits the missing
      `minNotional` key. */
  lemma AssessFirstFailureWins(c: Candidate, prices: map<string, real>, info: map<string, TradingRule>)
    requires 0.0 < c.amountInvested && c.symbol in info && c.symbol in prices && prices[c.symbol] != 0.0
    requires info[c.symbol].priceFilter.Some? && info[c.symbol].priceFilter.value.tickSize != 0.0
    requires info[c.symbol].lotSize.Some? && info[c.symbol].lotSize.value.stepSize != 0.0
    ensures var rule := info[c.symbol];
      var pf, lot, mn := rule.priceFilter.value, rule.lotSize.value, rule.minNotional;
      var q := Rounded(c.amountInvested / 100.0 / prices[c.symbol], lot.stepSize);
      var p := Rounded(prices[c.symbol], pf.tickSize);
      var r := Assess(c, prices, info);
      && (r.Ok? && r.value.Accepted? <==> mn.Some? && forall k :: !Fails(k, p, q, pf, lot, mn))
      && (r.Ok? && r.value.Accepted? ==> r.value.request == OrderRequest(c.symbol, q, p))
      && (r.Ok? && r.value.Rejected? <==> exists k :: Fails(k, p, q, pf, lot, mn))
      && (r.Ok? && r.value.Rejected? ==>
           && Fails(r.value.rejection.check, p, q, pf, lot, mn)
           && (forall k :: Priority(k) < Priority(r.value.rejection.check) ==> !Fails(k, p, q, pf, lot, mn))
           && r.value.rejection.value == Observed(r.value.rejection.check, p, q)
           && r.value.rejection.bound == Bound(r.value.rejection.check, pf, lot, mn))
      && (r.Err? <==> mn.None? && forall k :: !Fails(k, p, q, pf, lot, mn))
      && (r.Err? ==> r.error == MissingFilterKey(c.symbol, "minNotional"))
  {
    var rule := info[c.symbol];
    var pf, lot, mn := rule.priceFilter.value, rule.lotSize.value, rule.minNotional;
    var q := Rounded(c.amountInvested / 100.0 / prices[c.symbol], lot.stepSize);
    var p := Rounded(prices[c.symbol], pf.tickSize);
    ValidateReportsFirstViolation(p, q, pf, lot, mn);
  }

  /** Rounding only ever truncates, so at a positive price an accepted order never costs
      more than the cash the balancer assigned to the asset. */
  lemma AcceptedOrderWithinBudget(c: Candidate, prices: map<string, real>, info: map<string, TradingRule>)
    requires c.symbol in prices && prices[c.symbol] > 0.0
    ensures Assess(c, prices, info).Ok? && Assess(c, prices, info).value.Accepted? ==>
      var o := Assess(c, prices, info).value.request;
      0.0 <= o.price && 0.0 <= o.quantity && o.price * o.quantity <= c.amountInvested / 100.0
  {
    if !(Assess(c, prices, info).Ok? && Assess(c, prices, info).value.Accepted?) {
      return;
    }
    AcceptedOrderMeetsRule(c, prices, info);
    var o := Assess(c, prices, info).value.request;
    var rule, avg := info[c.symbol], prices[c.symbol];
    var dollars := c.amountInvested / 100.0;
    var shares := dollars / avg;
    assert shares * avg == dollars;
    RoundedTruncates(shares, rule.lotSize.value.stepSize);
    RoundedTruncates(avg, rule.priceFilter.value.tickSize);
    MulMonotone(o.price, avg, o.quantity);
    MulMonotone(o.quantity, shares, avg);
    calc {
      o.price * o.quantity;
      <= avg * o.quantity;
      <= avg * shares;
      == dollars;
    }
  }

  /** The orders and rejections `submit_buy_orders` collects, in asset order. */
  datatype Plan = Plan(requests: seq<OrderRequest>, rejections: seq<(string, Rejection)>)

  function Include(p: Plan, c: Candidate, f: Fate): Plan
  {
    match f
    case Skipped => p
    case Rejected(rejection) => p.(rejections := p.rejections + [(c.symbol, rejection)])
    case Accepted(request) => p.(requests := p.requests + [request])
  }

  /** The submission loop over `assets`: the tasks and rejections it collects, or the first
      exception it raises. */
  function PlanOrders(assets: seq<Candidate>, prices: map<string, real>, info: map<string, TradingRule>): (r: Result<Plan, OrderError>)
    ensures r.Ok? ==> |r.value.requests| + |r.value.rejections| <= |assets|
  {
    if assets == [] then Ok(Plan([], []))
    else
      var p :- PlanOrders(assets[..|assets| - 1], prices, info);
      var fate :- Assess(assets[|assets| - 1], prices, info);
      Ok(Include(p, assets[|assets| - 1], fate))
  }

  /** Running two halves one after the other: the first error wins, otherwise the orders and
      rejections of the halves are concatenated. */
  function Then(first: Result<Plan, OrderError>, second: Result<Plan, OrderError>): Result<Plan, OrderError>
  {
    match first
    case Err(e) => Err(e)
    case Ok(p) =>
      match second
      case Err(e) => Err(e)
      case Ok(q) => Ok(Plan(p.requests + q.requests, p.rejections + q.rejections))
  }

  /** Assets are processed independently and in order: the loop over `a + b` is the loop
      over `a` followed by the loop over `b`. With `b` a single asset, this is also the
      statement that an asset's fate only adds to the end of what came before. */
  lemma {:induction false} PlanOrdersAppend(a: seq<Candidate>, b: seq<Candidate>, prices: map<string, real>, info: map<string, TradingRule>)
    ensures PlanOrders(a + b, prices, info) == Then(PlanOrders(a, prices, info), PlanOrders(b, prices, info))
    decreases |b|
  {
    if b == [] {
      assert a + b == a;
      match PlanOrders(a, prices, info)
      case Err(e) =>
      case Ok(p) =>
        assert p.requests + [] == p.requests && p.rejections + [] == p.rejections;
    } else {
      var b0 := b[..|b| - 1];
      var last := b[|b| - 1];
      assert (a + b)[..|a + b| - 1] == a + b0;
      assert (a + b)[|a + b| - 1] == last;
      PlanOrdersAppend(a, b0, prices, info);
      match PlanOrders(a, prices, info)
      case Err(e) =>
      case Ok(p) =>
        match PlanOrders(b0, prices, info)
        case Err(e) =>
        case Ok(q) =>
          match Assess(last, prices, info)
          case Err(e) =>
          case Ok(f) =>
            match f
            case Skipped =>
            case Rejected(rj) =>
              assert p.rejections + (q.rejections + [(last.symbol, rj)]) == (p.rejections + q.rejections) + [(last.symbol, rj)];
            case Accepted(o) =>
              assert p.requests + (q.requests + [o]) == (p.requests + q.requests) + [o];
    }
  }

  /** The loop over a single asset records exactly that asset's fate. */
  lemma PlanOrdersSingle(c: Candidate, prices: map<string, real>, info: map<string, TradingRule>)
    ensures PlanOrders([c], prices, info) ==
      match Assess(c, prices, info)
      case Err(e) => Err(e)
      case Ok(Skipped) => Ok(Plan([], []))
      case Ok(Rejected(rj)) => Ok(Plan([], [(c.symbol, rj)]))
      case Ok(Accepted(o)) => Ok(Plan([o], []))
  {
    assert [c][..0] == [];
    match Assess(c, prices, info)
    case Err(e) =>
    case Ok(f) =>
      match f
      case Skipped =>
      case Rejected(rj) =>
        assert [] + [(c.symbol, rj)] == [(c.symbol, rj)];
      case Accepted(o) =>
        assert [] + [o] == [o];
  }

  function CountInvested(assets: seq<Candidate>): nat
  {
    if assets == [] then 0
    else CountInvested(assets[..|assets| - 1]) + (if assets[|assets| - 1].amountInvested > 0.0 then 1 else 0)
  }

  /** Every asset with cash to invest yields exactly one order or one rejection; assets
      without cash yield neither. */
  lemma {:induction false} PlanOrdersAccountsForEveryInvestedAsset(assets: seq<Candidate>, prices: map<string, real>, info: map<string, TradingRule>)
    requires PlanOrders(assets, prices, info).Ok?
    ensures var p := PlanOrders(assets, prices, info).value;
      |p.requests| + |p.rejections| == CountInvested(assets)
  {
    if assets != [] {
      PlanOrdersAccountsForEveryInvestedAsset(assets[..|assets| - 1], prices, info);
    }
  }

  /** The loop fails exactly when some asset's pass raises, and it fails with the error of
      the first such asset. */
  lemma {:induction false} PlanOrdersFailsOnFirstError(assets: seq<Candidate>, prices: map<string, real>, info: map<string, TradingRule>)
    ensures PlanOrders(assets, prices, info).Err? <==> exists i :: 0 <= i < |assets| && Assess(assets[i], prices, info).Err?
    ensures PlanOrders(assets, prices, info).Err? ==>
      (exists i :: 0 <= i < |assets| && Assess(assets[i], prices, info) == Err(PlanOrders(assets, prices, info).error)
        && forall j :: 0 <= j < i ==> Assess(assets[j], prices, info).Ok?)
  {
    if assets != [] {
      var init := assets[..|assets| - 1];
      assert forall i :: 0 <= i < |init| ==> init[i] == assets[i];
      PlanOrdersFailsOnFirstError(init, prices, info);
    }
  }

  /** Every collected order comes from an accepted asset and every rejection from a rejected
      one, and every accepted asset's order is collected. */
  lemma {:induction false} PlanOrdersOrigins(assets: seq<Candidate>, prices: map<string, real>, info: map<string, TradingRule>)
    requires PlanOrders(assets, prices, info).Ok?
    ensures var p := PlanOrders(assets, prices, info).value;
      && (forall k :: 0 <= k < |p.requests| ==>
            exists i :: 0 <= i < |assets| && Assess(assets[i], prices, info) == Ok(Accepted(p.requests[k])))
      && (forall k :: 0 <= k < |p.rejections| ==>
            exists i :: 0 <= i < |assets| && assets[i].symbol == p.rejections[k].0
              && Assess(assets[i], prices, info) == Ok(Rejected(p.rejections[k].1)))
      && (forall i :: 0 <= i < |assets| && Assess(assets[i], prices, info).Ok? && Assess(assets[i], prices, info).value.Accepted? ==>
            Assess(assets[i], prices, info).value.request in p.requests)
  {
    if assets != [] {
      var n := |assets| - 1;
      var init := assets[..n];
      assert forall i :: 0 <= i < n ==> init[i] == assets[i];
      PlanOrdersOrigins(init, prices, info);
    }
  }

  /** A plan error in the first `k` assets is the error of the whole loop. */
  lemma PlanOrdersErrorIsFinal(assets: seq<Candidate>, k: nat, prices: map<string, real>, info: map<string, TradingRule>)
    requires k <= |assets| && PlanOrders(assets[..k], prices, info).Err?
    ensures PlanOrders(assets, prices, info) == PlanOrders(assets[..k], prices, info)
  {
    assert assets == assets[..k] + assets[k..];
    PlanOrdersAppend(assets[..k], assets[k..], prices, info);
  }

  const SIDE_BUY: string := "BUY"
  const ORDER_TYPE_LIMIT: string := "LIMIT"
  const TIME_IN_FORCE_GTC: string := "GTC"

  /** The two order endpoints of the exchange client. */
  datatype Endpoint = CreateTestOrder | CreateOrder

  /** The remote call `order` makes. */
  datatype OrderCall = OrderCall(endpoint: Endpoint, marketSymbol: string, quantity: real, price: real,
                                 side: string, orderType: string, timeInForce: string)

  /** What the remote call does: return a response, or raise an exception. */
  datatype RemoteOutcome = Returned(response: string) | Raised(exceptionType: string, message: string)

  datatype Status = Success(response: string) | Failure(exceptionType: string, message: string)

  /** The record `order` returns. */
  datatype OrderResult = OrderResult(symbol: string, quantity: real, price: real, notional: real, status: Status)

  /** The call `order` makes: a good-till-cancelled limit buy on the asset's dollar market,
      through the test endpoint unless testing is switched off. */
  function OrderCallFor(symbol: string, quantity: real, price: real, isTesting: bool): (call: OrderCall)
    ensures call.endpoint == CreateTestOrder <==> isTesting
    ensures call.marketSymbol == symbol + USD_SYMBOL && call.quantity == quantity && call.price == price
    ensures call.side == SIDE_BUY && call.orderType == ORDER_TYPE_LIMIT && call.timeInForce == TIME_IN_FORCE_GTC
  {
    var endpoint := if isTesting then CreateTestOrder else CreateOrder;
    OrderCall(endpoint, symbol + USD_SYMBOL, quantity, price, SIDE_BUY, ORDER_TYPE_LIMIT, TIME_IN_FORCE_GTC)
  }

  /** `order`, given what its remote call did: always a result record, never an exception. */
  function Order(symbol: string, quantity: real, price: real, outcome: RemoteOutcome): (r: OrderResult)
    ensures r.symbol == symbol && r.quantity == quantity && r.price == price
    ensures r.notional == price * quantity
    ensures r.status.Success? <==> outcome.Returned?
    ensures outcome.Returned? ==> r.status.response == outcome.response
    ensures outcome.Raised? ==> r.status.exceptionType == outcome.exceptionType && r.status.message == outcome.message
  {
    var notional := price * quantity;
    match outcome
    case Returned(response) => OrderResult(symbol, quantity, price, notional, Success(response))
    case Raised(exceptionType, message) => OrderResult(symbol, quantity, price, notional, Failure(exceptionType, message))
  }

  /** The calls of a batch of tasks, in task order. */
  function Calls(requests: seq<OrderRequest>, isTesting: bool): (calls: seq<OrderCall>)
    ensures |calls| == |requests|
    ensures forall i :: 0 <= i < |requests| ==>
      calls[i] == OrderCallFor(requests[i].symbol, requests[i].quantity, requests[i].price, isTesting)
  {
    seq(|requests|, i requires 0 <= i < |requests| =>
      OrderCallFor(requests[i].symbol, requests[i].quantity, requests[i].price, isTesting))
  }

  /** `asyncio.gather` of the order tasks: one result per task, in task order. */
  function Gather(requests: seq<OrderRequest>, outcomes: seq<RemoteOutcome>): (results: seq<OrderResult>)
    requires |outcomes| == |requests|
    ensures |results| == |requests|
    ensures forall i :: 0 <= i < |requests| ==>
      results[i] == Order(requests[i].symbol, requests[i].quantity, requests[i].price, outcomes[i])
  {
    seq(|requests|, i requires 0 <= i < |requests| =>
      Order(requests[i].symbol, requests[i].quantity, requests[i].price, outcomes[i]))
  }

  /** The results whose remote call went through, in order. */
  function Successes(results: seq<OrderResult>): seq<OrderResult>
  {
    if results == [] then []
    else
      var last := results[|results| - 1];
      Successes(results[..|results| - 1]) + (if last.status.Success? then [last] else [])
  }

  /** The results whose remote call raised, in order. */
  function Failures(results: seq<OrderResult>): seq<OrderResult>
  {
    if results == [] then []
    else
      var last := results[|results| - 1];
      Failures(results[..|results| - 1]) + (if last.status.Failure? then [last] else [])
  }

  function TotalNotional(results: seq<OrderResult>): real
  {
    if results == [] then 0.0 else TotalNotional(results[..|results| - 1]) + results[|results| - 1].notional
  }

  /** Successes, failures and notional of a batch of one result. */
  lemma SingleResult(x: OrderResult)
    ensures Successes([x]) == (if x.status.Success? then [x] else [])
    ensures Failures([x]) == (if x.status.Failure? then [x] else [])
    ensures TotalNotional([x]) == x.notional
  {
    assert [x][..0] == [];
  }

  /** The cash spent: the notional summed over the successful results only. Each further
      result adds its notional when it succeeded and nothing when it failed. */
  function CashSpent(results: seq<OrderResult>): (r: real)
    ensures results == [] ==> r == 0.0
    ensures results != [] ==>
      r == CashSpent(results[..|results| - 1])
           + (if results[|results| - 1].status.Success? then results[|results| - 1].notional else 0.0)
  {
    if results != [] then
      var init, last := results[..|results| - 1], results[|results| - 1];
      var tail := if last.status.Success? then [last] else [];
      SingleResult(last);
      TotalNotionalAppend(Successes(init), tail);
      TotalNotional(Successes(results))
    else
      TotalNotional(Successes(results))
  }

  lemma {:induction false} TotalNotionalAppend(a: seq<OrderResult>, b: seq<OrderResult>)
    ensures TotalNotional(a + b) == TotalNotional(a) + TotalNotional(b)
    decreases |b|
  {
    if b == [] {
      assert a + b == a;
    } else {
      assert (a + b)[..|a + b| - 1] == a + b[..|b| - 1];
      TotalNotionalAppend(a, b[..|b| - 1]);
    }
  }

  /** Every result is a success or a failure: the two counts add up to the batch size. */
  lemma {:induction false} SuccessesAndFailuresPartition(results: seq<OrderResult>)
    ensures |Successes(results)| + |Failures(results)| == |results|
    ensures forall r :: r in Successes(results) ==> r in results && r.status.Success?
    ensures forall r :: r in Failures(results) ==> r in results && r.status.Failure?
  {
    if results != [] {
      SuccessesAndFailuresPartition(results[..|results| - 1]);
    }
  }

  /** Cash spent is additive over a batch split in two. */
  lemma {:induction false} CashSpentAppend(a: seq<OrderResult>, b: seq<OrderResult>)
    ensures CashSpent(a + b) == CashSpent(a) + CashSpent(b)
    decreases |b|
  {
    if b == [] {
      assert a + b == a;
    } else {
      var b0, last := b[..|b| - 1], b[|b| - 1];
      assert (a + b)[..|a + b| - 1] == a + b0;
      assert (a + b)[|a + b| - 1] == last;
      CashSpentAppend(a, b0);
    }
  }

  lemma {:induction false} SuccessesAppend(a: seq<OrderResult>, b: seq<OrderResult>)
    ensures Successes(a + b) == Successes(a) + Successes(b)
    decreases |b|
  {
    if b == [] {
      assert a + b == a;
    } else {
      assert (a + b)[..|a + b| - 1] == a + b[..|b| - 1];
      SuccessesAppend(a, b[..|b| - 1]);
    }
  }

  lemma {:induction false} FailuresAppend(a: seq<OrderResult>, b: seq<OrderResult>)
    ensures Failures(a + b) == Failures(a) + Failures(b)
    decreases |b|
  {
    if b == [] {
      assert a + b == a;
    } else {
      assert (a + b)[..|a + b| - 1] == a + b[..|b| - 1];
      FailuresAppend(a, b[..|b| - 1]);
    }
  }

  /** With non-negative notionals, the cash spent is between nothing and the notional of the
      whole batch; a batch in which every order failed spends nothing. */
  lemma {:induction false} CashSpentBounds(results: seq<OrderResult>)
    requires forall i :: 0 <= i < |results| ==> 0.0 <= results[i].notional
    ensures 0.0 <= CashSpent(results) <= TotalNotional(results)
    ensures (forall i :: 0 <= i < |results| ==> results[i].status.Failure?) ==> CashSpent(results) == 0.0
  {
    if results != [] {
      var init := results[..|results| - 1];
      assert forall i :: 0 <= i < |init| ==> init[i] == results[i];
      CashSpentBounds(init);
    }
  }

  /** What `submit_buy_orders` does and reports: the rejections it prints, the calls it makes,
      the results it prints and the cash it reports as spent. */
  datatype Report = Report(rejections: seq<(string, Rejection)>, calls: seq<OrderCall>, results: seq<OrderResult>, cashSpent: real)

  /** `submit_buy_orders` as a function of its inputs and of what the exchange does with the
      i-th submitted call. An error raised in the loop aborts before any order is sent. */
  function BuyOrders(assets: seq<Candidate>, prices: map<string, real>, info: map<string, TradingRule>,
                     isTesting: bool, exchange: (nat, OrderCall) -> RemoteOutcome): (r: Result<Report, OrderError>)
    ensures r.Ok? <==> PlanOrders(assets, prices, info).Ok?
    ensures r.Err? ==> r.error == PlanOrders(assets, prices, info).error
    ensures r.Ok? ==> |r.value.calls| == |r.value.results| == |PlanOrders(assets, prices, info).value.requests|
  {
    var p :- PlanOrders(assets, prices, info);
    var calls := Calls(p.requests, isTesting);
    var outcomes := seq(|calls|, i requires 0 <= i < |calls| => exchange(i, calls[i]));
    var results := Gather(p.requests, outcomes);
    Ok(Report(p.rejections, calls, results, CashSpent(results)))
  }

  /** A report has one call and one result per collected order, in order; every call goes to
      the endpoint the testing flag selects; a result is a success exactly when its call
      returned; and the cash spent is the notional summed over the successes. */
  lemma BuyOrdersReport(assets: seq<Candidate>, prices: map<string, real>, info: map<string, TradingRule>,
                        isTesting: bool, exchange: (nat, OrderCall) -> RemoteOutcome)
    ensures BuyOrders(assets, prices, info, isTesting, exchange).Ok? ==>
      var report, p := BuyOrders(assets, prices, info, isTesting, exchange).value, PlanOrders(assets, prices, info).value;
      && report.rejections == p.rejections
      && |report.calls| == |report.results| == |p.requests|
      && (forall i :: 0 <= i < |report.calls| ==>
            && report.calls[i].endpoint == (if isTesting then CreateTestOrder else CreateOrder)
            && report.calls[i].marketSymbol == p.requests[i].symbol + USD_SYMBOL
            && report.results[i].symbol == p.requests[i].symbol
            && report.results[i].quantity == p.requests[i].quantity
            && report.results[i].price == p.requests[i].price
            && report.results[i].notional == p.requests[i].price * p.requests[i].quantity
            && (report.results[i].status.Success? <==> exchange(i, report.calls[i]).Returned?))
      && report.cashSpent == TotalNotional(Successes(report.results))
  {
  }

  /** `submit_buy_orders`: the loop that collects order tasks and prints rejections, then the
      gathered submission and the cash-spent total. */
  method SubmitBuyOrders(assets: seq<Candidate>, prices: map<string, real>, info: map<string, TradingRule>,
                         isTesting: bool, exchange: (nat, OrderCall) -> RemoteOutcome)
    returns (r: Result<Report, OrderError>)
    ensures r == BuyOrders(assets, prices, info, isTesting, exchange)
  {
    var tasks: seq<OrderRequest> := [];
    var rejections: seq<(string, Rejection)> := [];
    var i := 0;
    while i < |assets|
      invariant 0 <= i <= |assets|
      invariant PlanOrders(assets[..i], prices, info) == Ok(Plan(tasks, rejections))
    {
      var asset := assets[i];
      ghost var prefix := assets[..i + 1];
      assert prefix[..|prefix| - 1] == assets[..i] && prefix[|prefix| - 1] == asset;
      var fate := Assess(asset, prices, info);
      if fate.Err? {
        PlanOrdersErrorIsFinal(assets, i + 1, prices, info);
        return Err(fate.error);
      }
      match fate.value {
        case Skipped =>
        case Rejected(rejection) =>
          rejections := rejections + [(asset.symbol, rejection)];
        case Accepted(request) =>
          tasks := tasks + [request];
      }
      i := i + 1;
    }
    assert assets[..i] == assets;
    var calls := Calls(tasks, isTesting);
    var outcomes := seq(|calls|, k requires 0 <= k < |calls| => exchange(k, calls[k]));
    var results := Gather(tasks, outcomes);
    var cashSpent := CashSpent(results);
    r := Ok(Report(rejections, calls, results, cashSpent));
  }

  /** A three-order batch whose second remote call fails: two successes, one failure, and
      the cash spent leaves the second order out. */
  lemma ThreeOrderBatchWithSecondFailing(a: OrderRequest, b: OrderRequest, c: OrderRequest, ra: string, rc: string, e: string, m: string)
    ensures var results := Gather([a, b, c], [Returned(ra), Raised(e, m), Returned(rc)]);
      && |Successes(results)| == 2 && |Failures(results)| == 1
      && CashSpent(results) == a.price * a.quantity + c.price * c.quantity
  {
    var results := Gather([a, b, c], [Returned(ra), Raised(e, m), Returned(rc)]);
    var oa := Order(a.symbol, a.quantity, a.price, Returned(ra));
    var ob := Order(b.symbol, b.quantity, b.price, Raised(e, m));
    var oc := Order(c.symbol, c.quantity, c.price, Returned(rc));
    assert results == [oa, ob] + [oc];
    assert [oa, ob] == [oa] + [ob];
    assert [oa][..0] == [] && [ob][..0] == [] && [oc][..0] == [];
    assert Successes([oa]) == [oa] && Successes([ob]) == [] && Successes([oc]) == [oc];
    assert Failures([oa]) == [] && Failures([ob]) == [ob] && Failures([oc]) == [];
    SuccessesAppend([oa], [ob]);
    SuccessesAppend([oa, ob], [oc]);
    FailuresAppend([oa], [ob]);
    FailuresAppend([oa, ob], [oc]);
    CashSpentAppend([oa], [ob]);
    CashSpentAppend([oa, ob], [oc]);
    assert TotalNotional([oa]) == oa.notional by { assert [oa][..0] == []; }
    assert TotalNotional([oc]) == oc.notional by { assert [oc][..0] == []; }
  }

  /** An order whose notional is 8 against a minimum notional of 10 is rejected for its
      notional and never becomes a task. */
  lemma NotionalBelowMinimumIsRejected()
    ensures Validate(2.0, 4.0, PriceFilter(0.01, 0.01, 1000.0), LotSize(0.001, 0.001, 1000.0), Some(10.0))
      == Reject(Rejection(NotionalBelowMin, 8.0, 10.0))
  {
  }
}
