/** Order placement on the prediction-market venue (`hooks/useClobOrder.ts`):
    limit orders at the caller's price, market orders as limit orders at an
    aggressive price derived from the order book's quote, and cancellation.
    The venue's answers are oracle values. */
module ClobOrder {
  import opened Base
  import opened ClobClientGate

  datatype Side = Buy | Sell

  /** What the caller asks for; `price` is ignored for market orders. */
  datatype OrderParams = OrderParams(
    tokenId: string,
    size: real,
    price: Option<real>,
    side: Side,
    negRisk: Option<bool>,
    isMarketOrder: Option<bool>)

  /** The order handed to the venue. */
  datatype LimitOrder = LimitOrder(
    tokenID: string,
    price: real,
    size: real,
    side: Side,
    feeRateBps: int,
    expiration: int,
    taker: string)

  /** Every order is posted good-till-cancelled. */
  datatype OrderType = GoodTillCancelled

  /** One `createAndPostOrder` call. */
  datatype Posting = Posting(order: LimitOrder, negRisk: Option<bool>, orderType: OrderType)

  /** The hook's React state. */
  datatype OrderHookState = OrderHookState(isSubmitting: bool, error: Option<Failure>, orderId: Option<string>)

  /** One `submitOrder` call: what it returns or throws, the state it leaves,
      whether it asked for a quote, what it posted and whether it invalidated
      the active-orders query. */
  datatype Submission = Submission(result: Result<string>, state: OrderHookState, quoted: bool,
                                   posted: Option<Posting>, invalidated: bool)

  /** One `cancelOrder` call: what it returns or throws, the state it leaves,
      the order id it asked the venue to cancel, and whether it invalidated
      the active-orders query. */
  datatype Cancellation = Cancellation(result: Result<()>, state: OrderHookState, request: Option<string>,
                                       invalidated: bool)

  /** No counterparty restriction. */
  const ZeroAddress: string := "0x0000000000000000000000000000000000000000"

  const BuyCap: real := 0.99
  const SellFloor: real := 0.01

  /** A quote the market-order path accepts: a number strictly between 0 and 1. */
  predicate ValidQuote(quote: Probe<Numeric>)
  {
    quote.Answered? && quote.answer.Num? && 0.0 < quote.answer.number < 1.0
  }

  function Min(a: real, b: real): real { if a <= b then a else b }
  function Max(a: real, b: real): real { if a >= b then a else b }

  /** Lines 39-55: five percent through a valid quote, capped at 0.99 for a
      buy and floored at 0.01 for a sell; without a valid quote (the call threw,
      the price is NaN or outside (0, 1)) the cap or the floor itself. */
  function AggressivePrice(side: Side, quote: Probe<Numeric>): (p: real)
  {
    if !ValidQuote(quote) then (if side == Buy then BuyCap else SellFloor)
    else
      var q := quote.answer.number;
      if side == Buy then Min(BuyCap, q * 1.05) else Max(SellFloor, q * 0.95)
  }

  /** The aggressive price is always a valid price strictly between 0 and 1;
      a buy never pays more than 0.99 and a sell never asks less than 0.01;
      it is on the aggressive side of the quote (a buy at or above it, a sell
      at or below it) whenever the cap or floor allows; and without a valid
      quote it is exactly the cap or the floor. */
  lemma AggressivePriceBounds(side: Side, quote: Probe<Numeric>)
    ensures var p := AggressivePrice(side, quote);
            && 0.0 < p < 1.0
            && (side == Buy ==> p <= BuyCap)
            && (side == Sell ==> SellFloor <= p)
            && (ValidQuote(quote) && side == Buy && quote.answer.number <= BuyCap ==> quote.answer.number <= p)
            && (ValidQuote(quote) && side == Sell && SellFloor <= quote.answer.number ==> p <= quote.answer.number)
            && (!ValidQuote(quote) ==> p == if side == Buy then BuyCap else SellFloor)
  {
  }

  /** Worked values: a buy at 0.40 goes out at 0.42, a buy at 0.98 is capped at
      0.99, a sell at 0.10 goes out at 0.095, a sell at 0.005 is floored at
      0.01, and a NaN quote falls back. */
  lemma AggressivePriceExamples()
    ensures AggressivePrice(Buy, Answered(Num(0.40))) == 0.42
    ensures AggressivePrice(Buy, Answered(Num(0.98))) == 0.99
    ensures AggressivePrice(Sell, Answered(Num(0.10))) == 0.095
    ensures AggressivePrice(Sell, Answered(Num(0.005))) == 0.01
    ensures AggressivePrice(Sell, Answered(NaN)) == 0.01
    ensures AggressivePrice(Buy, Answered(Num(1.0))) == 0.99
  {
  }

  /** Whether the caller asked for a market order (`isMarketOrder` truthy). */
  predicate IsMarket(params: OrderParams)
  {
    params.isMarketOrder == Some(true)
  }

  /** The order posted for the parameters at a given price. */
  function OrderAt(params: OrderParams, price: real): (o: LimitOrder)
  {
    LimitOrder(params.tokenId, price, params.size, params.side, 0, 0, ZeroAddress)
  }

  /** The state `submitOrder` leaves when it fails after starting. */
  function Failed(e: Failure): OrderHookState
  {
    OrderHookState(false, Some(e), None)
  }

  /** `submitOrder` (lines 26-108). */
  function SubmitOrder(walletAddress: Option<string>, client: Option<ClobIdentity>, params: OrderParams,
                       quote: Probe<Numeric>, response: Probe<Option<string>>, s: OrderHookState): (r: Submission)
  {
    if !Truthy(walletAddress) then Submission(Err(Error("Wallet not connected")), s, false, None, false)
    else if client.None? then Submission(Err(Error("CLOB client not initialized")), s, false, None, false)
    else if !IsMarket(params) && params.price.None? then
      var e := Error("Price required for limit orders");
      Submission(Err(e), Failed(e), false, None, false)
    else
      var price := if IsMarket(params) then AggressivePrice(params.side, quote) else params.price.value;
      var posting := Posting(OrderAt(params, price), params.negRisk, GoodTillCancelled);
      match response
      case Threw(f) =>
        var e := AsError(f, "Failed to submit order");
        Submission(Err(e), Failed(e), IsMarket(params), Some(posting), false)
      case Answered(orderId) =>
        if Truthy(orderId) then
          Submission(Ok(orderId.value), OrderHookState(false, None, orderId), IsMarket(params), Some(posting), true)
        else
          var e := Error("Order submission failed");
          Submission(Err(e), Failed(e), IsMarket(params), Some(posting), false)
  }

  /** Lines 28-29: without a wallet or a client the call throws before it
      changes any state or calls the venue. */
  lemma SubmitNeedsWalletAndClient(walletAddress: Option<string>, client: Option<ClobIdentity>,
                                   params: OrderParams, quote: Probe<Numeric>, response: Probe<Option<string>>,
                                   s: OrderHookState)
    requires !Truthy(walletAddress) || client.None?
    ensures var r := SubmitOrder(walletAddress, client, params, quote, response, s);
            && r.result.Err? && r.state == s && !r.quoted && r.posted.None? && !r.invalidated
            && r.result.failure == Error(if !Truthy(walletAddress) then "Wallet not connected"
                                         else "CLOB client not initialized")
  {
  }

  /** Line 77: a limit order without a price fails without calling the venue,
      and the failure is recorded. */
  lemma LimitOrderNeedsPrice(walletAddress: Option<string>, client: Option<ClobIdentity>,
                             params: OrderParams, quote: Probe<Numeric>, response: Probe<Option<string>>,
                             s: OrderHookState)
    requires Truthy(walletAddress) && client.Some?
    ensures var r := SubmitOrder(walletAddress, client, params, quote, response, s);
            (!IsMarket(params) && params.price.None? <==> r.posted.None?)
            && (r.posted.None? ==>
                  r.result == Err(Error("Price required for limit orders")) && r.state == Failed(r.result.failure))
  {
  }

  /** Lines 36-70 and 78-91: the order posted carries the caller's token, size
      and side, no fee, no expiry and no counterparty restriction, good till
      cancelled with the caller's neg-risk flag; a limit order keeps the
      caller's price, a market order takes the aggressive price, and only a
      market order asks for a quote. */
  lemma PostedOrderShape(walletAddress: Option<string>, client: Option<ClobIdentity>,
                         params: OrderParams, quote: Probe<Numeric>, response: Probe<Option<string>>,
                         s: OrderHookState)
    ensures var r := SubmitOrder(walletAddress, client, params, quote, response, s);
            && (r.quoted ==> IsMarket(params))
            && (r.posted.Some? ==>
                  var o := r.posted.value.order;
                  && r.quoted == IsMarket(params)
                  && o.tokenID == params.tokenId && o.size == params.size && o.side == params.side
                  && o.feeRateBps == 0 && o.expiration == 0 && o.taker == ZeroAddress
                  && r.posted.value.negRisk == params.negRisk
                  && r.posted.value.orderType == GoodTillCancelled
                  && o.price == if IsMarket(params) then AggressivePrice(params.side, quote) else params.price.value)
  {
  }

  /** Lines 71-75, 92-98: a submission succeeds exactly when the venue answers
      with a non-empty order id; the id is then returned and remembered, the
      active orders are refreshed and no error is shown. */
  lemma SubmitSucceedsIffOrderId(walletAddress: Option<string>, client: Option<ClobIdentity>,
                                 params: OrderParams, quote: Probe<Numeric>, response: Probe<Option<string>>,
                                 s: OrderHookState)
    ensures var r := SubmitOrder(walletAddress, client, params, quote, response, s);
            && (r.result.Ok? <==> r.posted.Some? && response.Answered? && Truthy(response.answer))
            && (r.result.Ok? ==>
                  && r.result.value == response.answer.value
                  && r.state == OrderHookState(false, None, Some(r.result.value))
                  && r.invalidated)
            && (r.invalidated ==> r.result.Ok?)
  {
  }

  /** Lines 98-105: once started, every failure is recorded as the error and
      rethrown as an `Error`: an empty order id as "Order submission failed",
      a non-`Error` throw as "Failed to submit order", an `Error` as itself;
      no order id is kept and the hook is no longer submitting. */
  lemma SubmitFailureRecorded(walletAddress: Option<string>, client: Option<ClobIdentity>,
                              params: OrderParams, quote: Probe<Numeric>, response: Probe<Option<string>>,
                              s: OrderHookState)
    requires Truthy(walletAddress) && client.Some?
    ensures var r := SubmitOrder(walletAddress, client, params, quote, response, s);
            && (r.result.Err? ==> r.result.failure.Error? && r.state == Failed(r.result.failure))
            && (r.posted.Some? && response == Answered(None) ==> r.result == Err(Error("Order submission failed")))
            && (r.posted.Some? && response.Threw? && response.thrown.NonError? ==>
                  r.result == Err(Error("Failed to submit order")))
            && (r.posted.Some? && response.Threw? && response.thrown.Error? ==> r.result == Err(response.thrown))
            && !r.state.isSubmitting
  {
  }

  /** `cancelOrder` (lines 110-128). */
  function CancelOrder(client: Option<ClobIdentity>, id: string, response: Probe<()>, s: OrderHookState)
    : (r: Cancellation)
  {
    if client.None? then Cancellation(Err(Error("CLOB client not initialized")), s, None, false)
    else
      match response
      case Answered(_) => Cancellation(Ok(()), s.(isSubmitting := false, error := None), Some(id), true)
      case Threw(f) =>
        var e := AsError(f, "Failed to cancel order");
        Cancellation(Err(e), s.(isSubmitting := false, error := Some(e)), Some(id), false)
  }

  /** Cancellation throws untouched without a client; otherwise it asks the
      venue to cancel exactly the given order id, succeeds
      exactly when the venue accepts, refreshing the active orders only then,
      and records any failure as an `Error` ("Failed to cancel order" for a
      non-`Error` throw). The remembered order id is never changed. */
  lemma CancelOutcome(client: Option<ClobIdentity>, id: string, response: Probe<()>, s: OrderHookState)
    ensures var r := CancelOrder(client, id, response, s);
            && (client.None? ==> r == Cancellation(Err(Error("CLOB client not initialized")), s, None, false))
            && (client.Some? ==> r.request == Some(id) && !r.state.isSubmitting)
            && (r.result.Ok? <==> client.Some? && response.Answered?)
            && (r.invalidated <==> r.result.Ok?)
            && (client.Some? && r.result.Err? ==>
                  r.result.failure.Error? && r.state.error == Some(r.result.failure)
                  && (response.thrown.NonError? ==> r.result.failure == Error("Failed to cancel order")))
            && r.state.orderId == s.orderId
  {
  }

  /** Lines 71-75 then 110-118: the order id a successful submission
      remembers is the one the venue returned, and cancelling it asks the
      venue to cancel exactly that order. */
  lemma {:induction false} CancelSubmittedOrder(walletAddress: Option<string>, client: Option<ClobIdentity>,
                                                params: OrderParams, quote: Probe<Numeric>,
                                                response: Probe<Option<string>>, s: OrderHookState,
                                                cancelResponse: Probe<()>)
    requires SubmitOrder(walletAddress, client, params, quote, response, s).result.Ok?
    ensures var r := SubmitOrder(walletAddress, client, params, quote, response, s);
            var c := CancelOrder(client, r.state.orderId.value, cancelResponse, r.state);
            && r.state.orderId == Some(response.answer.value)
            && c.request == Some(response.answer.value)
            && c.state.orderId == r.state.orderId
            && (c.result.Ok? <==> cancelResponse.Answered?)
  {
    SubmitSucceedsIffOrderId(walletAddress, client, params, quote, response, s);
    if client.None? {
      SubmitNeedsWalletAndClient(walletAddress, client, params, quote, response, s);
    }
    var r := SubmitOrder(walletAddress, client, params, quote, response, s);
    CancelOutcome(client, r.state.orderId.value, cancelResponse, r.state);
  }
}
