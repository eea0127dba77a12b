/** The checkout-order logic of `EmbedFormRepository`: validation of the order
    parameters, then the decision whether the quote gets a new remote order
    at the payment provider or its existing one is updated.

    The two stores the repository works on are fields of `Repository`:
    the `conekta_quote` mapping table (quote id to remote order id) and the
    remote provider's orders (order id to order). What the outside world
    decides during one call (the clock, the id and expiry the provider gives
    a created order, a parameter-validation error the provider raises) comes
    in as a `Remote` record. */
module EmbedForm {
  import opened Wrappers
  import opened OrderParams

  type QuoteId = int
  type OrderId = string

  /** An order as the payment provider keeps it: `payment_status`,
      `checkout.expires_at` and the parameters it was created or updated with. */
  datatype RemoteOrder = RemoteOrder(paymentStatus: string, expiresAt: int, params: OrderParams)

  /** The reasons a `ConektaException` is thrown. */
  datatype ConektaError =
    | ForeignCurrency                        // "Este medio de pago no acepta moneda extranjera"
    | BelowMinimumAmount                     // "... debe ingresar una compra superior a $..."
    | ParameterValidation(message: string)   // the provider's ParameterValidationError, re-thrown

  /** What `generate` throws: the domain exception, or the provider's
      lookup error, which is not caught and escapes as it is. */
  datatype GenerateError =
    | Conekta(reason: ConektaError)
    | OrderLookupFailed(id: OrderId)

  /** What happens outside the repository during one call of `generate`:
      `time()`, the id and checkout expiry the provider assigns to an order it
      creates, and the message of the ParameterValidationError the provider
      raises on create or update, if it raises one. The provider never hands
      out an id it already holds, so `freshId` is not among its orders. */
  datatype Remote = Remote(now: int, freshId: OrderId, freshExpiresAt: int, rejection: Option<string>)

  /** The returned order together with its id. */
  datatype Generated = Generated(id: OrderId, order: RemoteOrder)

  // ---------------------------------------------------------------------
  // validateOrderParameters
  // ---------------------------------------------------------------------

  /** The amount, in cents, below which an order is refused:
      MINIMUM_AMOUNT_PER_QUOTE * 100. */
  function MinimumTotal(minimumAmountPerQuote: int): int
  {
    minimumAmountPerQuote * 100
  }

  /** The exception validateOrderParameters throws, or None when it returns. */
  function ValidationFailure(p: OrderParams, minimumAmountPerQuote: int): Option<ConektaError>
  {
    if !IsMxn(p.currency) then Some(ForeignCurrency)
    else if Total(p.lineItems) < MinimumTotal(minimumAmountPerQuote) then Some(BelowMinimumAmount)
    else None
  }

  /** Validation passes exactly when the currency is MXN in any letter case
      and the total reaches the threshold (a total equal to it passes). The
      currency is checked first: a foreign currency is reported as such
      whatever the total. */
  lemma ValidationFailsIff(p: OrderParams, minimumAmountPerQuote: int)
    ensures ValidationFailure(p, minimumAmountPerQuote) == None <==>
      IsMxn(p.currency) && Total(p.lineItems) >= minimumAmountPerQuote * 100
    ensures !IsMxn(p.currency) ==> ValidationFailure(p, minimumAmountPerQuote) == Some(ForeignCurrency)
    ensures IsMxn(p.currency) && Total(p.lineItems) < minimumAmountPerQuote * 100 ==>
      ValidationFailure(p, minimumAmountPerQuote) == Some(BelowMinimumAmount)
  {
  }

  /** Validation reads neither `customer_info` nor the order of the line
      items: removing the one or rearranging the other gives the same answer. */
  lemma ValidationIgnoresCustomerInfoAndItemOrder(p: OrderParams, items: seq<LineItem>, minimumAmountPerQuote: int)
    requires multiset(items) == multiset(p.lineItems)
    ensures ValidationFailure(WithoutCustomerInfo(p), minimumAmountPerQuote) == ValidationFailure(p, minimumAmountPerQuote)
    ensures ValidationFailure(p.(lineItems := items), minimumAmountPerQuote) == ValidationFailure(p, minimumAmountPerQuote)
  {
    TotalPermutation(items, p.lineItems);
  }

  /** validateOrderParameters: the currency test, then the loop that totals
      `unit_price * quantity` over the line items, then the threshold test. */
  method ValidateOrderParameters(p: OrderParams, minimumAmountPerQuote: int) returns (failure: Option<ConektaError>)
    ensures failure == ValidationFailure(p, minimumAmountPerQuote)
  {
    if ToUpper(p.currency) != Mxn {
      return Some(ForeignCurrency);
    }
    var total := 0;
    var i := 0;
    while i < |p.lineItems|
      invariant 0 <= i <= |p.lineItems|
      invariant total + Total(p.lineItems[i..]) == Total(p.lineItems)
    {
      var lineItem := p.lineItems[i];
      assert p.lineItems[i..] == [lineItem] + p.lineItems[i + 1..];
      total := total + lineItem.unitPrice * lineItem.quantity;
      i := i + 1;
    }
    if total < minimumAmountPerQuote * 100 {
      return Some(BelowMinimumAmount);
    }
    return None;
  }

  // ---------------------------------------------------------------------
  // generate: the create-or-update decision
  // ---------------------------------------------------------------------

  /** PHP's `empty()` on a string: true for "" and for "0". */
  predicate IsPhpEmpty(s: string)
  {
    s == "" || s == "0"
  }

  /** The test on the order found for the quote: it has a payment status, or
      its checkout has expired (expiry at exactly `now` counts as expired). */
  predicate MustReplace(order: RemoteOrder, now: int)
  {
    !IsPhpEmpty(order.paymentStatus) || now >= order.expiresAt
  }

  /** What generate does after validation. */
  datatype Plan = CreateOrder | UpdateOrder(id: OrderId) | LookupFails(id: OrderId)

  /** The decision: create when the quote has no mapping (NoSuchEntityException)
      or its order must be replaced; update the mapped order otherwise. A
      mapped id the provider does not know makes `find` fail. */
  function Decide(quotes: map<QuoteId, OrderId>, orders: map<OrderId, RemoteOrder>, quoteId: QuoteId, now: int): (plan: Plan)
    ensures plan.CreateOrder? <==>
      quoteId !in quotes || (quotes[quoteId] in orders && MustReplace(orders[quotes[quoteId]], now))
    ensures plan.UpdateOrder? ==>
      quoteId in quotes && plan.id == quotes[quoteId] && plan.id in orders && !MustReplace(orders[plan.id], now)
    ensures plan.LookupFails? ==> quoteId in quotes && plan.id == quotes[quoteId] && plan.id !in orders
  {
    if quoteId !in quotes then CreateOrder
    else
      var id := quotes[quoteId];
      if id !in orders then LookupFails(id)
      else if MustReplace(orders[id], now) then CreateOrder
      else UpdateOrder(id)
  }

  /** The order the provider creates from the full parameters: unpaid, with
      the expiry the provider assigns. */
  function CreatedOrder(p: OrderParams, remote: Remote): RemoteOrder
  {
    RemoteOrder("", remote.freshExpiresAt, p)
  }

  /** The provider's update: the keys present in the payload replace the
      order's, keys absent from it (here `customer_info`) keep their value;
      payment status and expiry are not touched. */
  function UpdatedOrder(order: RemoteOrder, payload: OrderParams): (o: RemoteOrder)
    ensures o.paymentStatus == order.paymentStatus && o.expiresAt == order.expiresAt
    ensures o.params.currency == payload.currency && o.params.lineItems == payload.lineItems
    ensures payload.customerInfo == None ==> o.params.customerInfo == order.params.customerInfo
    ensures payload.customerInfo != None ==> o.params.customerInfo == payload.customerInfo
    ensures o.params.rest.Keys == order.params.rest.Keys + payload.rest.Keys
    ensures forall k :: k in payload.rest ==> o.params.rest[k] == payload.rest[k]
    ensures forall k :: k in order.params.rest && k !in payload.rest ==> o.params.rest[k] == order.params.rest[k]
  {
    var info := if payload.customerInfo.Some? then payload.customerInfo else order.params.customerInfo;
    order.(params := OrderParams(payload.currency, payload.lineItems, info, order.params.rest + payload.rest))
  }

  /** The result of one generate call and the two stores afterwards. */
  datatype Outcome = Outcome(
    result: Result<Generated, GenerateError>,
    quotes: map<QuoteId, OrderId>,
    orders: map<OrderId, RemoteOrder>)

  /** What generate returns or throws, and what the mapping table and the
      provider hold afterwards. */
  function GenerateOutcome(
    quotes: map<QuoteId, OrderId>, orders: map<OrderId, RemoteOrder>,
    quoteId: QuoteId, p: OrderParams, minimumAmountPerQuote: int, remote: Remote): Outcome
  {
    match ValidationFailure(p, minimumAmountPerQuote)
    case Some(e) => Outcome(Err(Conekta(e)), quotes, orders)
    case None =>
      match Decide(quotes, orders, quoteId, remote.now)
      case LookupFails(id) => Outcome(Err(OrderLookupFailed(id)), quotes, orders)
      case CreateOrder =>
        if remote.rejection.Some? then
          Outcome(Err(Conekta(ParameterValidation(remote.rejection.value))), quotes, orders)
        else
          var created := CreatedOrder(p, remote);
          Outcome(Ok(Generated(remote.freshId, created)),
                  quotes[quoteId := remote.freshId], orders[remote.freshId := created])
      case UpdateOrder(id) =>
        if remote.rejection.Some? then
          Outcome(Err(Conekta(ParameterValidation(remote.rejection.value))), quotes, orders)
        else
          var updated := UpdatedOrder(orders[id], WithoutCustomerInfo(p));
          Outcome(Ok(Generated(id, updated)), quotes, orders[id := updated])
  }

  /** Every quote in the mapping table points at an order the provider has. */
  ghost predicate MappingsResolve(quotes: map<QuoteId, OrderId>, orders: map<OrderId, RemoteOrder>)
  {
    forall q :: q in quotes ==> quotes[q] in orders
  }

  /** The repository with the two stores it changes. */
  class Repository {
    /** The `conekta_quote` table: at most one remote order id per quote id. */
    var quotes: map<QuoteId, OrderId>
    /** The orders the payment provider holds. */
    var orders: map<OrderId, RemoteOrder>
    /** MINIMUM_AMOUNT_PER_QUOTE, in currency units. */
    const minimumAmountPerQuote: int

    constructor (quotes: map<QuoteId, OrderId>, orders: map<OrderId, RemoteOrder>, minimumAmountPerQuote: int)
      ensures this.quotes == quotes && this.orders == orders
      ensures this.minimumAmountPerQuote == minimumAmountPerQuote
    {
      this.quotes := quotes;
      this.orders := orders;
      this.minimumAmountPerQuote := minimumAmountPerQuote;
    }

    /** generate: validate, look the quote up, then create a new remote order
        and record it, or update the existing one without `customer_info`. */
    method Generate(quoteId: QuoteId, orderParams: OrderParams, remote: Remote)
      returns (r: Result<Generated, GenerateError>)
      requires remote.freshId !in orders
      modifies this
      ensures Outcome(r, quotes, orders) ==
        GenerateOutcome(old(quotes), old(orders), quoteId, orderParams, minimumAmountPerQuote, remote)
    {
      var failure := ValidateOrderParameters(orderParams, minimumAmountPerQuote);
      if failure.Some? {
        return Err(Conekta(failure.value));
      }

      var mappedId: Option<OrderId> := None;
      var hasToCreateNewOrder := false;
      if quoteId in quotes {
        var id := quotes[quoteId];
        if id !in orders {
          return Err(OrderLookupFailed(id));
        }
        mappedId := Some(id);
        var order := orders[id];
        if !IsPhpEmpty(order.paymentStatus) || remote.now >= order.expiresAt {
          hasToCreateNewOrder := true;
        }
      } else {
        hasToCreateNewOrder := true;
      }

      if hasToCreateNewOrder {
        if remote.rejection.Some? {
          return Err(Conekta(ParameterValidation(remote.rejection.value)));
        }
        var created := RemoteOrder("", remote.freshExpiresAt, orderParams);
        orders := orders[remote.freshId := created];
        quotes := quotes[quoteId := remote.freshId];
        r := Ok(Generated(remote.freshId, created));
      } else {
        var id := mappedId.value;
        var params := orderParams.(customerInfo := None);
        if remote.rejection.Some? {
          return Err(Conekta(ParameterValidation(remote.rejection.value)));
        }
        var updated := UpdatedOrder(orders[id], params);
        orders := orders[id := updated];
        r := Ok(Generated(id, updated));
      }
    }
  }
}
