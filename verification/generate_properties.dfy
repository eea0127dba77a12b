/** What one call of `generate`, and two calls in a row, do to the mapping
    table and the provider's orders, stated over `GenerateOutcome` (which the
    `Repository.Generate` method is proved to follow). */
module GenerateProperties {
  import opened Wrappers
  import opened OrderParams
  import opened EmbedForm

  /** A refused order changes nothing: the validation error is thrown, and
      neither the mapping table nor the provider's orders move. */
  lemma InvalidParametersChangeNothing(
    quotes: map<QuoteId, OrderId>, orders: map<OrderId, RemoteOrder>,
    quoteId: QuoteId, p: OrderParams, minimumAmountPerQuote: int, remote: Remote)
    requires !IsMxn(p.currency) || Total(p.lineItems) < minimumAmountPerQuote * 100
    ensures var out := GenerateOutcome(quotes, orders, quoteId, p, minimumAmountPerQuote, remote);
      && out.quotes == quotes && out.orders == orders
      && out.result == Err(Conekta(if !IsMxn(p.currency) then ForeignCurrency else BelowMinimumAmount))
  {
  }

  /** A quote without a mapping gets a new remote order made from the full
      parameters (customer_info included); the mapping then points at it, and
      the new order is what is returned. */
  lemma FirstCheckoutCreatesOrder(
    quotes: map<QuoteId, OrderId>, orders: map<OrderId, RemoteOrder>,
    quoteId: QuoteId, p: OrderParams, minimumAmountPerQuote: int, remote: Remote)
    requires ValidationFailure(p, minimumAmountPerQuote) == None
    requires quoteId !in quotes
    requires remote.rejection == None
    ensures var out := GenerateOutcome(quotes, orders, quoteId, p, minimumAmountPerQuote, remote);
      && out.result == Ok(Generated(remote.freshId, RemoteOrder("", remote.freshExpiresAt, p)))
      && out.quotes == quotes[quoteId := remote.freshId]
      && out.orders == orders[remote.freshId := RemoteOrder("", remote.freshExpiresAt, p)]
  {
  }

  /** A mapped order that has a payment status, or whose checkout expired at
      or before `now`, is replaced: a new order is created from the full
      parameters, the mapping moves to it, and the old order stays with the
      provider as it was. */
  lemma PaidOrExpiredOrderReplaced(
    quotes: map<QuoteId, OrderId>, orders: map<OrderId, RemoteOrder>,
    quoteId: QuoteId, p: OrderParams, minimumAmountPerQuote: int, remote: Remote)
    requires ValidationFailure(p, minimumAmountPerQuote) == None
    requires quoteId in quotes && quotes[quoteId] in orders
    requires !IsPhpEmpty(orders[quotes[quoteId]].paymentStatus) || remote.now >= orders[quotes[quoteId]].expiresAt
    requires remote.rejection == None
    requires remote.freshId !in orders
    ensures var out := GenerateOutcome(quotes, orders, quoteId, p, minimumAmountPerQuote, remote);
      && out.result == Ok(Generated(remote.freshId, RemoteOrder("", remote.freshExpiresAt, p)))
      && out.quotes == quotes[quoteId := remote.freshId]
      && out.quotes[quoteId] != quotes[quoteId]
      && out.orders[quotes[quoteId]] == orders[quotes[quoteId]]
      && out.orders.Keys == orders.Keys + {remote.freshId}
  {
  }

  /** A mapped order that is unpaid and not yet expired is updated in place
      with the parameters minus customer_info: the mapping stays, no order is
      created, the order keeps its customer_info, payment status and expiry,
      and the updated order is returned. */
  lemma ActiveOrderUpdated(
    quotes: map<QuoteId, OrderId>, orders: map<OrderId, RemoteOrder>,
    quoteId: QuoteId, p: OrderParams, minimumAmountPerQuote: int, remote: Remote)
    requires ValidationFailure(p, minimumAmountPerQuote) == None
    requires quoteId in quotes && quotes[quoteId] in orders
    requires IsPhpEmpty(orders[quotes[quoteId]].paymentStatus) && remote.now < orders[quotes[quoteId]].expiresAt
    requires remote.rejection == None
    ensures var out := GenerateOutcome(quotes, orders, quoteId, p, minimumAmountPerQuote, remote);
      var id := quotes[quoteId];
      var before := orders[id];
      && out.quotes == quotes
      && out.orders.Keys == orders.Keys
      && (forall k :: k in orders && k != id ==> out.orders[k] == orders[k])
      && out.result == Ok(Generated(id, out.orders[id]))
      && out.orders[id].params.currency == p.currency
      && out.orders[id].params.lineItems == p.lineItems
      && out.orders[id].params.customerInfo == before.params.customerInfo
      && out.orders[id].paymentStatus == before.paymentStatus
      && out.orders[id].expiresAt == before.expiresAt
      && out.orders[id] == UpdatedOrder(before, WithoutCustomerInfo(p))
  {
  }

  /** A ParameterValidationError from the provider's create or update comes
      out as the one domain error, carrying the provider's message, and
      nothing is recorded or changed. */
  lemma RemoteRejectionTranslated(
    quotes: map<QuoteId, OrderId>, orders: map<OrderId, RemoteOrder>,
    quoteId: QuoteId, p: OrderParams, minimumAmountPerQuote: int, remote: Remote)
    requires ValidationFailure(p, minimumAmountPerQuote) == None
    requires quoteId in quotes ==> quotes[quoteId] in orders
    requires remote.rejection.Some?
    ensures var out := GenerateOutcome(quotes, orders, quoteId, p, minimumAmountPerQuote, remote);
      && out.result == Err(Conekta(ParameterValidation(remote.rejection.value)))
      && out.quotes == quotes && out.orders == orders
  {
  }

  /** A successful call leaves the quote mapped to the returned order, the
      provider holding exactly that order under that id, and the order
      unpaid. Every other quote keeps its mapping. */
  lemma SuccessRecordsReturnedOrder(
    quotes: map<QuoteId, OrderId>, orders: map<OrderId, RemoteOrder>,
    quoteId: QuoteId, p: OrderParams, minimumAmountPerQuote: int, remote: Remote)
    requires GenerateOutcome(quotes, orders, quoteId, p, minimumAmountPerQuote, remote).result.Ok?
    ensures var out := GenerateOutcome(quotes, orders, quoteId, p, minimumAmountPerQuote, remote);
      var g := out.result.value;
      && quoteId in out.quotes && out.quotes[quoteId] == g.id
      && g.id in out.orders && out.orders[g.id] == g.order
      && IsPhpEmpty(g.order.paymentStatus)
      && (forall q :: q != quoteId ==> (q in out.quotes <==> q in quotes))
      && (forall q :: q in quotes && q != quoteId ==> out.quotes[q] == quotes[q])
  {
  }

  /** generate keeps every mapping resolvable: if each quote pointed at an
      order the provider has, it still does afterwards. */
  lemma GeneratePreservesMappingsResolve(
    quotes: map<QuoteId, OrderId>, orders: map<OrderId, RemoteOrder>,
    quoteId: QuoteId, p: OrderParams, minimumAmountPerQuote: int, remote: Remote)
    requires MappingsResolve(quotes, orders)
    ensures var out := GenerateOutcome(quotes, orders, quoteId, p, minimumAmountPerQuote, remote);
      MappingsResolve(out.quotes, out.orders)
  {
  }

  /** A second checkout of the same quote, before the order from the first
      one expires and with valid parameters, updates that same order: the
      mapping is unchanged and no new order appears. */
  lemma RepeatedCheckoutReusesOrder(
    quotes: map<QuoteId, OrderId>, orders: map<OrderId, RemoteOrder>,
    quoteId: QuoteId, p1: OrderParams, p2: OrderParams, minimumAmountPerQuote: int,
    remote1: Remote, remote2: Remote)
    requires GenerateOutcome(quotes, orders, quoteId, p1, minimumAmountPerQuote, remote1).result.Ok?
    requires remote2.now < GenerateOutcome(quotes, orders, quoteId, p1, minimumAmountPerQuote, remote1).result.value.order.expiresAt
    requires ValidationFailure(p2, minimumAmountPerQuote) == None
    requires remote2.rejection == None
    ensures var first := GenerateOutcome(quotes, orders, quoteId, p1, minimumAmountPerQuote, remote1);
      var second := GenerateOutcome(first.quotes, first.orders, quoteId, p2, minimumAmountPerQuote, remote2);
      && second.result.Ok?
      && second.result.value.id == first.result.value.id
      && second.quotes == first.quotes
      && second.orders.Keys == first.orders.Keys
  {
  }
}
