# Conekta embedded-checkout order generation, in Dafny

This project models the checkout-order logic of the Conekta payments module
for Magento 2 (`Model/EmbedFormRepository.php`). When a shopper reaches the
embedded checkout form, the module calls `generate(quoteId, orderParams)`.
That call does two things.

1. It validates the order parameters. The currency, upper-cased, must be
   `MXN`. The sum of `unit_price * quantity` over the line items must be at
   least `MINIMUM_AMOUNT_PER_QUOTE * 100` cents.
2. It decides whether the quote gets a new Conekta order or keeps its
   current one. The `conekta_quote` table maps a quote id to a Conekta order
   id. A new order is created, and the mapping saved, when:
   - the quote has no mapping, or
   - the mapped order has a payment status, or
   - the mapped order's checkout has expired.

   Otherwise the mapped order is updated with the parameters, minus
   `customer_info`. A `ParameterValidationError` from the provider is
   re-thrown as a `ConektaException`.

Layout:

- `wrappers.dfy`: `Option` and `Result`.
- `order_params.dfy` (module `OrderParams`): the order parameters, and
  `strtoupper` as `ToUpper`. It also holds the currency test `IsMxn`, the
  line-item `Total` with its lemmas, and the removal of `customer_info`.
- `embed_form_repository.dfy` (module `EmbedForm`): the error kinds and the
  validation. `ValidateOrderParameters` is a method with the source's
  summing loop, proved equal to `ValidationFailure`. This file also holds:
  - the decision `Decide`;
  - the specification `GenerateOutcome` of one `generate` call;
  - the class `Repository`, whose fields are the mapping table `quotes` and
    the provider's orders `orders`, and whose `Generate` method updates them
    step by step and is proved to follow `GenerateOutcome`.
- `generate_properties.dfy` (module `GenerateProperties`): what one call and
  two calls in a row do to the two stores.

Inputs standing for the outside world come in the `Remote` record:
- `time()` is `now`;
- the id and checkout expiry the provider gives an order it creates are
  `freshId` and `freshExpiresAt`. The provider never reuses an id, so
  `Repository.Generate` requires `freshId` not to be among the provider's
  orders; a create therefore never overwrites another quote's order;
- the message of a `ParameterValidationError` raised by the provider's
  `create` or `update`, if one is raised, is `rejection`.

`MINIMUM_AMOUNT_PER_QUOTE` is defined in an interface that is not part of
this model. It is the constant `minimumAmountPerQuote` of `Repository` and a
parameter everywhere else.

Modelling decisions:
- The currency is compared after upper-casing (line 43), so `mxn` and `Mxn`
  are accepted.
- The error message at lines 57-58 asks for a purchase "superior a $…"
  (greater than the minimum), but line 55 refuses only when
  `total < MINIMUM_AMOUNT_PER_QUOTE * 100`. A total exactly at the threshold
  therefore passes, and the model follows line 55.
- `!empty($conektaOrder->payment_status)` uses PHP's `empty()`, which also
  treats the string `"0"` as empty. `IsPhpEmpty` models this.
- `strtoupper` is modelled as ASCII-only upper-casing. That is the
  behaviour of PHP 8.2 and later, and that of earlier versions under the
  "C" locale.
- A mapping whose order the provider does not know makes `find` fail with
  the provider's own error. The code does not catch that error (it catches
  only `NoSuchEntityException`), so it escapes unchanged. This is
  `OrderLookupFailed`, and nothing changes.
- The provider's `update` is modelled as follows:
  - keys present in the payload replace the order's;
  - keys absent from the payload keep their values, so `customer_info` stays
    as it was;
  - the payment status and the expiry are untouched.
- Saving a mapping for a quote that already has one overwrites it: at most
  one mapping per quote.

## Model

| member | source | states |
|---|---|---|
| `OrderParams.ToUpper` | Model/EmbedFormRepository.php:43 | `strtoupper` keeps the length and upper-cases each character on its own (ASCII letters only) |
| `OrderParams.ToUpperIdempotent` | Model/EmbedFormRepository.php:43 | upper-casing twice gives the same code as upper-casing once |
| `OrderParams.IsMxn` | Model/EmbedFormRepository.php:43-47 | the currency passes exactly when it is three characters, each M/m, X/x, N/n in turn, i.e. "MXN" in any letter case |
| `OrderParams.IsMxnExamples` | Model/EmbedFormRepository.php:43-47 | "mxn", "Mxn", "mXn" pass; "USD", "MX", " MXN", "MXNN" and "" fail |
| `OrderParams.TotalAppend` | Model/EmbedFormRepository.php:50-53 | the total of two lists of line items one after the other is the sum of their totals |
| `OrderParams.TotalRemoveAt` | Model/EmbedFormRepository.php:50-53 | dropping one line item lowers the total by exactly its `unit_price * quantity` |
| `OrderParams.TotalPermutation` | Model/EmbedFormRepository.php:50-53 | the total is the same for any arrangement of the same line items |
| `OrderParams.TotalNonNegative` | Model/EmbedFormRepository.php:50-53 | line items with non-negative prices and quantities total at least 0 |
| `OrderParams.WithoutCustomerInfo` | Model/EmbedFormRepository.php:119 | removing `customer_info` clears that key and keeps currency, line items and every other key; params without it are unchanged |
| `EmbedForm.ValidateOrderParameters` | Model/EmbedFormRepository.php:40-61 | the method, with its loop accumulating `unit_price * quantity`, returns exactly the error `ValidationFailure` gives (empty list totals 0) |
| `EmbedForm.ValidationFailsIff` | Model/EmbedFormRepository.php:43-60 | validation passes iff the currency is MXN in any case and the total is at least `MINIMUM_AMOUNT_PER_QUOTE * 100`; a foreign currency is reported before a too-small total |
| `EmbedForm.ValidationIgnoresCustomerInfoAndItemOrder` | Model/EmbedFormRepository.php:50-53 | validation gives the same answer without `customer_info` and for any rearrangement of the line items |
| `EmbedForm.Decide` | Model/EmbedFormRepository.php:79-93 | create iff there is no mapping or the mapped order has a non-empty payment status or `now >= expires_at`; update only the mapped, unpaid, unexpired order; a mapped id unknown to the provider is a lookup failure |
| `EmbedForm.UpdatedOrder` | Model/EmbedFormRepository.php:120 | an update replaces currency, line items and the payload's keys, keeps every other key and `customer_info` when the payload lacks it, and keeps payment status and expiry |
| `EmbedForm.Repository.Generate` | Model/EmbedFormRepository.php:69-128 | given an order id the provider does not yet hold for a created order, the imperative generate (flag set step by step, mapping saved, `customer_info` unset, order updated) returns and leaves both stores exactly as `GenerateOutcome` says |
| `GenerateProperties.InvalidParametersChangeNothing` | Model/EmbedFormRepository.php:43-60 | a failed validation throws its error (currency first) and leaves the mapping table and the provider's orders unchanged |
| `GenerateProperties.FirstCheckoutCreatesOrder` | Model/EmbedFormRepository.php:89-112 | a quote without a mapping gets a new unpaid order built from the full parameters; the mapping then points at its id and that order is returned |
| `GenerateProperties.PaidOrExpiredOrderReplaced` | Model/EmbedFormRepository.php:84-112 | a mapped order with a payment status or with `now >= expires_at` is replaced by a new order; the mapping moves to it and the old order is left as it was |
| `GenerateProperties.ActiveOrderUpdated` | Model/EmbedFormRepository.php:113-123 | an unpaid, unexpired mapped order becomes exactly the provider's update of it with the parameters minus `customer_info` (all other keys included); mapping unchanged, no new order, other orders untouched, the updated order is returned |
| `GenerateProperties.RemoteRejectionTranslated` | Model/EmbedFormRepository.php:124-127 | a `ParameterValidationError` from create or update comes out as one `ConektaException` with the provider's message, and nothing is saved or changed |
| `GenerateProperties.SuccessRecordsReturnedOrder` | Model/EmbedFormRepository.php:103-123 | after a successful call the quote maps to the returned order's id, the provider holds exactly the returned order under it, the order is unpaid, and other quotes keep their mappings |
| `GenerateProperties.GeneratePreservesMappingsResolve` | Model/EmbedFormRepository.php:103-121 | if every mapping pointed at an order the provider has, it still does after generate |
| `GenerateProperties.RepeatedCheckoutReusesOrder` | Model/EmbedFormRepository.php:80-121 | a second valid checkout of the same quote before the first order expires updates that same order: same id, same mapping, no new order |

## Left out

- `Model/ConektaSalesOrder.php`: only getters and setters over the framework's ORM (`setData`, `getData`, `load`); it holds no logic of its own.
- The Magento repository and factories and the Conekta client (`find`, `create`, `update`) are not modelled as code. They are the two maps `quotes` and `orders`, and the `Remote` inputs stand for what the provider returns or raises.
- `time()` is the input `now`. The id and expiry of a created order are inputs.
- Logging (`_conektaLogger->info/error`) is left out. So are the localized messages (`__()`): errors are the values of `ConektaError`.
- PHP's loose typing is left out: float prices, numeric strings, and integer overflow turning into a float. Amounts are unbounded integers in cents.
- Exceptions other than `ParameterValidationError` raised by the provider's `create` or `update`, and failures of the mapping `save`, are not modelled. The code lets them escape.
- A `find` that returns an empty value instead of raising (the `!empty($conektaOrder)` guard) is not modelled: `find` here either yields the order or fails.
- Concurrent checkouts of the same quote race on the create-or-update decision. The model treats calls one at a time.
- The dependency-injection constructor (`Model/EmbedFormRepository.php:21-33`) is not modelled. `Repository`'s constructor only sets the two stores and the minimum.
