/** The checkout order parameters that the storefront hands to
    `EmbedFormRepository::generate`, and the two facts its validation reads
    from them: the currency code (compared after upper-casing) and the total
    of the line items. */
module OrderParams {
  import opened Wrappers

  /** One entry of `line_items`; `unitPrice` is in cents. */
  datatype LineItem = LineItem(unitPrice: int, quantity: int)

  /** The `customer_info` entry of the order parameters. */
  datatype CustomerInfo = CustomerInfo(name: string, email: string, phone: string)

  /** The `orderParams` array. `currency`, `line_items` and `customer_info`
      are the keys the repository reads or removes; every other key
      (checkout settings, shipping, metadata, ...) travels in `rest`. */
  datatype OrderParams = OrderParams(
    currency: string,
    lineItems: seq<LineItem>,
    customerInfo: Option<CustomerInfo>,
    rest: map<string, string>)

  /** The currency code every order must carry. */
  const Mxn: string := "MXN"

  // ---------------------------------------------------------------------
  // strtoupper
  // ---------------------------------------------------------------------

  /** Upper-cases one ASCII letter and leaves every other character alone. */
  function UpperChar(c: char): char
  {
    if 'a' <= c <= 'z' then (c as int - 32) as char else c
  }

  /** PHP's `strtoupper` on a string: character by character, same length. */
  function ToUpper(s: string): (r: string)
    ensures |r| == |s|
    ensures forall i :: 0 <= i < |s| ==> r[i] == UpperChar(s[i])
  {
    if s == [] then [] else [UpperChar(s[0])] + ToUpper(s[1..])
  }

  /** Upper-casing a second time changes nothing. */
  lemma ToUpperIdempotent(s: string)
    ensures ToUpper(ToUpper(s)) == ToUpper(s)
  {
  }

  /** The currency test of validateOrderParameters: the code upper-cased is
      exactly "MXN". Equivalently, it is three characters long and each one
      is the upper- or lower-case form of M, X, N in turn. */
  function IsMxn(currency: string): (accepted: bool)
    ensures accepted <==>
      |currency| == 3 &&
      (currency[0] == 'M' || currency[0] == 'm') &&
      (currency[1] == 'X' || currency[1] == 'x') &&
      (currency[2] == 'N' || currency[2] == 'n')
  {
    var u := ToUpper(currency);
    if |currency| == 3 then
      assert u == [u[0], u[1], u[2]];
      u == Mxn
    else
      u == Mxn
  }

  /** The currency codes that differ from "MXN" only in letter case pass;
      other codes, and "MXN" with anything around it, do not. */
  lemma IsMxnExamples()
    ensures IsMxn("MXN") && IsMxn("mxn") && IsMxn("Mxn") && IsMxn("mXn")
    ensures !IsMxn("USD") && !IsMxn("MX") && !IsMxn(" MXN") && !IsMxn("MXNN") && !IsMxn("")
  {
  }

  // ---------------------------------------------------------------------
  // Line-item total
  // ---------------------------------------------------------------------

  /** `unit_price * quantity` of one line item. */
  function Amount(item: LineItem): int
  {
    item.unitPrice * item.quantity
  }

  /** The sum of `unit_price * quantity` over all line items, in cents. */
  function Total(items: seq<LineItem>): int
  {
    if items == [] then 0 else Amount(items[0]) + Total(items[1..])
  }

  /** The total of two lists one after the other is the sum of their totals. */
  lemma {:induction false} TotalAppend(a: seq<LineItem>, b: seq<LineItem>)
    ensures Total(a + b) == Total(a) + Total(b)
  {
    if a == [] {
      assert a + b == b;
    } else {
      assert (a + b)[1..] == a[1..] + b;
      TotalAppend(a[1..], b);
    }
  }

  /** Taking out the item at position i lowers the total by that item's amount. */
  lemma TotalRemoveAt(items: seq<LineItem>, i: nat)
    requires i < |items|
    ensures Total(items) == Amount(items[i]) + Total(items[..i] + items[i + 1..])
  {
    var before, after := items[..i], items[i + 1..];
    var tail := [items[i]] + after;
    assert tail[1..] == after;
    assert Total(tail) == Amount(items[i]) + Total(after);
    assert items == before + tail;
    TotalAppend(before, tail);
    TotalAppend(before, after);
  }

  /** The total does not depend on the order in which the line items are
      listed (the loop visits them in order, but the sum is the same for any
      arrangement of the same items). */
  lemma {:induction false} TotalPermutation(a: seq<LineItem>, b: seq<LineItem>)
    requires multiset(a) == multiset(b)
    ensures Total(a) == Total(b)
    decreases |a|
  {
    if a != [] {
      assert a[0] in multiset(b);
      var i :| 0 <= i < |b| && b[i] == a[0];
      var b' := b[..i] + b[i + 1..];
      assert b == b[..i] + [b[i]] + b[i + 1..];
      assert multiset(b) == multiset(b') + multiset{a[0]};
      assert a == [a[0]] + a[1..];
      assert multiset(a) == multiset(a[1..]) + multiset{a[0]};
      assert multiset(a[1..]) == multiset(a) - multiset{a[0]};
      assert multiset(b') == multiset(b) - multiset{a[0]};
      TotalPermutation(a[1..], b');
      TotalRemoveAt(b, i);
    }
  }

  /** An order whose line items all have a non-negative price and quantity
      has a non-negative total. */
  lemma {:induction false} TotalNonNegative(items: seq<LineItem>)
    requires forall k :: 0 <= k < |items| ==> items[k].unitPrice >= 0 && items[k].quantity >= 0
    ensures Total(items) >= 0
  {
    if items != [] {
      TotalNonNegative(items[1..]);
    }
  }

  // ---------------------------------------------------------------------
  // unset($orderParams['customer_info'])
  // ---------------------------------------------------------------------

  /** The order parameters with the `customer_info` key removed. */
  function WithoutCustomerInfo(p: OrderParams): (q: OrderParams)
    ensures q.customerInfo == None
    ensures q.currency == p.currency && q.lineItems == p.lineItems && q.rest == p.rest
    ensures p.customerInfo == None ==> q == p
  {
    p.(customerInfo := None)
  }
}
