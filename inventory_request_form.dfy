/**
 * The buyer-facing inventory request form: the cart of requested quantities,
 * prices converted into the currency of the selected country, the line items
 * and total built from the cart, and submission of the request.
 */
module InventoryRequestForm {
  import opened Wrappers
  import opened ExchangeRates
  import opened Catalog
  import opened Quantities

  /** `convertPrice(price, from)`: a price in `from` shown in the selected country's currency. */
  function ConvertPrice(price: real, from: Option<Code>, country: Country): (r: real)
    ensures from == Some(country.currency) ==> r == price
    ensures from.None? ==> r == 0.0
  {
    price * GetExchangeRate(from, country.currency)
  }

  /** A price already in the selected currency is shown unchanged. */
  lemma ConvertInSameCurrency(price: real, country: Country)
    ensures ConvertPrice(price, Some(country.currency), country) == price
  {
  }

  /** Without a source currency every price converts to 0. */
  lemma ConvertWithoutCurrency(price: real, country: Country)
    ensures ConvertPrice(price, None, country) == 0.0
  {
    ZeroRate(None, country.currency);
  }

  /**
   * Every catalogue product converts at a strictly positive rate into every
   * currency a buyer can select: its base currency is JPY or USD, and the
   * rate from either of those to any code of the table is positive.
   */
  lemma {:induction false} CatalogRatesPositive(p: Product, country: Country)
    requires p in Products()
    ensures GetExchangeRate(Some(p.currency), country.currency) > 0.0
  {
    CatalogCurrencies();
    RateFromJpyOrUsdPositive(p.currency, country.currency);
  }

  /**
   * `x * n` for a whole number of items `n`, as repeated addition; see
   * `TimesIsProduct`.
   */
  function Times(x: real, n: int): real
    decreases if n < 0 then -n else n
  {
    if n == 0 then 0.0
    else if n > 0 then Times(x, n - 1) + x
    else Times(x, n + 1) - x
  }

  /** `Times` is multiplication by a whole number. */
  lemma {:induction false} TimesIsProduct(x: real, n: int)
    ensures Times(x, n) == x * n as real
    decreases if n < 0 then -n else n
  {
    if n > 0 {
      TimesIsProduct(x, n - 1);
    } else if n < 0 {
      TimesIsProduct(x, n + 1);
    }
  }

  /** Any number of items priced at 0 cost 0. */
  lemma {:induction false} TimesOfZero(n: int)
    ensures Times(0.0, n) == 0.0
    decreases if n < 0 then -n else n
  {
    if n > 0 {
      TimesOfZero(n - 1);
    } else if n < 0 {
      TimesOfZero(n + 1);
    }
  }

  /** What one cart entry adds to `calculateTotal()`: 0 for an id not in `products`. */
  function LineValue(products: seq<Product>, e: Entry, country: Country): real
  {
    match FindIn(products, e.id)
    case Some(p) => Times(ConvertPrice(p.price, Some(p.currency), country), e.qty)
    case None => 0.0
  }

  /**
   * `calculateTotal()` over the catalogue `products` (the form passes
   * `availableProducts`): the converted value of every cart entry, summed in
   * cart order.
   */
  function CalculateTotal(products: seq<Product>, cart: Cart, country: Country): (r: real)
    ensures cart == [] ==> r == 0.0
  {
    if cart == [] then 0.0
    else LineValue(products, cart[0], country) + CalculateTotal(products, cart[1..], country)
  }

  /** The total of a cart split in two is the sum of the totals of the parts. */
  lemma {:induction false} TotalOfConcat(products: seq<Product>, a: Cart, b: Cart, country: Country)
    ensures CalculateTotal(products, a + b, country) ==
      CalculateTotal(products, a, country) + CalculateTotal(products, b, country)
  {
    if a != [] {
      assert (a + b)[1..] == a[1..] + b;
      TotalOfConcat(products, a[1..], b, country);
    } else {
      assert a + b == b;
    }
  }

  /** One element of the array `getSelectedItems()` returns. */
  datatype LineItem = LineItem(
    productId: string,
    productName: string,
    quantity: int,
    unitPrice: real,
    totalPrice: real,
    currency: Code,
    currencySymbol: string)

  /**
   * The unit price of a cart entry in the selected currency: an id not in
   * `products` is priced at 0 in the selected currency itself.
   */
  function UnitPrice(products: seq<Product>, id: string, country: Country): real
  {
    match FindIn(products, id)
    case Some(p) => ConvertPrice(p.price, Some(p.currency), country)
    case None => ConvertPrice(0.0, Some(country.currency), country)
  }

  /** The line item built for one cart entry; an unknown id gets an empty name. */
  function ToLineItem(products: seq<Product>, e: Entry, country: Country): LineItem
  {
    var name := match FindIn(products, e.id) case Some(p) => p.name case None => "";
    var unit := UnitPrice(products, e.id, country);
    LineItem(e.id, name, e.qty, unit, Times(unit, e.qty), country.currency, country.symbol)
  }

  /**
   * A line item is priced at its unit price times its quantity; an id the
   * catalogue does not list gets an empty name and is priced at 0.
   */
  lemma LineItemPricing(products: seq<Product>, e: Entry, country: Country)
    ensures var item := ToLineItem(products, e, country);
      && item.productId == e.id && item.quantity == e.qty
      && item.totalPrice == Times(item.unitPrice, item.quantity)
      && (FindIn(products, e.id).None? ==> item.productName == "" && item.unitPrice == 0.0 && item.totalPrice == 0.0)
      && (FindIn(products, e.id).Some? ==> item.productName == FindIn(products, e.id).value.name)
  {
    if FindIn(products, e.id).None? {
      ConvertInSameCurrency(0.0, country);
      TimesOfZero(e.qty);
    }
  }

  /** `entries.map(toLineItem)`. */
  function ToLineItems(products: seq<Product>, entries: Cart, country: Country): (r: seq<LineItem>)
    ensures |r| == |entries|
    ensures forall i | 0 <= i < |r| :: r[i] == ToLineItem(products, entries[i], country)
  {
    if entries == [] then []
    else [ToLineItem(products, entries[0], country)] + ToLineItems(products, entries[1..], country)
  }

  /** `getSelectedItems()`: a line item for every entry with a positive quantity, in cart order. */
  function GetSelectedItems(products: seq<Product>, cart: Cart, country: Country): (r: seq<LineItem>)
    ensures |r| == |Positive(cart)| <= |cart|
    ensures forall i | 0 <= i < |r| ::
      r[i].productId == Positive(cart)[i].id && r[i].quantity == Positive(cart)[i].qty
      && r[i].currency == country.currency
  {
    ToLineItems(products, Positive(cart), country)
  }

  /**
   * The selected items are exactly the cart entries with a positive quantity,
   * in cart order, each priced at its unit price times its quantity, in the
   * selected currency.
   */
  lemma SelectedItemsAreThePositiveEntries(products: seq<Product>, cart: Cart, country: Country)
    ensures var items := GetSelectedItems(products, cart, country);
      && |items| == |Positive(cart)| <= |cart|
      && (forall i | 0 <= i < |items| ::
            && items[i].productId == Positive(cart)[i].id
            && items[i].quantity == Positive(cart)[i].qty > 0
            && items[i] == ToLineItem(products, Positive(cart)[i], country)
            && items[i].currency == country.currency
            && items[i].currencySymbol == country.symbol)
      && (forall e :: e in Positive(cart) <==> e in cart && e.qty > 0)
  {
    var items := GetSelectedItems(products, cart, country);
    forall i | 0 <= i < |items|
      ensures items[i].quantity == Positive(cart)[i].qty > 0
    {
      assert Positive(cart)[i] in Positive(cart);
    }
  }

  /** A cart holding no positive quantity selects no items. */
  lemma NothingSelected(products: seq<Product>, cart: Cart, country: Country)
    requires forall e | e in cart :: e.qty <= 0
    ensures GetSelectedItems(products, cart, country) == []
  {
  }

  /** The sum of the `total_price` fields of a list of line items. */
  function SumTotals(items: seq<LineItem>): real
  {
    if items == [] then 0.0 else items[0].totalPrice + SumTotals(items[1..])
  }

  /** An entry's line item is priced at exactly what the entry adds to the total. */
  lemma LineItemMatchesLineValue(products: seq<Product>, e: Entry, country: Country)
    ensures ToLineItem(products, e, country).totalPrice == LineValue(products, e, country)
  {
    if FindIn(products, e.id).None? {
      ConvertInSameCurrency(0.0, country);
      TimesOfZero(e.qty);
    }
  }

  /** The line items of some entries add up to what those entries add to the total. */
  lemma {:induction false} LineItemsSum(products: seq<Product>, entries: Cart, country: Country)
    ensures SumTotals(ToLineItems(products, entries, country)) == CalculateTotal(products, entries, country)
  {
    if entries != [] {
      var items := ToLineItems(products, entries, country);
      assert items[1..] == ToLineItems(products, entries[1..], country);
      LineItemMatchesLineValue(products, entries[0], country);
      LineItemsSum(products, entries[1..], country);
    }
  }

  /** An entry at quantity 0 adds nothing to the total. */
  lemma NothingForZero(products: seq<Product>, e: Entry, country: Country)
    requires e.qty == 0
    ensures LineValue(products, e, country) == 0.0
  {
  }

  /** Entries at quantity 0 add nothing: without negative quantities, only positive entries count. */
  lemma {:induction false} TotalOfPositiveEntries(products: seq<Product>, cart: Cart, country: Country)
    requires NonNegative(cart)
    ensures CalculateTotal(products, Positive(cart), country) == CalculateTotal(products, cart, country)
  {
    if cart != [] {
      var rest := cart[1..];
      assert forall e | e in rest :: e in cart;
      TotalOfPositiveEntries(products, rest, country);
      assert [cart[0]] + rest == cart;
      PositiveKeepsOrder([cart[0]], rest);
      assert [cart[0]][1..] == [];
      if cart[0].qty > 0 {
        assert Positive(cart) == [cart[0]] + Positive(rest);
        assert Positive(cart)[0] == cart[0] && Positive(cart)[1..] == Positive(rest);
      } else {
        assert Positive(cart) == Positive(rest);
        NothingForZero(products, cart[0], country);
      }
    }
  }

  /**
   * With no negative quantity in the cart (the form never stores one), the
   * selected items add up to `calculateTotal()`: entries at 0 add nothing to
   * either, and an unknown id is priced at 0 in both.
   */
  lemma SelectedItemsSumToTotal(products: seq<Product>, cart: Cart, country: Country)
    requires NonNegative(cart)
    ensures SumTotals(GetSelectedItems(products, cart, country)) == CalculateTotal(products, cart, country)
  {
    LineItemsSum(products, Positive(cart), country);
    TotalOfPositiveEntries(products, cart, country);
  }

  /** The form fields of a request: contact e-mail, name and an optional message. */
  datatype FormData = FormData(email: string, name: string, message: Option<string>)

  /** The row written to `inventory_requests` when a request is submitted. */
  datatype RequestRecord = RequestRecord(
    userEmail: string,
    userName: string,
    totalAmount: real,
    currency: Code,
    status: string,
    userNotes: Option<string>,
    items: seq<LineItem>)

  /**
   * The record as the form builds it: `total_amount` is
   * `convertPrice(calculateTotal())`, called without a source currency.
   */
  function RequestAsWritten(data: FormData, cart: Cart, country: Country): (r: RequestRecord)
    ensures r.totalAmount == 0.0
    ensures r.items == GetSelectedItems(Products(), cart, country)
    ensures r.currency == country.currency && r.status == "pending"
  {
    RequestRecord(data.email, data.name, ConvertPrice(CalculateTotal(Products(), cart, country), None, country),
      country.currency, "pending", data.message, GetSelectedItems(Products(), cart, country))
  }

  /** As written, the stored and e-mailed total is 0 whatever the cart holds. */
  lemma AsWrittenTotalIsZero(data: FormData, cart: Cart, country: Country)
    ensures RequestAsWritten(data, cart, country).totalAmount == 0.0
  {
    ConvertWithoutCurrency(CalculateTotal(Products(), cart, country), country);
  }

  /**
   * The record with the total the form evidently means to store: the cart's
   * total, already in the selected currency.
   */
  function NewRequest(data: FormData, cart: Cart, country: Country): (r: RequestRecord)
    ensures r.items == GetSelectedItems(Products(), cart, country)
    ensures r.currency == country.currency && r.status == "pending"
    ensures r.userEmail == data.email && r.userName == data.name
  {
    RequestRecord(data.email, data.name, CalculateTotal(Products(), cart, country),
      country.currency, "pending", data.message, GetSelectedItems(Products(), cart, country))
  }

  /** The corrected record stores the total of the very line items it holds. */
  lemma NewRequestTotalMatchesItems(data: FormData, cart: Cart, country: Country)
    requires NonNegative(cart)
    ensures var r := NewRequest(data, cart, country);
      && r.totalAmount == SumTotals(r.items)
      && r.items == GetSelectedItems(Products(), cart, country)
      && r.currency == country.currency && r.status == "pending"
  {
    SelectedItemsSumToTotal(Products(), cart, country);
  }

  /**
   * Two bags of the first catalogue product, requested from Japan: the form as
   * written stores 0, the corrected record 34000 (yen).
   */
  lemma AsWrittenLosesTheTotal()
    ensures var cart := [Entry("PKA0020KYSSDPKK", 2)];
      var data := FormData("buyer@example.com", "Buyer", None);
      && RequestAsWritten(data, cart, Countries()[0]).totalAmount == 0.0
      && NewRequest(data, cart, Countries()[0]).totalAmount == 34000.0
  {
    var cart := [Entry("PKA0020KYSSDPKK", 2)];
    var japan := Countries()[0];
    assert japan.currency == JPY;
    assert Products()[0].id == "PKA0020KYSSDPKK";
    assert FindProduct("PKA0020KYSSDPKK") == Some(Products()[0]);
    assert CalculateTotal(Products(), cart[1..], japan) == 0.0;
    AsWrittenTotalIsZero(FormData("buyer@example.com", "Buyer", None), cart, japan);
  }

  /** `countries.find(c => c.name === name)`. */
  function FindCountryIn(cs: seq<Country>, name: string): (r: Option<Country>)
    ensures r.None? <==> forall c | c in cs :: c.name != name
    ensures r.Some? ==> r.value in cs && r.value.name == name
    ensures r.Some? ==> exists i | 0 <= i < |cs| :: cs[i] == r.value && forall k | 0 <= k < i :: cs[k].name != name
  {
    if cs == [] then None
    else if cs[0].name == name then Some(cs[0])
    else FindCountryIn(cs[1..], name)
  }

  /** How a submission ended. */
  datatype SubmitOutcome =
    | NoItems                          // "No items selected": nothing is sent
    | Submitted(allEmailsSent: bool)   // the request is stored; both e-mails sent or not
    | SubmitFailed                     // the insert failed: "Failed to submit request"

  /** The state of the form: the cart, the busy flag and the selected country. */
  class Form {
    var selectedItems: Cart
    var isSubmitting: bool
    var selectedCountry: Country

    /** The cart the form keeps: distinct keys, no negative quantity. */
    predicate Valid()
      reads this
    {
      DistinctIds(selectedItems) && NonNegative(selectedItems)
    }

    /** An empty cart, not submitting, with the first country (Japan) selected. */
    constructor ()
      ensures Valid()
      ensures selectedItems == [] && !isSubmitting && selectedCountry == Countries()[0]
    {
      selectedItems := [];
      isSubmitting := false;
      selectedCountry := Countries()[0];
    }

    /** `handleQuantityChange(id, q)`. */
    method HandleQuantityChange(id: string, q: int)
      requires Valid()
      modifies this
      ensures Valid()
      ensures selectedItems == QuantityChanged(old(selectedItems), id, q)
      ensures isSubmitting == old(isSubmitting) && selectedCountry == old(selectedCountry)
    {
      if q >= 0 {
        selectedItems := Put(selectedItems, id, q);
      }
    }

    /** The country selector: a name not in `countries` leaves the selection as it is. */
    method SelectCountry(name: string)
      modifies this
      ensures selectedCountry == match FindCountryIn(Countries(), name)
        case Some(c) => c
        case None => old(selectedCountry)
      ensures selectedItems == old(selectedItems) && isSubmitting == old(isSubmitting)
    {
      var found := FindCountryIn(Countries(), name);
      if found.Some? {
        selectedCountry := found.value;
      }
    }

    /**
     * `onSubmit(data)`. The insert and the two notification e-mails are
     * outside the model; their outcomes are the parameters. With `asWritten`
     * the record carries the total as the form computes it (always 0);
     * without it, the corrected total. Returns how the submission ended and
     * the record it tried to insert, if any.
     */
    method OnSubmit(data: FormData, asWritten: bool, insertOk: bool, adminEmailOk: bool, userEmailOk: bool)
      returns (outcome: SubmitOutcome, sent: Option<RequestRecord>)
      requires Valid()
      modifies this
      ensures Valid()
      ensures selectedCountry == old(selectedCountry)
      ensures GetSelectedItems(Products(), old(selectedItems), selectedCountry) == [] ==>
        outcome == NoItems && sent.None? &&
        selectedItems == old(selectedItems) && isSubmitting == old(isSubmitting)
      ensures GetSelectedItems(Products(), old(selectedItems), selectedCountry) != [] ==>
        && sent == Some(if asWritten then RequestAsWritten(data, old(selectedItems), selectedCountry)
                        else NewRequest(data, old(selectedItems), selectedCountry))
        && !isSubmitting
        && (insertOk ==> outcome == Submitted(adminEmailOk && userEmailOk) && selectedItems == [])
        && (!insertOk ==> outcome == SubmitFailed && selectedItems == old(selectedItems))
    {
      var items := GetSelectedItems(Products(), selectedItems, selectedCountry);
      if |items| == 0 {
        return NoItems, None;
      }
      isSubmitting := true;
      var request := if asWritten then RequestAsWritten(data, selectedItems, selectedCountry)
        else NewRequest(data, selectedItems, selectedCountry);
      sent := Some(request);
      if !insertOk {
        outcome := SubmitFailed;
      } else {
        outcome := Submitted(adminEmailOk && userEmailOk);
        selectedItems := [];
      }
      isSubmitting := false;
    }
  }
}
