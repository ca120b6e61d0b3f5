/**
 * The partner order portal: a mock login gate, a cart of whole quantities
 * over three products priced in whole yen, order submission that puts the new
 * order at the head of a history list, and logout.
 */
module PartnerPortal {
  import opened Wrappers
  import opened JsNumber
  import opened Quantities

  /** A product of the portal: prices are whole yen. */
  datatype PortalProduct = PortalProduct(id: string, name: string, price: nat, currency: string)

  /** The portal's fixed product list. */
  function PortalProducts(): seq<PortalProduct>
  {
    [ PortalProduct("PKI-20", "PKI-20", 17000, "JPY"),
      PortalProduct("PKA-20", "PKA-20", 20000, "JPY"),
      PortalProduct("GFH-12", "GFH-12", 10000, "JPY") ]
  }

  /** `products.find(p => p.id === id)` over a product list. */
  function FindIn(ps: seq<PortalProduct>, id: string): (r: Option<PortalProduct>)
    ensures r.None? <==> forall p | p in ps :: p.id != id
    ensures r.Some? ==> r.value in ps && r.value.id == id
    ensures r.Some? ==> exists i | 0 <= i < |ps| :: ps[i] == r.value && forall k | 0 <= k < i :: ps[k].id != id
  {
    if ps == [] then None
    else if ps[0].id == id then Some(ps[0])
    else FindIn(ps[1..], id)
  }

  function FindProduct(id: string): Option<PortalProduct>
  {
    FindIn(PortalProducts(), id)
  }

  /** Every product of the list is found under its own id, and only those ids are. */
  lemma ProductsAreFound(id: string)
    ensures FindProduct(id).Some? <==> id in {"PKI-20", "PKA-20", "GFH-12"}
    ensures FindProduct(id).Some? ==> FindProduct(id).value.currency == "JPY"
  {
    var ps := PortalProducts();
    if id !in {"PKI-20", "PKA-20", "GFH-12"} {
      assert forall p | p in ps :: p.id != id;
    }
  }

  /** What `quantity` units of the product `id` add to the total: 0 for an unknown id. */
  function Worth(id: string, quantity: int): int
  {
    match FindProduct(id)
    case Some(p) => p.price * quantity
    case None => 0
  }

  /** `calculateTotal()`: the sum of price × quantity over the cart's entries. */
  function Total(cart: Cart): (r: int)
    ensures cart == [] ==> r == 0
  {
    if cart == [] then 0 else Worth(cart[0].id, cart[0].qty) + Total(cart[1..])
  }

  lemma {:induction false} TotalOfConcat(a: Cart, b: Cart)
    ensures Total(a + b) == Total(a) + Total(b)
  {
    if a == [] {
      assert a + b == b;
    } else {
      assert (a + b)[1..] == a[1..] + b;
      TotalOfConcat(a[1..], b);
    }
  }

  /** A cart without negative quantities is worth at least 0. */
  lemma {:induction false} TotalNonNegative(cart: Cart)
    requires NonNegative(cart)
    ensures Total(cart) >= 0
  {
    if cart != [] {
      assert cart[0] in cart;
      assert NonNegative(cart[1..]) by {
        forall e | e in cart[1..] ensures e.qty >= 0 {
          assert e in cart;
        }
      }
      TotalNonNegative(cart[1..]);
      var q := cart[0].qty;
      match FindProduct(cart[0].id)
      case Some(pr) =>
        assert pr.price * q >= 0;
      case None =>
    }
  }

  /**
   * Storing `q` under `id` changes the total by the worth of the new quantity
   * less that of the quantity it replaces; in particular an unknown id changes
   * nothing.
   */
  lemma {:induction false} TotalAfterPut(cart: Cart, id: string, q: int)
    ensures Total(Put(cart, id, q)) ==
      Total(cart) - (match Get(cart, id) case Some(o) => Worth(id, o) case None => 0) + Worth(id, q)
  {
    if cart != [] && cart[0].id != id {
      var r := Put(cart, id, q);
      assert r[0] == cart[0] && r[1..] == Put(cart[1..], id, q);
      TotalAfterPut(cart[1..], id, q);
    }
  }

  /** Changing the quantity of an id that is not a product leaves the total as it is. */
  lemma UnknownIdAddsNothing(cart: Cart, id: string, q: int)
    requires FindProduct(id).None?
    ensures Total(QuantityChanged(cart, id, q)) == Total(cart)
  {
    if q >= 0 {
      TotalAfterPut(cart, id, q);
    }
  }

  /** Entries with quantity 0 add nothing: the total of the positive entries is the total. */
  lemma {:induction false} TotalOfPositive(cart: Cart)
    requires NonNegative(cart)
    ensures Total(Positive(cart)) == Total(cart)
  {
    if cart != [] {
      assert cart[0] in cart;
      assert NonNegative(cart[1..]) by {
        forall e | e in cart[1..] ensures e.qty >= 0 {
          assert e in cart;
        }
      }
      TotalOfPositive(cart[1..]);
      var head := if cart[0].qty > 0 then [cart[0]] else [];
      assert Positive(cart) == head + Positive(cart[1..]);
      TotalOfConcat(head, Positive(cart[1..]));
      if cart[0].qty == 0 {
        assert Worth(cart[0].id, 0) == 0;
      }
    }
  }

  /**
   * `parseInt(e.target.value) || 0`: the quantity an edit of a quantity input
   * passes on. NaN, 0 and -0 are all falsy, so they become 0.
   */
  function QuantityInput(value: string): int
  {
    match ParseInt(value)
    case NaN => 0
    case Finite(v) => v.Floor
  }

  /** Input with no digit after the optional sign is read as 0. */
  lemma NonNumericInputIsZero(value: string)
    requires !StartsInteger(value)
    ensures QuantityInput(value) == 0
  {
    ParseIntNaN(value);
  }

  /** A numeral is read as its value, a negative numeral as its (negative) value. */
  lemma NumeralInput(n: nat)
    ensures QuantityInput(NatToString(n)) == n
    ensures QuantityInput("-" + NatToString(n)) == -(n as int)
  {
    ParseIntOfNumeral(n);
    assert (n as real).Floor == n;
    assert -(n as real) == (-(n as int)) as real;
  }

  /** An order line: the product found for the entry's id (if any) and the quantity. */
  datatype OrderLine = OrderLine(product: Option<PortalProduct>, quantity: int)

  /** An order of the history; `date` is the submission time in milliseconds. */
  datatype Order = Order(orderNumber: string, date: int, products: seq<OrderLine>, total: int, status: string)

  /** `.map(([productId, quantity]) => ({ product, quantity }))`. */
  function Lines(entries: Cart): (r: seq<OrderLine>)
    ensures |r| == |entries|
    ensures forall i | 0 <= i < |r| ::
      r[i].quantity == entries[i].qty && r[i].product == FindProduct(entries[i].id)
  {
    if entries == [] then [] else [OrderLine(FindProduct(entries[0].id), entries[0].qty)] + Lines(entries[1..])
  }

  /** What a line is worth: price × quantity when its product is known, else 0. */
  function LineValue(line: OrderLine): int
  {
    match line.product
    case Some(p) => p.price * line.quantity
    case None => 0
  }

  /** What the lines of an order are worth. */
  function LinesValue(lines: seq<OrderLine>): int
  {
    if lines == [] then 0 else LineValue(lines[0]) + LinesValue(lines[1..])
  }

  lemma {:induction false} LinesValueIsTotal(entries: Cart)
    ensures LinesValue(Lines(entries)) == Total(entries)
  {
    if entries != [] {
      assert Lines(entries)[1..] == Lines(entries[1..]);
      LinesValueIsTotal(entries[1..]);
    }
  }

  /** `SO-${Date.now()}`. */
  function OrderNumber(now: nat): string
  {
    "SO-" + NatToString(now)
  }

  /** Orders submitted at different milliseconds get different numbers. */
  lemma OrderNumbersDistinct(a: nat, b: nat)
    requires a != b
    ensures OrderNumber(a) != OrderNumber(b)
  {
    if OrderNumber(a) == OrderNumber(b) {
      assert NatToString(a) == OrderNumber(a)[3..];
      assert NatToString(b) == OrderNumber(b)[3..];
      DigitsOfNat(a);
      DigitsOfNat(b);
    }
  }

  /**
   * The order `handleSubmitOrder` builds at time `now`: the cart's positive
   * entries in cart order, the cart's total and status "Pending". Every line
   * comes from an entry of the cart with a positive quantity.
   */
  function NewOrder(cart: Cart, now: nat): (o: Order)
    ensures o.orderNumber == OrderNumber(now) && o.date == now
    ensures o.total == Total(cart) && o.status == "Pending"
    ensures |o.products| == |Positive(cart)|
    ensures forall i | 0 <= i < |o.products| ::
      o.products[i].product == FindProduct(Positive(cart)[i].id)
    ensures forall i | 0 <= i < |o.products| ::
      o.products[i].quantity > 0 && Entry(Positive(cart)[i].id, o.products[i].quantity) in cart
  {
    var lines := Lines(Positive(cart));
    assert forall i | 0 <= i < |lines| :: Positive(cart)[i] in Positive(cart);
    Order(OrderNumber(now), now, lines, Total(cart), "Pending")
  }

  /** An order's total is what its lines are worth, and never negative. */
  lemma OrderTotalIsItsValue(cart: Cart, now: nat)
    requires NonNegative(cart)
    ensures NewOrder(cart, now).total == LinesValue(NewOrder(cart, now).products)
    ensures NewOrder(cart, now).total >= 0
  {
    LinesValueIsTotal(Positive(cart));
    TotalOfPositive(cart);
    TotalNonNegative(cart);
  }

  /** The portal's state. */
  class Portal {
    var isLoggedIn: bool
    var showPassword: bool
    var email: string
    var password: string
    var orderItems: Cart
    var orderHistory: seq<Order>

    /** The cart is an object: distinct keys, and no negative quantity is ever stored. */
    predicate Valid()
      reads this
    {
      DistinctIds(orderItems) && NonNegative(orderItems)
    }

    /** Logged out, an empty login form, an empty cart and no history. */
    constructor ()
      ensures Valid()
      ensures !isLoggedIn && !showPassword && email == "" && password == ""
      ensures orderItems == [] && orderHistory == []
    {
      isLoggedIn := false;
      showPassword := false;
      email := "";
      password := "";
      orderItems := [];
      orderHistory := [];
    }

    /** Typing in the e-mail field. */
    method EditEmail(value: string)
      modifies this
      ensures email == value
      ensures isLoggedIn == old(isLoggedIn) && showPassword == old(showPassword) && password == old(password)
      ensures orderItems == old(orderItems) && orderHistory == old(orderHistory)
    {
      email := value;
    }

    /** Typing in the password field. */
    method EditPassword(value: string)
      modifies this
      ensures password == value
      ensures isLoggedIn == old(isLoggedIn) && showPassword == old(showPassword) && email == old(email)
      ensures orderItems == old(orderItems) && orderHistory == old(orderHistory)
    {
      password := value;
    }

    /** The eye button: shows or hides the password. */
    method TogglePassword()
      modifies this
      ensures showPassword == !old(showPassword)
      ensures isLoggedIn == old(isLoggedIn) && email == old(email) && password == old(password)
      ensures orderItems == old(orderItems) && orderHistory == old(orderHistory)
    {
      showPassword := !showPassword;
    }

    /**
     * `handleLogin`: the mock check succeeds exactly when both fields are
     * non-empty; a failed attempt changes nothing.
     */
    method HandleLogin() returns (success: bool)
      modifies this
      ensures success <==> email != "" && password != ""
      ensures isLoggedIn == (old(isLoggedIn) || success)
      ensures email == old(email) && password == old(password) && showPassword == old(showPassword)
      ensures orderItems == old(orderItems) && orderHistory == old(orderHistory)
    {
      success := email != "" && password != "";
      if success {
        isLoggedIn := true;
      }
    }

    /** `handleQuantityChange(productId, quantity)`: negative quantities are ignored. */
    method HandleQuantityChange(productId: string, quantity: int)
      requires Valid()
      modifies this
      ensures Valid()
      ensures orderItems == QuantityChanged(old(orderItems), productId, quantity)
      ensures isLoggedIn == old(isLoggedIn) && showPassword == old(showPassword)
      ensures email == old(email) && password == old(password) && orderHistory == old(orderHistory)
    {
      if quantity >= 0 {
        orderItems := Put(orderItems, productId, quantity);
      }
    }

    /** An edit of the quantity input of `productId` holding `value`. */
    method EditQuantity(productId: string, value: string)
      requires Valid()
      modifies this
      ensures Valid()
      ensures orderItems == QuantityChanged(old(orderItems), productId, QuantityInput(value))
      ensures isLoggedIn == old(isLoggedIn) && showPassword == old(showPassword)
      ensures email == old(email) && password == old(password) && orderHistory == old(orderHistory)
    {
      HandleQuantityChange(productId, QuantityInput(value));
    }

    /**
     * `handleSubmitOrder` at time `now`: with no quantity above 0 nothing
     * changes; otherwise exactly one new order goes to the head of the history
     * and the cart is emptied.
     */
    method HandleSubmitOrder(now: nat) returns (submitted: bool)
      requires Valid()
      modifies this
      ensures Valid()
      ensures submitted <==> exists e | e in old(orderItems) :: e.qty > 0
      ensures !submitted ==> orderItems == old(orderItems) && orderHistory == old(orderHistory)
      ensures submitted ==> orderItems == [] && orderHistory == [NewOrder(old(orderItems), now)] + old(orderHistory)
      ensures isLoggedIn == old(isLoggedIn) && showPassword == old(showPassword)
      ensures email == old(email) && password == old(password)
    {
      var selected := Positive(orderItems);
      if |selected| == 0 {
        assert forall e | e in orderItems :: e.qty <= 0;
        return false;
      }
      assert selected[0] in orderItems;
      orderHistory := [NewOrder(orderItems, now)] + orderHistory;
      orderItems := [];
      submitted := true;
    }

    /** `handleLogout`: logged out, the form and the cart cleared, the history kept. */
    method HandleLogout()
      modifies this
      ensures Valid()
      ensures !isLoggedIn && email == "" && password == "" && orderItems == []
      ensures orderHistory == old(orderHistory) && showPassword == old(showPassword)
    {
      isLoggedIn := false;
      email := "";
      password := "";
      orderItems := [];
    }
  }
}
