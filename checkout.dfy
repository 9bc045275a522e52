/** pages/Checkout.tsx: the three-step checkout (1 shipping address, 2 order summary,
    3 payment). It prices the bag at the catalog base price of each line, places the order
    when the simulated gateway succeeds, and sends an empty bag back to the shop except on
    the payment step. */
module CheckoutPage {
  import opened Wrappers
  import opened Types
  import opened Text
  import opened Seqs
  import opened Catalog
  import opened CartLedger
  import opened Pricing
  import opened App
  import opened ProductDetail

  /** The bill on this page: its subtotal uses `item.price`, the base price of a 250g pack,
      not the price the line was locked at. */
  function CheckoutTotals(items: seq<CartItem>): (t: Totals)
    ensures t.subtotal == BaseValue(items)
    ensures t.shipping == if t.subtotal > FreeShippingAbove then 0.0 else ShippingFee
    ensures 100.0 * t.gst == 18.0 * t.subtotal && t.total == t.subtotal + t.shipping + t.gst
  {
    Quote(BaseValue(items))
  }

  /** When every line is locked at its base price, this page and the bag page bill the same. */
  lemma {:induction false} BillsAgreeAtBasePrice(items: seq<CartItem>)
    requires forall i :: 0 <= i < |items| ==> items[i].selectedPrice == items[i].tea.price
    ensures CheckoutTotals(items) == Quote(SelectedValue(items))
  {
    SumRealCongruent(items, LineBaseValue, LineValue);
  }

  /** When every line is locked at no less than its base price (every pack price is), this page's
      subtotal is at most the bag page's. */
  lemma {:induction false} CheckoutSubtotalAtMostBag(items: seq<CartItem>)
    requires forall i :: 0 <= i < |items| ==> items[i].selectedPrice >= items[i].tea.price && items[i].quantity >= 0
    ensures CheckoutTotals(items).subtotal <= SelectedValue(items)
  {
    forall i | 0 <= i < |items| ensures LineBaseValue(items[i]) <= LineValue(items[i]) {
      var q := items[i].quantity as real;
      assert items[i].tea.price * q <= items[i].selectedPrice * q;
    }
    SumRealMonotone(items, LineBaseValue, LineValue);
  }

  /** One 1kg pack of Dragon Well: the bag page bills ₹5096.60 of tea, this page ₹1499. */
  lemma {:induction false} KiloPackExample()
    ensures PackPrice(Some(DragonWell), Pack1kg) == 5096.6
    ensures SelectedValue([CartItem(DragonWell, 1, Pack1kg, 5096.6)]) == 5096.6
    ensures CheckoutTotals([CartItem(DragonWell, 1, Pack1kg, 5096.6)]).subtotal == 1499.0
  {
    var items := [CartItem(DragonWell, 1, Pack1kg, 5096.6)];
    assert items[1..] == [];
    assert SumReal(items, LineValue) == LineValue(items[0]) + SumReal(items[1..], LineValue);
    assert SumReal(items, LineBaseValue) == LineBaseValue(items[0]) + SumReal(items[1..], LineBaseValue);
  }

  /** `items.length === 0 && step !== 3`: the page navigates to the shop and renders nothing. */
  predicate RedirectsToShop(items: seq<CartItem>, step: int) {
    |items| == 0 && step != 3
  }

  type Step = s: int | 1 <= s <= 3 witness 1

  /** The inputs of the address form; the `state` field has none. */
  datatype AddressField = FullName | Mobile | Email | Street | City | Pincode

  const EmptyAddress: ShippingAddress := ShippingAddress("", "", "", "", "", "", "", Home)

  const GatewayError: string := "Payment gateway is temporarily unavailable. Please try again."

  /** The chance, out of 1, that the simulated gateway fails. */
  const FailureRate: real := 0.1

  /** The address component an input is bound to (`value={address.…}`). */
  function Field(a: ShippingAddress, field: AddressField): string {
    match field
    case FullName => a.fullName
    case Mobile => a.mobile
    case Email => a.email
    case Street => a.address
    case City => a.city
    case Pincode => a.pincode
  }

  /** `setAddress({...address, <field>: e.target.value})`: the edited input takes the value and
      everything else is kept. */
  function WithField(a: ShippingAddress, field: AddressField, value: string): (r: ShippingAddress)
    ensures Field(r, field) == value
    ensures forall f :: f != field ==> Field(r, f) == Field(a, f)
    ensures r.kind == a.kind && r.state == a.state
  {
    match field
    case FullName => a.(fullName := value)
    case Mobile => a.(mobile := value)
    case Email => a.(email := value)
    case Street => a.(address := value)
    case City => a.(city := value)
    case Pincode => a.(pincode := value)
  }

  /** The `required` attribute of the six inputs: the form submits only when none is empty. */
  predicate RequiredFieldsFilled(a: ShippingAddress) {
    a.fullName != "" && a.mobile != "" && a.email != "" && a.address != "" && a.city != "" && a.pincode != ""
  }

  /** Filling every input makes the form submittable, whatever order they are filled in. */
  lemma {:induction false} FillingEveryFieldEnables(a: ShippingAddress, n: string, m: string, e: string, s: string, c: string, p: string)
    requires n != "" && m != "" && e != "" && s != "" && c != "" && p != ""
    ensures RequiredFieldsFilled(WithField(WithField(WithField(WithField(WithField(WithField(a,
      FullName, n), Mobile, m), Email, e), Street, s), City, c), Pincode, p))
  {
  }

  /** `Math.floor(Math.random() * 900000) + 100000` for a draw in [0, 1): a six-digit number. */
  function OrderNumber(draw: real): (n: int)
    requires 0.0 <= draw < 1.0
    ensures 100000 <= n <= 999999
  {
    (draw * 900000.0).Floor + 100000
  }

  /** The order id `VL-` and the six digits of the order number. */
  function OrderId(draw: real): (id: string)
    requires 0.0 <= draw < 1.0
    ensures |id| == 9 && StartsWith(id, "VL-")
    ensures AllDigits(id[3..]) && DigitsValue(id[3..]) == OrderNumber(draw)
  {
    var n := OrderNumber(draw);
    SixDigitRendering(n);
    DecimalRoundTrip(n);
    assert ("VL-" + DecimalString(n))[3..] == DecimalString(n);
    "VL-" + DecimalString(n)
  }

  /** The order `handlePayment` places: a copy of the bag, this page's bill, the address and
      the payment method, with status Processing. */
  function BuildOrder(items: seq<CartItem>, idDraw: real, date: string, address: ShippingAddress, pay: PaymentMethod): (o: Order)
    requires 0.0 <= idDraw < 1.0
    ensures o.items == items && o.address == address && o.paymentMethod == pay && o.date == date
    ensures o.status == Processing && o.id == OrderId(idDraw)
    ensures Totals(o.subtotal, o.shipping, o.gst, o.total) == CheckoutTotals(items)
  {
    var t := CheckoutTotals(items);
    Order(OrderId(idDraw), date, items, t.subtotal, t.gst, t.shipping, t.total, address, pay, Processing)
  }

  /** A bag of non-negative prices and quantities has a non-negative base-price value. */
  lemma {:induction false} BaseValueNonNegative(items: seq<CartItem>)
    requires forall i :: 0 <= i < |items| ==> items[i].tea.price >= 0.0 && items[i].quantity >= 0
    ensures BaseValue(items) >= 0.0
    decreases |items|
  {
    if items != [] {
      BaseValueNonNegative(items[1..]);
      assert LineBaseValue(items[0]) >= 0.0;
    }
  }

  /** A placed order's bill adds up, and on such a bag it has a non-negative subtotal and so
      never takes points away. */
  lemma {:induction false} PlacedOrderBill(items: seq<CartItem>, idDraw: real, date: string, address: ShippingAddress, pay: PaymentMethod)
    requires 0.0 <= idDraw < 1.0
    requires forall i :: 0 <= i < |items| ==> items[i].tea.price >= 0.0 && items[i].quantity >= 0
    ensures BuildOrder(items, idDraw, date, address, pay).total ==
      BuildOrder(items, idDraw, date, address, pay).subtotal + BuildOrder(items, idDraw, date, address, pay).shipping + BuildOrder(items, idDraw, date, address, pay).gst
    ensures BuildOrder(items, idDraw, date, address, pay).subtotal >= 0.0
    ensures LoyaltyAward(BuildOrder(items, idDraw, date, address, pay).subtotal) >= 0
  {
    BaseValueNonNegative(items);
  }

  class Checkout {
    var step: Step
    var error: Option<string>
    var address: ShippingAddress
    var paymentMethod: PaymentMethod

    /** The address form has no input for `state`, so it stays empty. */
    ghost predicate Valid()
      reads this
    {
      address.state == ""
    }

    /** The page as it mounts: step 1, no error, an empty Home address, UPI selected. */
    constructor()
      ensures step == 1 && error.None? && address == EmptyAddress && paymentMethod == UPI && Valid()
    {
      step := 1;
      error := None;
      address := EmptyAddress;
      paymentMethod := UPI;
    }

    /** Typing into one of the address inputs. */
    method EditAddress(field: AddressField, value: string)
      requires step == 1 && Valid()
      modifies this`address
      ensures address == WithField(old(address), field, value) && Valid()
    {
      address := WithField(address, field, value);
    }

    /** The Home / Office buttons. */
    method SetAddressType(kind: AddressType)
      requires step == 1
      modifies this`address
      ensures address == old(address).(kind := kind)
    {
      address := address.(kind := kind);
    }

    /** "Continue to Summary": the browser submits the form, and `handleAddressSubmit` moves to
        step 2, only when every required input is filled. */
    method SubmitAddress()
      requires step == 1
      modifies this`step
      ensures step == if RequiredFieldsFilled(address) then 2 else 1
    {
      if RequiredFieldsFilled(address) {
        step := 2;
      }
    }

    /** Step 2's "Back". */
    method BackToAddress()
      requires step == 2
      modifies this`step
      ensures step == 1
    {
      step := 1;
    }

    /** "Proceed to Payment". */
    method ProceedToPayment()
      requires step == 2
      modifies this`step
      ensures step == 3
    {
      step := 3;
    }

    /** Step 3's "Back". */
    method BackToSummary()
      requires step == 3
      modifies this`step
      ensures step == 2
    {
      step := 2;
    }

    /** One of the five payment-method buttons. */
    method SelectPaymentMethod(m: PaymentMethod)
      requires step == 3
      modifies this`paymentMethod
      ensures paymentMethod == m
    {
      paymentMethod := m;
    }

    /** "Pay": `handlePayment` with its two `Math.random()` draws and the date passed in. A failing
        draw (below 0.1) shows the gateway error and changes nothing else. Otherwise the order
        for the current bag is placed first in the order list, earns its points, the bag is
        emptied, and the page stays on step 3, so it does not redirect to the shop. */
    method HandlePayment(store: Store, failDraw: real, idDraw: real, date: string) returns (placed: Option<Order>)
      requires step == 3 && store.Valid()
      requires 0.0 <= failDraw < 1.0 && 0.0 <= idDraw < 1.0
      modifies this`error, store`cart, store`orders, store`points
      ensures failDraw < FailureRate ==>
        placed.None? && error == Some(GatewayError) &&
        store.cart == old(store.cart) && store.orders == old(store.orders) && store.points == old(store.points)
      ensures failDraw >= FailureRate ==>
        placed == Some(BuildOrder(old(store.cart), idDraw, date, address, paymentMethod)) && error.None? &&
        store.cart == [] && store.orders == [placed.value] + old(store.orders) &&
        store.points == old(store.points) + LoyaltyAward(placed.value.subtotal)
      ensures store.Valid() && !RedirectsToShop(store.cart, step)
    {
      error := None;
      if failDraw < FailureRate {
        error := Some(GatewayError);
        return None;
      }
      var order := BuildOrder(store.cart, idDraw, date, address, paymentMethod);
      store.AddOrder(order);
      store.ClearCart();
      placed := Some(order);
    }
  }
}
