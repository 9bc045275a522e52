/** App.tsx: the state the storefront keeps at the top of its component tree (login status,
    user, cart, orders, loyalty points), the callbacks it hands to the pages, the derived
    `cartCount`, and the floating bag bar. */
module App {
  import opened Wrappers
  import opened Types
  import opened Text
  import opened CartLedger

  /** The loyalty points the user starts with. */
  const InitialPoints: int := 1250

  /** `Math.floor(subtotal / 10)`: one point per full ₹10 of subtotal. */
  function LoyaltyAward(subtotal: real): (r: int)
    ensures 10.0 * r as real <= subtotal < 10.0 * r as real + 10.0
    ensures subtotal >= 0.0 ==> r >= 0
  {
    (subtotal / 10.0).Floor
  }

  /** The user id `USER-` followed by the last five characters of the mobile number. */
  function UserId(mobile: string): (r: string)
    ensures StartsWith(r, "USER-")
    ensures |r| == 5 + (if |mobile| <= 5 then |mobile| else 5)
    ensures r[5..] == mobile[|mobile| - (|r| - 5)..]
  {
    "USER-" + TakeLast(mobile, 5)
  }

  /** `FloatingCartBar`: nothing when the bag holds no packs or the path is the cart or the
      checkout; otherwise the pack count and the bag's value at locked prices. */
  function CartBar(items: seq<CartItem>, pathname: string): (r: Option<(int, real)>)
    ensures r.Some? ==> r.value == (ItemCount(items), SelectedValue(items))
  {
    if ItemCount(items) == 0 || pathname == "/cart" || pathname == "/checkout" then None
    else Some((ItemCount(items), SelectedValue(items)))
  }

  /** On a well-formed cart the bar shows exactly when the cart has a line and the user is on
      neither the cart nor the checkout page. */
  lemma {:induction false} CartBarVisibility(items: seq<CartItem>, pathname: string)
    requires WellFormed(items)
    ensures CartBar(items, pathname).Some? <==> items != [] && pathname != "/cart" && pathname != "/checkout"
  {
    ItemCountCoversLines(items);
  }

  class Store {
    var isLoggedIn: bool
    var mobile: Option<string>
    var userId: Option<string>
    var cart: seq<CartItem>
    var orders: seq<Order>
    var points: int

    ghost predicate Valid()
      reads this
    {
      WellFormed(cart)
    }

    /** The state on a first visit: logged out, empty cart, no orders, 1250 points. */
    constructor()
      ensures Valid()
      ensures !isLoggedIn && mobile.None? && userId.None?
      ensures cart == [] && orders == [] && points == InitialPoints
    {
      isLoggedIn := false;
      mobile := None;
      userId := None;
      cart := [];
      orders := [];
      points := InitialPoints;
    }

    /** `cartCount`: the number of packs in the bag. */
    function CartCount(): (n: int)
      reads this
      ensures n == ItemCount(cart)
      ensures Valid() ==> n >= |cart| && (n == 0 <==> cart == [])
    {
      ItemCountCoversLines(cart);
      ItemCount(cart)
    }

    /** `handleLogin`: records the mobile number and derives the user id from it. */
    method Login(m: string)
      modifies this`isLoggedIn, this`mobile, this`userId
      ensures isLoggedIn && mobile == Some(m) && userId == Some(UserId(m))
    {
      isLoggedIn := true;
      mobile := Some(m);
      userId := Some(UserId(m));
    }

    /** `handleLogout`: logs out and empties the cart; the user record is kept. */
    method Logout()
      modifies this`isLoggedIn, this`cart
      ensures !isLoggedIn && cart == [] && Valid()
    {
      isLoggedIn := false;
      cart := [];
    }

    /** `addToCart`; the pack size defaults to 250g and the price to the tea's own. */
    method AddToCart(tea: Tea, size: PackSize := Pack250g, price: Option<real> := None)
      requires Valid()
      modifies this`cart
      ensures cart == AddLine(old(cart), tea, size, price) && Valid()
      ensures ItemCount(cart) == ItemCount(old(cart)) + 1
      ensures SelectedValue(cart) == SelectedValue(old(cart)) + UnitPriceFor(old(cart), tea, size, price)
    {
      AddLineWellFormed(cart, tea, size, price);
      AddLineTotals(cart, tea, size, price);
      cart := AddLine(cart, tea, size, price);
    }

    /** `removeFromCart`. */
    method RemoveFromCart(id: string, size: Option<PackSize>)
      requires Valid()
      modifies this`cart
      ensures cart == RemoveLines(old(cart), id, size) && Valid()
    {
      RemoveLinesWellFormed(cart, id, size);
      cart := RemoveLines(cart, id, size);
    }

    /** `updateQuantity`. */
    method UpdateQuantity(id: string, delta: int, size: Option<PackSize>)
      requires Valid()
      modifies this`cart
      ensures cart == CartLedger.UpdateQuantity(old(cart), id, delta, size) && Valid()
    {
      UpdateQuantityWellFormed(cart, id, delta, size);
      cart := CartLedger.UpdateQuantity(cart, id, delta, size);
    }

    /** `clearCart`. */
    method ClearCart()
      modifies this`cart
      ensures cart == [] && Valid()
    {
      cart := [];
    }

    /** `addOrder`: the newest order first, and the loyalty award for its subtotal. */
    method AddOrder(order: Order)
      modifies this`orders, this`points
      ensures orders == [order] + old(orders)
      ensures points == old(points) + LoyaltyAward(order.subtotal)
    {
      orders := [order] + orders;
      points := points + LoyaltyAward(order.subtotal);
    }
  }
}
