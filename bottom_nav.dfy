/** components/BottomNav.tsx: the four-tab bar at the foot of every page, with the active tab
    highlighted and a pack-count badge on the Cart tab. */
module BottomNav {
  import opened Wrappers
  import opened Text

  datatype NavItem = NavItem(path: string, title: string, isCart: bool)

  /** `navItems`: Home, Shop, Cart (which carries the badge) and Orders, in that order. */
  const NavItems: seq<NavItem> := [
    NavItem("/", "Home", false),
    NavItem("/shop", "Shop", false),
    NavItem("/cart", "Cart", true),
    NavItem("/profile", "Orders", false)
  ]

  /** A tab is active on its own path; the Shop tab also on every product page. */
  predicate IsActive(item: NavItem, pathname: string) {
    pathname == item.path || (item.path == "/shop" && StartsWith(pathname, "/product"))
  }

  /** The `cartCount = 0` default of the optional prop. */
  function CartCountProp(prop: Option<int>): (n: int)
    ensures prop.None? ==> n == 0
    ensures prop.Some? ==> n == prop.value
  {
    prop.GetOr(0)
  }

  /** The badge text: only on the Cart tab and only for a positive count; "99+" above 99,
      otherwise the count in decimal. */
  function Badge(item: NavItem, count: int): (r: Option<string>)
    ensures r.Some? <==> item.isCart && count > 0
    ensures r.Some? && count > 99 ==> r.value == "99+"
    ensures r.Some? && count <= 99 ==>
      1 <= |r.value| <= 2 && AllDigits(r.value) && r.value[0] != '0' && DigitsValue(r.value) == count
  {
    if !(item.isCart && count > 0) then None
    else if count > 99 then Some("99+")
    else
      DecimalLength(count, 2);
      DecimalRoundTrip(count);
      Some(DecimalString(count))
  }

  /** No tab path is itself a product page, and the tab paths differ from each other. */
  lemma {:induction false} TabPaths(pathname: string)
    ensures StartsWith(pathname, "/product") ==>
      pathname != "/" && pathname != "/shop" && pathname != "/cart" && pathname != "/profile"
    ensures forall i, j :: 0 <= i < j < |NavItems| ==> NavItems[i].path != NavItems[j].path
  {
    if StartsWith(pathname, "/product") {
      assert pathname[1] == 'p' && pathname[4] == 'd';
      assert "/profile"[4] == 'f';
    }
    assert "/shop"[1] != "/cart"[1];
    assert "/shop"[1] != "/profile"[1] && "/cart"[1] != "/profile"[1];
  }

  /** Distinct tabs are never active together, and a product page highlights Shop alone. */
  lemma {:induction false} AtMostOneActive(pathname: string)
    ensures forall i, j :: 0 <= i < j < |NavItems| ==> !(IsActive(NavItems[i], pathname) && IsActive(NavItems[j], pathname))
    ensures StartsWith(pathname, "/product") ==>
      forall i :: 0 <= i < |NavItems| ==> (IsActive(NavItems[i], pathname) <==> i == 1)
  {
    TabPaths(pathname);
  }

  /** The checkout and the order confirmation pages highlight no tab. */
  lemma {:induction false} NoTabOnCheckout(pathname: string)
    requires pathname == "/checkout" || StartsWith(pathname, "/order-confirmation/")
    ensures forall i :: 0 <= i < |NavItems| ==> !IsActive(NavItems[i], pathname)
  {
    assert pathname[1] == 'c' || pathname[1] == 'o';
    assert |pathname| > 5;
    if pathname == "/checkout" {
      assert pathname[1] == 'c' && pathname[2] == 'h';
    }
  }

  /** Exactly one tab, Cart, can carry a badge. */
  lemma {:induction false} OnlyCartHasBadge(count: int)
    requires count > 0
    ensures forall i :: 0 <= i < |NavItems| ==> (Badge(NavItems[i], count).Some? <==> i == 2)
  {
  }
}
