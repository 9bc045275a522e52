/** pages/Cart.tsx: the bag page. It prices the bag at the locked per-line prices, shows an
    empty-bag view when there are no lines, and offers -, + and Delete on each line. */
module CartPage {
  import opened Wrappers
  import opened Types
  import opened Seqs
  import opened CartLedger
  import opened Pricing

  datatype View =
    | EmptyBag
    | Bag(lines: seq<CartItem>, totals: Totals)

  /** What the page shows for the cart it is given. */
  function Render(items: seq<CartItem>): (v: View)
    ensures v.EmptyBag? <==> items == []
    ensures v.Bag? ==> v.lines == items && v.totals == Quote(SelectedValue(items))
  {
    if |items| == 0 then EmptyBag else Bag(items, Quote(SelectedValue(items)))
  }

  /** The bag page and the floating bar agree: on a well-formed cart the empty view appears
      exactly when the bag holds no packs. */
  lemma {:induction false} EmptyViewIffNoPacks(items: seq<CartItem>)
    requires WellFormed(items)
    ensures Render(items).EmptyBag? <==> ItemCount(items) == 0
  {
    ItemCountCoversLines(items);
  }

  /** The three buttons of a line, as the ledger operations they dispatch. */
  function MinusButton(item: CartItem): CartOp { UpdateOp(item.tea.id, -1, Some(item.selectedSize)) }
  function PlusButton(item: CartItem): CartOp { UpdateOp(item.tea.id, 1, Some(item.selectedSize)) }
  function DeleteButton(item: CartItem): CartOp { RemoveOp(item.tea.id, Some(item.selectedSize)) }

  /** `+` adds one pack to its own line and to the count. */
  lemma {:induction false} PlusButtonEffect(cart: seq<CartItem>, k: nat)
    requires WellFormed(cart) && k < |cart|
    ensures Apply(cart, PlusButton(cart[k])) == cart[k := cart[k].(quantity := cart[k].quantity + 1)]
    ensures ItemCount(Apply(cart, PlusButton(cart[k]))) == ItemCount(cart) + 1
  {
    UpdateQuantityPresent(cart, cart[k].tea.id, 1, Some(cart[k].selectedSize), k);
    SumIntUpdate(cart, k, cart[k].(quantity := cart[k].quantity + 1), LineQuantity);
  }

  /** `-` takes one pack off its line, and deletes the line when it held a single pack. */
  lemma {:induction false} MinusButtonEffect(cart: seq<CartItem>, k: nat)
    requires WellFormed(cart) && k < |cart|
    ensures cart[k].quantity > 1 ==> Apply(cart, MinusButton(cart[k])) == cart[k := cart[k].(quantity := cart[k].quantity - 1)]
    ensures cart[k].quantity == 1 ==> Apply(cart, MinusButton(cart[k])) == cart[..k] + cart[k + 1..]
    ensures ItemCount(Apply(cart, MinusButton(cart[k]))) == ItemCount(cart) - 1
  {
    var r := Apply(cart, MinusButton(cart[k]));
    assert r == CartLedger.UpdateQuantity(cart, cart[k].tea.id, -1, Some(cart[k].selectedSize));
    UpdateQuantityPresent(cart, cart[k].tea.id, -1, Some(cart[k].selectedSize), k);
    if cart[k].quantity > 1 {
      var x := cart[k].(quantity := cart[k].quantity - 1);
      assert r == cart[k := x];
      SumIntUpdate(cart, k, x, LineQuantity);
    } else {
      assert r == cart[..k] + cart[k + 1..];
      SumIntDelete(cart, k, LineQuantity);
    }
  }

  /** `Delete` removes the whole line and all its packs. */
  lemma {:induction false} DeleteButtonEffect(cart: seq<CartItem>, k: nat)
    requires WellFormed(cart) && k < |cart|
    ensures Apply(cart, DeleteButton(cart[k])) == cart[..k] + cart[k + 1..]
    ensures ItemCount(Apply(cart, DeleteButton(cart[k]))) == ItemCount(cart) - cart[k].quantity
  {
    RemoveLinesEffect(cart, cart[k].tea.id, Some(cart[k].selectedSize));
    SumIntDelete(cart, k, LineQuantity);
  }
}
