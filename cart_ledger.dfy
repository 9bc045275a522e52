/** The cart ledger of App.tsx: the list transforms inside `addToCart`, `removeFromCart`,
    `updateQuantity` and `clearCart`, and the `reduce` sums over the cart.

    A cart is a sequence of lines keyed by (tea id, pack size). Two views are proved:
    the exact new sequence each operation produces on a well-formed cart (unique keys,
    every quantity at least 1), and the per-key view `QuantityOf`, under which every
    sequence of operations acts on each key like a counter (`KeyRun`). */
module CartLedger {
  import opened Wrappers
  import opened Types
  import opened Seqs

  /** The key that identifies a cart line. */
  function Key(item: CartItem): (string, PackSize) {
    (item.tea.id, item.selectedSize)
  }

  /** `item.id === id && item.selectedSize === size`. The size parameter of `removeFromCart` and
      `updateQuantity` is optional; an omitted size (`None`) matches no line. */
  predicate Matches(item: CartItem, id: string, size: Option<PackSize>) {
    item.tea.id == id && size == Some(item.selectedSize)
  }

  ghost predicate UniqueKeys(cart: seq<CartItem>) {
    forall i, j :: 0 <= i < j < |cart| ==> Key(cart[i]) != Key(cart[j])
  }

  /** The ledger invariant: no two lines share a key, and every line holds at least one pack. */
  ghost predicate WellFormed(cart: seq<CartItem>) {
    UniqueKeys(cart) && forall i :: 0 <= i < |cart| ==> cart[i].quantity >= 1
  }

  /** `prev.find(...)`, as the position of the first matching line. */
  function FindLine(cart: seq<CartItem>, id: string, size: Option<PackSize>): (r: Option<nat>)
    ensures r.Some? ==> r.value < |cart| && Matches(cart[r.value], id, size)
    ensures r.Some? ==> forall j :: 0 <= j < r.value ==> !Matches(cart[j], id, size)
    ensures r.None? ==> forall j :: 0 <= j < |cart| ==> !Matches(cart[j], id, size)
    decreases |cart|
  {
    if cart == [] then None
    else if Matches(cart[0], id, size) then Some(0)
    else match FindLine(cart[1..], id, size)
      case Some(k) => Some(k + 1)
      case None => None
  }

  /** FindLine is determined by its contract: any position (or absence) that is the first match
      is the one it returns. */
  lemma {:induction false} FindLineIs(cart: seq<CartItem>, id: string, size: Option<PackSize>, r: Option<nat>)
    requires r.Some? ==> r.value < |cart| && Matches(cart[r.value], id, size)
    requires r.Some? ==> forall j :: 0 <= j < r.value ==> !Matches(cart[j], id, size)
    requires r.None? ==> forall j :: 0 <= j < |cart| ==> !Matches(cart[j], id, size)
    ensures FindLine(cart, id, size) == r
  {
  }

  /** `price || tea.price`: the explicit price unless it is absent or 0, else the base price. */
  function SelectedPrice(tea: Tea, price: Option<real>): (p: real)
    ensures price.Some? && price.value != 0.0 ==> p == price.value
    ensures price.None? || price.value == 0.0 ==> p == tea.price
  {
    if price.Some? && price.value != 0.0 then price.value else tea.price
  }

  /** The `prev.map(...)` of `addToCart`: one more pack on every line with the key. */
  function Bump(cart: seq<CartItem>, id: string, size: PackSize): seq<CartItem> {
    seq(|cart|, i requires 0 <= i < |cart| =>
      if Matches(cart[i], id, Some(size)) then cart[i].(quantity := cart[i].quantity + 1) else cart[i])
  }

  /** The updater of `addToCart(tea, size, price)`. */
  function AddLine(cart: seq<CartItem>, tea: Tea, size: PackSize, price: Option<real>): (r: seq<CartItem>)
    ensures FindLine(r, tea.id, Some(size)).Some?
    ensures FindLine(cart, tea.id, Some(size)).Some? ==> |r| == |cart|
    ensures FindLine(cart, tea.id, Some(size)).None? ==> |r| == |cart| + 1
  {
    if FindLine(cart, tea.id, Some(size)).Some? then
      var r := Bump(cart, tea.id, size);
      assert Matches(r[FindLine(cart, tea.id, Some(size)).value], tea.id, Some(size));
      r
    else
      var r := cart + [CartItem(tea, 1, size, SelectedPrice(tea, price))];
      assert Matches(r[|cart|], tea.id, Some(size));
      r
  }

  /** A new key is appended as one pack at the selected price; an existing key gains exactly one
      pack on its own line, keeps its locked price, and no other line changes. */
  lemma {:induction false} AddLineEffect(cart: seq<CartItem>, tea: Tea, size: PackSize, price: Option<real>)
    requires UniqueKeys(cart)
    ensures FindLine(cart, tea.id, Some(size)).None? ==>
      AddLine(cart, tea, size, price) == cart + [CartItem(tea, 1, size, SelectedPrice(tea, price))]
    ensures forall k :: 0 <= k < |cart| && Key(cart[k]) == (tea.id, size) ==>
      AddLine(cart, tea, size, price) == cart[k := cart[k].(quantity := cart[k].quantity + 1)]
  {
    forall k | 0 <= k < |cart| && Key(cart[k]) == (tea.id, size)
      ensures AddLine(cart, tea, size, price) == cart[k := cart[k].(quantity := cart[k].quantity + 1)]
    {
      assert Matches(cart[k], tea.id, Some(size));
      var r := AddLine(cart, tea, size, price);
      assert r == Bump(cart, tea.id, size);
      forall i | 0 <= i < |cart| && i != k ensures r[i] == cart[i] {
        if i < k { assert Key(cart[i]) != Key(cart[k]); } else { assert Key(cart[k]) != Key(cart[i]); }
      }
    }
  }

  /** `prev.filter(item => !(item.id === id && item.selectedSize === size))`. */
  function NotMatching(id: string, size: Option<PackSize>): CartItem -> bool {
    item => !Matches(item, id, size)
  }

  /** The updater of `removeFromCart(id, size)`. */
  function RemoveLines(cart: seq<CartItem>, id: string, size: Option<PackSize>): (r: seq<CartItem>)
    ensures |r| <= |cart|
    ensures forall i :: 0 <= i < |r| ==> !Matches(r[i], id, size)
  {
    Filter(cart, NotMatching(id, size))
  }

  /** Removing an absent key (or passing no size) leaves the cart as it is; removing a present
      key deletes exactly its line and keeps the others in order. */
  lemma {:induction false} RemoveLinesEffect(cart: seq<CartItem>, id: string, size: Option<PackSize>)
    requires UniqueKeys(cart)
    ensures (forall i :: 0 <= i < |cart| ==> !Matches(cart[i], id, size)) ==> RemoveLines(cart, id, size) == cart
    ensures forall k :: 0 <= k < |cart| && Matches(cart[k], id, size) ==>
      RemoveLines(cart, id, size) == cart[..k] + cart[k + 1..]
  {
    var p := NotMatching(id, size);
    if forall i :: 0 <= i < |cart| ==> !Matches(cart[i], id, size) {
      FilterKeepsAll(cart, p);
    }
    forall k | 0 <= k < |cart| && Matches(cart[k], id, size)
      ensures RemoveLines(cart, id, size) == cart[..k] + cart[k + 1..]
    {
      forall i | 0 <= i < |cart| && i != k ensures p(cart[i]) {
        if i < k { assert Key(cart[i]) != Key(cart[k]); } else { assert Key(cart[k]) != Key(cart[i]); }
      }
      FilterDropsOne(cart, p, k);
    }
  }

  /** The `map` step of `updateQuantity`: `delta` added to every line with the key. */
  function Adjust(cart: seq<CartItem>, id: string, delta: int, size: Option<PackSize>): seq<CartItem> {
    seq(|cart|, i requires 0 <= i < |cart| =>
      if Matches(cart[i], id, size) then cart[i].(quantity := cart[i].quantity + delta) else cart[i])
  }

  /** The `filter(item => item.quantity > 0)` step of `updateQuantity`. */
  predicate InStock(item: CartItem) {
    item.quantity > 0
  }

  /** The updater of `updateQuantity(id, delta, size)`. */
  function UpdateQuantity(cart: seq<CartItem>, id: string, delta: int, size: Option<PackSize>): (r: seq<CartItem>)
    ensures |r| <= |cart|
    ensures forall i :: 0 <= i < |r| ==> r[i].quantity > 0
  {
    Filter(Adjust(cart, id, delta, size), InStock)
  }

  lemma {:induction false} UpdateQuantityAbsent(cart: seq<CartItem>, id: string, delta: int, size: Option<PackSize>)
    requires WellFormed(cart)
    requires forall i :: 0 <= i < |cart| ==> !Matches(cart[i], id, size)
    ensures UpdateQuantity(cart, id, delta, size) == cart
  {
    var m := Adjust(cart, id, delta, size);
    assert m == cart;
    FilterKeepsAll(cart, InStock);
  }

  lemma {:induction false} UpdateQuantityPresent(cart: seq<CartItem>, id: string, delta: int, size: Option<PackSize>, k: nat)
    requires WellFormed(cart) && k < |cart| && Matches(cart[k], id, size)
    ensures UpdateQuantity(cart, id, delta, size) ==
      if cart[k].quantity + delta > 0 then cart[k := cart[k].(quantity := cart[k].quantity + delta)]
      else cart[..k] + cart[k + 1..]
  {
    var m := Adjust(cart, id, delta, size);
    forall i | 0 <= i < |cart| && i != k ensures m[i] == cart[i] {
      if i < k { assert Key(cart[i]) != Key(cart[k]); } else { assert Key(cart[k]) != Key(cart[i]); }
    }
    assert m == cart[k := cart[k].(quantity := cart[k].quantity + delta)];
    if cart[k].quantity + delta > 0 {
      FilterKeepsAll(m, InStock);
    } else {
      FilterDropsOne(m, InStock, k);
      assert m[..k] == cart[..k] && m[k + 1..] == cart[k + 1..];
    }
  }

  /** On a well-formed cart, an absent key is a no-op; a present key has its quantity set to
      old + delta in place, or its line deleted when that is not positive; other lines and their
      order are untouched. */
  lemma {:induction false} UpdateQuantityEffect(cart: seq<CartItem>, id: string, delta: int, size: Option<PackSize>)
    requires WellFormed(cart)
    ensures (forall i :: 0 <= i < |cart| ==> !Matches(cart[i], id, size)) ==> UpdateQuantity(cart, id, delta, size) == cart
    ensures forall k :: 0 <= k < |cart| && Matches(cart[k], id, size) ==>
      UpdateQuantity(cart, id, delta, size) ==
        if cart[k].quantity + delta > 0 then cart[k := cart[k].(quantity := cart[k].quantity + delta)]
        else cart[..k] + cart[k + 1..]
  {
    if forall i :: 0 <= i < |cart| ==> !Matches(cart[i], id, size) {
      UpdateQuantityAbsent(cart, id, delta, size);
    }
    forall k | 0 <= k < |cart| && Matches(cart[k], id, size)
      ensures UpdateQuantity(cart, id, delta, size) ==
        if cart[k].quantity + delta > 0 then cart[k := cart[k].(quantity := cart[k].quantity + delta)]
        else cart[..k] + cart[k + 1..]
    {
      UpdateQuantityPresent(cart, id, delta, size, k);
    }
  }

  /** Deleting one line keeps the ledger invariant. */
  lemma {:induction false} DeleteAtWellFormed(cart: seq<CartItem>, k: nat)
    requires WellFormed(cart) && k < |cart|
    ensures WellFormed(cart[..k] + cart[k + 1..])
  {
    var r := cart[..k] + cart[k + 1..];
    assert forall i :: 0 <= i < |r| ==> r[i] == cart[if i < k then i else i + 1];
  }

  /** Every ledger operation keeps the invariant. */
  lemma {:induction false} AddLineWellFormed(cart: seq<CartItem>, tea: Tea, size: PackSize, price: Option<real>)
    requires WellFormed(cart)
    ensures WellFormed(AddLine(cart, tea, size, price))
  {
    AddLineEffect(cart, tea, size, price);
    var f := FindLine(cart, tea.id, Some(size));
    if f.Some? {
      assert Key(cart[f.value]) == (tea.id, size);
    } else {
      var r := AddLine(cart, tea, size, price);
      assert forall i :: 0 <= i < |cart| ==> Key(cart[i]) != Key(r[|cart|]) by {
        forall i | 0 <= i < |cart| ensures Key(cart[i]) != Key(r[|cart|]) {
          assert !Matches(cart[i], tea.id, Some(size));
        }
      }
    }
  }

  lemma {:induction false} RemoveLinesWellFormed(cart: seq<CartItem>, id: string, size: Option<PackSize>)
    requires WellFormed(cart)
    ensures WellFormed(RemoveLines(cart, id, size))
  {
    RemoveLinesEffect(cart, id, size);
    var f := FindLine(cart, id, size);
    if f.Some? {
      DeleteAtWellFormed(cart, f.value);
    }
  }

  lemma {:induction false} UpdateQuantityWellFormed(cart: seq<CartItem>, id: string, delta: int, size: Option<PackSize>)
    requires WellFormed(cart)
    ensures WellFormed(UpdateQuantity(cart, id, delta, size))
  {
    UpdateQuantityEffect(cart, id, delta, size);
    var f := FindLine(cart, id, size);
    if f.Some? {
      var k := f.value;
      if cart[k].quantity + delta <= 0 {
        DeleteAtWellFormed(cart, k);
      }
    }
  }

  // ----- the `reduce` sums -----

  function LineQuantity(item: CartItem): int { item.quantity }

  /** A line's amount at its locked price. */
  function LineValue(item: CartItem): real { item.selectedPrice * item.quantity as real }

  /** A line's amount at the catalog base price. */
  function LineBaseValue(item: CartItem): real { item.tea.price * item.quantity as real }

  /** `cart.reduce((sum, item) => sum + item.quantity, 0)`. */
  function ItemCount(cart: seq<CartItem>): int { SumInt(cart, LineQuantity) }

  /** `cart.reduce((sum, item) => sum + item.selectedPrice * item.quantity, 0)`. */
  function SelectedValue(cart: seq<CartItem>): real { SumReal(cart, LineValue) }

  /** `cart.reduce((sum, item) => sum + item.price * item.quantity, 0)`. */
  function BaseValue(cart: seq<CartItem>): real { SumReal(cart, LineBaseValue) }

  /** On a well-formed cart there are at least as many packs as lines, so the pack count is 0
      exactly when the cart is empty. */
  lemma {:induction false} ItemCountCoversLines(cart: seq<CartItem>)
    ensures WellFormed(cart) ==> ItemCount(cart) >= |cart|
    ensures WellFormed(cart) ==> (ItemCount(cart) == 0 <==> cart == [])
  {
    if WellFormed(cart) {
      SumIntAtLeast(cart, LineQuantity, 1);
    }
  }

  /** The unit price at which `addToCart` charges the added pack: the locked price of the
      existing line, otherwise the price the new line is created with. */
  function UnitPriceFor(cart: seq<CartItem>, tea: Tea, size: PackSize, price: Option<real>): real {
    match FindLine(cart, tea.id, Some(size))
    case Some(k) => cart[k].selectedPrice
    case None => SelectedPrice(tea, price)
  }

  /** `addToCart` adds exactly one pack to the count and one unit price to the bag's value. */
  lemma {:induction false} AddLineTotals(cart: seq<CartItem>, tea: Tea, size: PackSize, price: Option<real>)
    requires WellFormed(cart)
    ensures ItemCount(AddLine(cart, tea, size, price)) == ItemCount(cart) + 1
    ensures SelectedValue(AddLine(cart, tea, size, price)) == SelectedValue(cart) + UnitPriceFor(cart, tea, size, price)
  {
    AddLineEffect(cart, tea, size, price);
    var f := FindLine(cart, tea.id, Some(size));
    var r := AddLine(cart, tea, size, price);
    if f.Some? {
      var k := f.value;
      var x := cart[k].(quantity := cart[k].quantity + 1);
      assert Key(cart[k]) == (tea.id, size);
      assert r == cart[k := x];
      assert ItemCount(r) == ItemCount(cart) + 1 by {
        SumIntUpdate(cart, k, x, LineQuantity);
      }
      assert SelectedValue(r) == SelectedValue(cart) + cart[k].selectedPrice by {
        SumRealUpdate(cart, k, x, LineValue);
        assert LineValue(x) == LineValue(cart[k]) + cart[k].selectedPrice;
      }
    } else {
      var x := CartItem(tea, 1, size, SelectedPrice(tea, price));
      assert r == cart + [x];
      SumIntAppend(cart, x, LineQuantity);
      SumRealAppend(cart, x, LineValue);
    }
  }

  // ----- the per-key view -----

  /** How many packs of `size` of tea `id` the cart holds (0 when there is no such line). */
  function QuantityOf(cart: seq<CartItem>, id: string, size: PackSize): int {
    match FindLine(cart, id, Some(size))
    case Some(k) => cart[k].quantity
    case None => 0
  }

  lemma {:induction false} QuantityAt(cart: seq<CartItem>, k: nat)
    requires UniqueKeys(cart) && k < |cart|
    ensures QuantityOf(cart, cart[k].tea.id, cart[k].selectedSize) == cart[k].quantity
  {
    var id, size := cart[k].tea.id, Some(cart[k].selectedSize);
    forall j | 0 <= j < k ensures !Matches(cart[j], id, size) {
      assert Key(cart[j]) != Key(cart[k]);
    }
    FindLineIs(cart, id, size, Some(k));
  }

  /** Replacing a line by one with the same key changes only that key's quantity. */
  lemma {:induction false} QuantityAfterReplace(cart: seq<CartItem>, k: nat, x: CartItem, id: string, size: PackSize)
    requires UniqueKeys(cart) && k < |cart| && Key(x) == Key(cart[k])
    ensures QuantityOf(cart[k := x], id, size) ==
      if (id, size) == Key(x) then x.quantity else QuantityOf(cart, id, size)
  {
    var r := cart[k := x];
    assert forall i :: 0 <= i < |r| ==> Key(r[i]) == Key(cart[i]);
    assert UniqueKeys(r);
    FindLineIs(r, id, Some(size), FindLine(cart, id, Some(size)));
    if (id, size) == Key(x) {
      QuantityAt(r, k);
    }
  }

  /** Deleting a line sets its key's quantity to 0 and changes no other key. */
  lemma {:induction false} QuantityAfterDelete(cart: seq<CartItem>, k: nat, id: string, size: PackSize)
    requires UniqueKeys(cart) && k < |cart|
    ensures QuantityOf(cart[..k] + cart[k + 1..], id, size) ==
      if (id, size) == Key(cart[k]) then 0 else QuantityOf(cart, id, size)
  {
    var r := cart[..k] + cart[k + 1..];
    assert forall i :: 0 <= i < |r| ==> r[i] == cart[if i < k then i else i + 1];
    assert UniqueKeys(r);
    var f := FindLine(cart, id, Some(size));
    if (id, size) == Key(cart[k]) {
      forall i | 0 <= i < |r| ensures !Matches(r[i], id, Some(size)) {
        var j := if i < k then i else i + 1;
        if j < k { assert Key(cart[j]) != Key(cart[k]); } else { assert Key(cart[k]) != Key(cart[j]); }
      }
      FindLineIs(r, id, Some(size), None);
    } else if f.Some? {
      var j := f.value;
      var j' := if j < k then j else j - 1;
      assert r[j'] == cart[j];
      QuantityAt(r, j');
      QuantityAt(cart, j);
    } else {
      FindLineIs(r, id, Some(size), None);
    }
  }

  /** Appending a line with a new key gives that key the line's quantity and changes no other. */
  lemma {:induction false} QuantityAfterAppend(cart: seq<CartItem>, x: CartItem, id: string, size: PackSize)
    requires FindLine(cart, x.tea.id, Some(x.selectedSize)).None?
    ensures QuantityOf(cart + [x], id, size) ==
      if (id, size) == Key(x) then x.quantity else QuantityOf(cart, id, size)
  {
    var r := cart + [x];
    var f := FindLine(cart, id, Some(size));
    if f.Some? {
      FindLineIs(r, id, Some(size), f);
    } else if (id, size) == Key(x) {
      FindLineIs(r, id, Some(size), Some(|cart|));
    } else {
      FindLineIs(r, id, Some(size), None);
    }
  }

  /** One operation the storefront applies to the cart. `ClearOp` is `clearCart`, and also
      the cart part of `handleLogout`. */
  datatype CartOp =
    | AddOp(tea: Tea, size: PackSize, price: Option<real>)
    | RemoveOp(id: string, removeSize: Option<PackSize>)
    | UpdateOp(updateId: string, delta: int, updateSize: Option<PackSize>)
    | ClearOp

  function Apply(cart: seq<CartItem>, op: CartOp): seq<CartItem> {
    match op
    case AddOp(tea, size, price) => AddLine(cart, tea, size, price)
    case RemoveOp(id, size) => RemoveLines(cart, id, size)
    case UpdateOp(id, delta, size) => UpdateQuantity(cart, id, delta, size)
    case ClearOp => []
  }

  /** The operations applied one after the other, as the event loop dispatches them. */
  function Run(cart: seq<CartItem>, ops: seq<CartOp>): seq<CartItem>
    decreases |ops|
  {
    if ops == [] then cart else Run(Apply(cart, ops[0]), ops[1..])
  }

  /** What one operation does to the pack count `q` of key (id, size), read as a counter: an add
      counts one up, a remove or clear resets it, and an adjustment applies to a present line
      only and is floored at 0 (the line disappears). */
  function KeyStep(q: int, op: CartOp, id: string, size: PackSize): int {
    match op
    case AddOp(tea, s, _) => if tea.id == id && s == size then q + 1 else q
    case RemoveOp(i, s) => if i == id && s == Some(size) then 0 else q
    case UpdateOp(i, delta, s) =>
      if i == id && s == Some(size) then (if q == 0 || q + delta <= 0 then 0 else q + delta) else q
    case ClearOp => 0
  }

  function KeyRun(q: int, ops: seq<CartOp>, id: string, size: PackSize): int
    decreases |ops|
  {
    if ops == [] then q else KeyRun(KeyStep(q, ops[0], id, size), ops[1..], id, size)
  }

  lemma {:induction false} ApplyWellFormed(cart: seq<CartItem>, op: CartOp)
    requires WellFormed(cart)
    ensures WellFormed(Apply(cart, op))
  {
    match op
    case AddOp(tea, size, price) => AddLineWellFormed(cart, tea, size, price);
    case RemoveOp(id, size) => RemoveLinesWellFormed(cart, id, size);
    case UpdateOp(id, delta, size) => UpdateQuantityWellFormed(cart, id, delta, size);
    case ClearOp =>
  }

  lemma {:induction false} AddQuantity(cart: seq<CartItem>, tea: Tea, s: PackSize, price: Option<real>, id: string, size: PackSize)
    requires WellFormed(cart)
    ensures QuantityOf(AddLine(cart, tea, s, price), id, size) == KeyStep(QuantityOf(cart, id, size), AddOp(tea, s, price), id, size)
  {
    AddLineEffect(cart, tea, s, price);
    var f := FindLine(cart, tea.id, Some(s));
    if f.Some? {
      var k := f.value;
      assert Key(cart[k]) == (tea.id, s);
      QuantityAfterReplace(cart, k, cart[k].(quantity := cart[k].quantity + 1), id, size);
      QuantityAt(cart, k);
    } else {
      QuantityAfterAppend(cart, CartItem(tea, 1, s, SelectedPrice(tea, price)), id, size);
    }
  }

  lemma {:induction false} RemoveQuantity(cart: seq<CartItem>, i: string, s: Option<PackSize>, id: string, size: PackSize)
    requires WellFormed(cart)
    ensures QuantityOf(RemoveLines(cart, i, s), id, size) == KeyStep(QuantityOf(cart, id, size), RemoveOp(i, s), id, size)
  {
    RemoveLinesEffect(cart, i, s);
    var f := FindLine(cart, i, s);
    if f.Some? {
      QuantityAfterDelete(cart, f.value, id, size);
    }
  }

  lemma {:induction false} UpdateQuantityQuantity(cart: seq<CartItem>, i: string, delta: int, s: Option<PackSize>, id: string, size: PackSize)
    requires WellFormed(cart)
    ensures QuantityOf(UpdateQuantity(cart, i, delta, s), id, size) ==
      KeyStep(QuantityOf(cart, id, size), UpdateOp(i, delta, s), id, size)
  {
    var r := UpdateQuantity(cart, i, delta, s);
    var f := FindLine(cart, i, s);
    if f.Some? {
      var k := f.value;
      UpdateQuantityPresent(cart, i, delta, s, k);
      QuantityAt(cart, k);
      if cart[k].quantity + delta > 0 {
        var x := cart[k].(quantity := cart[k].quantity + delta);
        assert r == cart[k := x];
        QuantityAfterReplace(cart, k, x, id, size);
      } else {
        assert r == cart[..k] + cart[k + 1..];
        QuantityAfterDelete(cart, k, id, size);
      }
    } else {
      UpdateQuantityAbsent(cart, i, delta, s);
    }
  }

  /** Each operation acts on every key's quantity as `KeyStep` says. */
  lemma {:induction false} ApplyQuantity(cart: seq<CartItem>, op: CartOp, id: string, size: PackSize)
    requires WellFormed(cart)
    ensures QuantityOf(Apply(cart, op), id, size) == KeyStep(QuantityOf(cart, id, size), op, id, size)
  {
    match op
    case AddOp(tea, s, price) => AddQuantity(cart, tea, s, price, id, size);
    case RemoveOp(i, s) => RemoveQuantity(cart, i, s, id, size);
    case UpdateOp(i, delta, s) => UpdateQuantityQuantity(cart, i, delta, s, id, size);
    case ClearOp =>
  }

  /** Any sequence of operations keeps the ledger invariant, and the quantity it leaves for a
      key is the counter reading of the same operations. */
  lemma {:induction false} RunLedger(cart: seq<CartItem>, ops: seq<CartOp>, id: string, size: PackSize)
    requires WellFormed(cart)
    ensures WellFormed(Run(cart, ops))
    ensures QuantityOf(Run(cart, ops), id, size) == KeyRun(QuantityOf(cart, id, size), ops, id, size)
    decreases |ops|
  {
    if ops != [] {
      ApplyWellFormed(cart, ops[0]);
      ApplyQuantity(cart, ops[0], id, size);
      RunLedger(Apply(cart, ops[0]), ops[1..], id, size);
    }
  }

  /** Starting from the empty cart, every reachable cart is well formed and each key's quantity
      is the counter reading from 0. */
  lemma {:induction false} FromEmptyCart(ops: seq<CartOp>, id: string, size: PackSize)
    ensures WellFormed(Run([], ops))
    ensures QuantityOf(Run([], ops), id, size) == KeyRun(0, ops, id, size)
  {
    RunLedger([], ops, id, size);
  }

  /** An adjustment never creates a line: whatever the delta, a key that is not in the cart
      keeps quantity 0, so a key's quantity is not the floored sum of the deltas applied to it. */
  lemma {:induction false} UpdateDoesNotCreate(id: string, delta: int, size: PackSize)
    ensures QuantityOf(Run([], [UpdateOp(id, delta, Some(size))]), id, size) == 0
  {
    var ops := [UpdateOp(id, delta, Some(size))];
    FromEmptyCart(ops, id, size);
    assert KeyRun(0, ops, id, size) == KeyRun(0, ops[1..], id, size);
  }
}
