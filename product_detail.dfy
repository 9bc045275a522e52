/** pages/ProductDetail.tsx: the product page. It looks the tea up by its route id, prices the
    selected pack (250g at the base price, 500g as two packs less 10%, 1kg as four packs
    less 15%), shows the price per gram, and adds one pack at that price to the bag. */
module ProductDetail {
  import opened Wrappers
  import opened Types
  import opened Catalog
  import opened CartLedger
  import opened App

  /** `TEAS.find(t => t.id === id)`. */
  function FindTea(catalog: seq<Tea>, id: string): (r: Option<Tea>)
    ensures r.Some? ==> r.value in catalog && r.value.id == id
    ensures r.None? <==> forall i :: 0 <= i < |catalog| ==> catalog[i].id != id
    ensures forall k :: 0 <= k < |catalog| && catalog[k].id == id && (forall j :: 0 <= j < k ==> catalog[j].id != id) ==>
      r == Some(catalog[k])
    decreases |catalog|
  {
    if catalog == [] then None
    else if catalog[0].id == id then Some(catalog[0])
    else
      var r := FindTea(catalog[1..], id);
      assert forall k :: 1 <= k < |catalog| ==> catalog[1..][k - 1] == catalog[k];
      r
  }

  /** A lookup in the catalog, unrolled over its four teas. */
  lemma {:induction false} FindInCatalog(id: string)
    ensures FindTea(Teas, id) ==
      if id == "1" then Some(DragonWell) else if id == "2" then Some(GoldenNeedle)
      else if id == "3" then Some(SilverNeedle) else if id == "4" then Some(IronGoddess) else None
  {
    var t1, t2, t3 := Teas[1..], Teas[1..][1..], Teas[1..][1..][1..];
    assert t1 == [GoldenNeedle, SilverNeedle, IronGoddess];
    assert t2 == [SilverNeedle, IronGoddess];
    assert t3 == [IronGoddess];
    assert FindTea(t3[1..], id) == None by { assert t3[1..] == []; }
    assert FindTea(t3, id) == if id == "4" then Some(IronGoddess) else None;
    assert FindTea(t2, id) == if id == "3" then Some(SilverNeedle) else FindTea(t3, id);
    assert FindTea(t1, id) == if id == "2" then Some(GoldenNeedle) else FindTea(t2, id);
    assert FindTea(Teas, id) == if id == "1" then Some(DragonWell) else FindTea(t1, id);
  }

  /** The catalog's ids are distinct, so a lookup finds the tea with that id, and every other
      id finds nothing. */
  lemma {:induction false} CatalogLookup()
    ensures FindTea(Teas, "1") == Some(DragonWell)
    ensures FindTea(Teas, "2") == Some(GoldenNeedle)
    ensures FindTea(Teas, "3") == Some(SilverNeedle)
    ensures FindTea(Teas, "4") == Some(IronGoddess)
    ensures forall id :: id != "1" && id != "2" && id != "3" && id != "4" ==> FindTea(Teas, id).None?
  {
    assert FindTea(Teas, "1") == Some(DragonWell) by { FindInCatalog("1"); }
    assert FindTea(Teas, "2") == Some(GoldenNeedle) by { FindInCatalog("2"); }
    assert FindTea(Teas, "3") == Some(SilverNeedle) by { FindInCatalog("3"); }
    assert FindTea(Teas, "4") == Some(IronGoddess) by { FindInCatalog("4"); }
    forall id | id != "1" && id != "2" && id != "3" && id != "4" ensures FindTea(Teas, id).None? {
      FindInCatalog(id);
    }
  }

  /** `currentPrice`: 0 when the tea is not found. */
  function PackPrice(tea: Option<Tea>, size: PackSize): (p: real)
    ensures tea.None? ==> p == 0.0
    ensures tea.Some? && size == Pack250g ==> p == tea.value.price
    ensures tea.Some? && size == Pack500g ==> p == 1.8 * tea.value.price
    ensures tea.Some? && size == Pack1kg ==> p == 3.4 * tea.value.price
  {
    match tea
    case None => 0.0
    case Some(t) =>
      match size
      case Pack250g => t.price
      case Pack500g => t.price * 2.0 * 0.9
      case Pack1kg => t.price * 4.0 * 0.85
  }

  /** Grams in a pack. */
  function Weight(size: PackSize): (w: int)
    ensures w > 0
  {
    match size
    case Pack250g => 250
    case Pack500g => 500
    case Pack1kg => 1000
  }

  /** `currentPrice / weight`: the price of one gram of the pack. */
  function PricePerGram(price: real, size: PackSize): (g: real)
    ensures g * Weight(size) as real == price
    ensures price >= 0.0 ==> g >= 0.0
  {
    price / Weight(size) as real
  }

  /** `pricePerGram.toFixed(2)`, as a whole number of paise: the per-gram price rounded to the
      nearest hundredth. `toFixed` rounds the magnitude and puts the sign back, so ties go away
      from zero: upward for a non-negative price, downward for a negative one. */
  function PerGramPaise(price: real, size: PackSize): (c: int)
    ensures price >= 0.0 ==> -0.5 < c as real - 100.0 * PricePerGram(price, size) <= 0.5
    ensures price < 0.0 ==> -0.5 <= c as real - 100.0 * PricePerGram(price, size) < 0.5
  {
    var g := PricePerGram(price, size);
    if g >= 0.0 then (100.0 * g + 0.5).Floor else -(-100.0 * g + 0.5).Floor
  }

  /** For a priced tea, each larger pack is strictly cheaper per gram. */
  lemma {:induction false} BulkIsCheaperPerGram(t: Tea)
    requires t.price > 0.0
    ensures PricePerGram(PackPrice(Some(t), Pack500g), Pack500g) < PricePerGram(PackPrice(Some(t), Pack250g), Pack250g)
    ensures PricePerGram(PackPrice(Some(t), Pack1kg), Pack1kg) < PricePerGram(PackPrice(Some(t), Pack500g), Pack500g)
  {
  }

  /** A larger pack never costs less than the base price of a 250g pack. */
  lemma {:induction false} PackPriceAtLeastBase(t: Tea, size: PackSize)
    requires t.price >= 0.0
    ensures PackPrice(Some(t), size) >= t.price
  {
  }

  /** The price the page passes to `addToCart` is the price the new line is locked at: the `||`
      fallback only replaces a 0, and a pack price is 0 only when the base price is. */
  lemma {:induction false} PackPriceIsLocked(t: Tea, size: PackSize)
    ensures SelectedPrice(t, Some(PackPrice(Some(t), size))) == PackPrice(Some(t), size)
  {
    if PackPrice(Some(t), size) == 0.0 {
      assert t.price == 0.0;
    }
  }

  class ProductPage {
    const tea: Option<Tea>
    var selectedSize: PackSize
    var quantity: int

    /** The stepper never shows less than one. */
    ghost predicate Valid()
      reads this
    {
      quantity >= 1
    }

    /** Opening `/product/:id`: the 250g pack and a stepper at 1. */
    constructor(catalog: seq<Tea>, id: string)
      ensures tea == FindTea(catalog, id)
      ensures selectedSize == Pack250g && quantity == 1 && Valid()
    {
      tea := FindTea(catalog, id);
      selectedSize := Pack250g;
      quantity := 1;
    }

    /** The "Tea Not Found" view. */
    predicate NotFound()
      reads this
    {
      tea.None?
    }

    /** `currentPrice` for the selected pack. */
    function CurrentPrice(): (p: real)
      reads this
      ensures p == PackPrice(tea, selectedSize)
      ensures tea.Some? && tea.value.price >= 0.0 ==> p >= tea.value.price
    {
      PackPrice(tea, selectedSize)
    }

    /** A pack-size button. */
    method SelectSize(size: PackSize)
      modifies this`selectedSize
      ensures selectedSize == size
    {
      selectedSize := size;
    }

    /** The stepper's `-`: `Math.max(1, q - 1)`. */
    method Decrement()
      modifies this`quantity
      ensures quantity == if old(quantity) - 1 > 1 then old(quantity) - 1 else 1
      ensures Valid()
    {
      quantity := if quantity - 1 > 1 then quantity - 1 else 1;
    }

    /** The stepper's `+`. */
    method Increment()
      requires Valid()
      modifies this`quantity
      ensures quantity == old(quantity) + 1 && Valid()
    {
      quantity := quantity + 1;
    }

    /** "Add to Bag": one pack of the selected size at the current price, whatever the stepper
        shows; the stepper and the size are left as they are. */
    method AddToBag(store: Store)
      requires tea.Some? && store.Valid()
      modifies store`cart
      ensures store.cart == AddLine(old(store.cart), tea.value, selectedSize, Some(CurrentPrice()))
      ensures store.Valid()
      ensures ItemCount(store.cart) == ItemCount(old(store.cart)) + 1
      ensures QuantityOf(store.cart, tea.value.id, selectedSize) == QuantityOf(old(store.cart), tea.value.id, selectedSize) + 1
    {
      AddQuantity(store.cart, tea.value, selectedSize, Some(CurrentPrice()), tea.value.id, selectedSize);
      store.AddToCart(tea.value, selectedSize, Some(CurrentPrice()));
    }
  }
}
