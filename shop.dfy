/** pages/Shop.tsx: the catalog page with its row of category buttons ("All" and every
    category) and the grid of teas in the selected category. */
module Shop {
  import opened Types
  import opened Seqs
  import opened Catalog

  /** `Category | 'All'`. */
  datatype Selection = All | Only(category: Category) {
    function Label(): string {
      match this
      case All => "All"
      case Only(c) => c.Label()
    }
  }

  /** `['All', ...Object.values(Category)]`. */
  function Categories(): (r: seq<Selection>)
    ensures |r| == |AllCategories| + 1 && r[0] == All
    ensures forall i :: 0 <= i < |AllCategories| ==> r[i + 1] == Only(AllCategories[i])
  {
    [All] + seq(|AllCategories|, i requires 0 <= i < |AllCategories| => Only(AllCategories[i]))
  }

  /** Every selection has exactly one button, and the button labels are distinct, as React's
      `key={cat}` needs. */
  lemma {:induction false} CategoryButtons()
    ensures forall s: Selection :: s in Categories()
    ensures forall i, j :: 0 <= i < j < |Categories()| ==> Categories()[i].Label() != Categories()[j].Label()
  {
    var r := Categories();
    forall s: Selection ensures s in r {
      match s
      case All => assert r[0] == All;
      case Only(c) =>
        match c
        case Green => assert r[1] == s;
        case Black => assert r[2] == s;
        case Oolong => assert r[3] == s;
        case White => assert r[4] == s;
        case Herbal => assert r[5] == s;
        case Wellness => assert r[6] == s;
        case Gifting => assert r[7] == s;
    }
    assert r == [All, Only(Green), Only(Black), Only(Oolong), Only(White), Only(Herbal), Only(Wellness), Only(Gifting)];
  }

  function InCategory(c: Category): Tea -> bool {
    (t: Tea) => t.category == c
  }

  /** `filteredTeas`: the whole catalog for "All", else the teas of that category in catalog
      order. */
  function FilteredTeas(catalog: seq<Tea>, selected: Selection): (r: seq<Tea>)
    ensures selected == All ==> r == catalog
    ensures selected.Only? ==> forall i :: 0 <= i < |r| ==> r[i].category == selected.category
    ensures selected.Only? ==> forall i :: 0 <= i < |catalog| && catalog[i].category == selected.category ==> catalog[i] in r
    ensures IsSubsequence(r, catalog)
  {
    if selected == All then
      FilterKeepsAll(catalog, (t: Tea) => true);
      assert IsSubsequence(Filter(catalog, (t: Tea) => true), catalog) by { FilterIsSubsequence(catalog, (t: Tea) => true); }
      catalog
    else
      FilterIsSubsequence(catalog, InCategory(selected.category));
      FilterMembers(catalog, InCategory(selected.category));
      Filter(catalog, InCategory(selected.category))
  }

  /** A category shows each of its teas as many times as the catalog holds it. */
  lemma {:induction false} FilteredTeasCopies(catalog: seq<Tea>, c: Category)
    ensures forall t: Tea :: t.category == c ==> multiset(FilteredTeas(catalog, Only(c)))[t] == multiset(catalog)[t]
  {
    FilterMultiset(catalog, InCategory(c));
  }

  /** Filtering the catalog by a category, unrolled over its four teas. */
  lemma {:induction false} FilterCatalog(c: Category)
    ensures FilteredTeas(Teas, Only(c)) == Unrolled(c)
  {
    FilterUnrolled(c);
  }

  /** The four catalog teas of category `c`, written out in catalog order. */
  function Unrolled(c: Category): seq<Tea> {
    (if DragonWell.category == c then [DragonWell] else []) +
    (if GoldenNeedle.category == c then [GoldenNeedle] else []) +
    (if SilverNeedle.category == c then [SilverNeedle] else []) +
    (if IronGoddess.category == c then [IronGoddess] else [])
  }

  lemma {:induction false} FilterUnrolled(c: Category)
    ensures Filter(Teas, InCategory(c)) == Unrolled(c)
  {
    var p := InCategory(c);
    var t1, t2, t3 := Teas[1..], Teas[1..][1..], Teas[1..][1..][1..];
    assert t1 == [GoldenNeedle, SilverNeedle, IronGoddess];
    assert t2 == [SilverNeedle, IronGoddess];
    assert t3 == [IronGoddess];
    assert t3[1..] == [];
    assert Filter(t3, p) == (if p(IronGoddess) then [IronGoddess] else []) + Filter(t3[1..], p);
    assert Filter(t2, p) == (if p(SilverNeedle) then [SilverNeedle] else []) + Filter(t3, p);
    assert Filter(t1, p) == (if p(GoldenNeedle) then [GoldenNeedle] else []) + Filter(t2, p);
    assert Filter(Teas, p) == (if p(DragonWell) then [DragonWell] else []) + Filter(t1, p);
  }

  /** The four catalog teas fall one in each of Green, Black, White and Oolong; the other
      categories show an empty grid. */
  lemma {:induction false} CatalogByCategory()
    ensures FilteredTeas(Teas, Only(Green)) == [DragonWell]
    ensures FilteredTeas(Teas, Only(Black)) == [GoldenNeedle]
    ensures FilteredTeas(Teas, Only(White)) == [SilverNeedle]
    ensures FilteredTeas(Teas, Only(Oolong)) == [IronGoddess]
    ensures FilteredTeas(Teas, Only(Herbal)) == []
    ensures FilteredTeas(Teas, Only(Wellness)) == [] && FilteredTeas(Teas, Only(Gifting)) == []
  {
    FilterCatalog(Green);
    FilterCatalog(Black);
    FilterCatalog(White);
    FilterCatalog(Oolong);
    FilterCatalog(Herbal);
    FilterCatalog(Wellness);
    FilterCatalog(Gifting);
  }
}
