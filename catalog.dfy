/**
 * The home page's view of the catalog: the list normalisation done when the
 * products response arrives, the grid filter, the per-category grouping of
 * the all-categories view, and the free-text search box.
 */
module Catalog {
  import opened Wrappers
  import opened Text
  import opened Seqs
  import opened Products

  /** A product after normalisation: the record plus the resolved `image`, `stock` and `discount`. */
  datatype Listing = Listing(product: Product, image: Option<string>, stock: int, discount: int)

  /** The shapes `response.data` takes: a bare array, an object (paged envelope or not), or nothing. */
  datatype Response =
    | ArrayBody(items: seq<Product>)
    | ObjectBody(results: Option<seq<Product>>)
    | NoBody

  /** `Array.isArray(data) ? data : (data?.results || [])`. */
  function ProductList(data: Response): (list: seq<Product>)
    ensures data.ArrayBody? ==> list == data.items
    ensures data.ObjectBody? && data.results.Some? ==> list == data.results.value
    ensures data.NoBody? || data == ObjectBody(None) ==> list == []
  {
    match data
    case ArrayBody(items) => items
    case ObjectBody(results) => results.GetOr([])
    case NoBody => []
  }

  /** `p.image || p.main_image_url || p.main_image || null`. */
  function ImageOf(p: Product): (r: Option<string>)
    ensures r.None? <==> p.image == "" && p.mainImageUrl == "" && p.mainImage == ""
    ensures r.Some? ==> r.value != "" && r.value in [p.image, p.mainImageUrl, p.mainImage]
    ensures p.image != "" ==> r == Some(p.image)
  {
    if p.image != "" then Some(p.image)
    else if p.mainImageUrl != "" then Some(p.mainImageUrl)
    else if p.mainImage != "" then Some(p.mainImage)
    else None
  }

  /** The per-product normalisation map. */
  function Normalize(p: Product): (l: Listing)
    ensures l.product == p && l.image == ImageOf(p) && l.stock == StockCount(p)
    ensures l.discount == p.discountPercentage.GetOr(0)
  {
    Listing(p, ImageOf(p), StockCount(p), p.discountPercentage.GetOr(0))
  }

  /** `fetchProducts`: envelope unwrapping followed by per-product normalisation, in order. */
  function NormalizeAll(data: Response): (ls: seq<Listing>)
    ensures |ls| == |ProductList(data)|
    ensures forall i :: 0 <= i < |ls| ==> ls[i] == Normalize(ProductList(data)[i])
  {
    var list := ProductList(data);
    seq(|list|, i requires 0 <= i < |list| => Normalize(list[i]))
  }

  /** `!selectedCategory` is false: a category id other than 0 is selected. */
  predicate CategorySelected(selected: Option<int>) {
    selected.Some? && selected.value != 0
  }

  /** `product.name && product.name.toLowerCase().includes(term.toLowerCase())`, likewise for the description. */
  predicate NameOrDescriptionMatches(p: Product, term: string) {
    (p.name != "" && Contains(Lower(p.name), Lower(term)))
    || (p.description != "" && Contains(Lower(p.description), Lower(term)))
  }

  /** The grid's three gates: category, search text, and homepage visibility. */
  predicate GridKeeps(l: Listing, selected: Option<int>, term: string) {
    var matchesCategory := !CategorySelected(selected) || l.product.category == selected;
    var matchesSearch := term == "" || NameOrDescriptionMatches(l.product, term);
    var matchesHomepage := CategorySelected(selected) || l.product.showOnHomepage != Some(false);
    matchesCategory && matchesSearch && matchesHomepage
  }

  /** `filteredProducts`: the products shown in the home or single-category grid. */
  function FilteredProducts(products: seq<Listing>, selected: Option<int>, term: string): (r: seq<Listing>)
    ensures |r| <= |products|
    ensures forall l :: l in r <==>
      && l in products
      && (!CategorySelected(selected) || l.product.category == selected)
      && (term == "" || NameOrDescriptionMatches(l.product, term))
      && (CategorySelected(selected) || l.product.showOnHomepage != Some(false))
  {
    Filter(products, l => GridKeeps(l, selected, term))
  }

  /** The per-category grouping gates: exact category, not inactive, search text. */
  predicate CategoryKeeps(l: Listing, categoryId: int, term: string) {
    && l.product.category == Some(categoryId)
    && l.product.isActive != Some(false)
    && (term == "" || NameOrDescriptionMatches(l.product, term))
  }

  /** `getProductsForCategory`: the homepage flag plays no part here. */
  function ProductsForCategory(products: seq<Listing>, categoryId: int, term: string): (r: seq<Listing>)
    ensures |r| <= |products|
    ensures forall l :: l in r <==>
      && l in products
      && l.product.category == Some(categoryId)
      && l.product.isActive != Some(false)
      && (term == "" || NameOrDescriptionMatches(l.product, term))
  {
    Filter(products, l => CategoryKeeps(l, categoryId, term))
  }

  /** The search box compares name, category name and description, case-insensitively. */
  predicate SearchMatches(p: Product, value: string) {
    || Contains(Lower(p.name), Lower(value))
    || Contains(Lower(p.categoryName), Lower(value))
    || Contains(Lower(p.description), Lower(value))
  }

  /** `handleSearch`'s result: `null` for a blank term, the matching products otherwise. */
  function SearchResults(products: seq<Listing>, value: string): (r: Option<seq<Listing>>)
    ensures r.None? <==> IsBlank(value)
    ensures r.Some? ==> |r.value| <= |products|
    ensures r.Some? ==> forall l :: l in r.value <==> l in products && SearchMatches(l.product, value)
  {
    if IsBlank(value) then None
    else Some(Filter(products, (l: Listing) => SearchMatches(l.product, value)))
  }

  /** The grid and the category sections keep the catalog's order: each distributes over concatenation. */
  lemma FiltersPreserveOrder(a: seq<Listing>, b: seq<Listing>, selected: Option<int>, categoryId: int, term: string)
    ensures FilteredProducts(a + b, selected, term) == FilteredProducts(a, selected, term) + FilteredProducts(b, selected, term)
    ensures ProductsForCategory(a + b, categoryId, term) == ProductsForCategory(a, categoryId, term) + ProductsForCategory(b, categoryId, term)
  {
    FilterAppend(a, b, l => GridKeeps(l, selected, term));
    FilterAppend(a, b, l => CategoryKeeps(l, categoryId, term));
  }

  /** The search results keep the catalog's order as well. */
  lemma SearchPreservesOrder(a: seq<Listing>, b: seq<Listing>, term: string)
    requires !IsBlank(term)
    ensures SearchResults(a + b, term).value == SearchResults(a, term).value + SearchResults(b, term).value
  {
    FilterAppend(a, b, (l: Listing) => SearchMatches(l.product, term));
  }

  /**
   * The homepage gate of `filteredProducts` applies only without a selected
   * category: a product flagged off the homepage still appears in the grid once
   * its own category is selected.
   */
  lemma HomepageGateOnlyWithoutCategory(l: Listing)
    requires l.product.showOnHomepage == Some(false)
    requires l.product.category.Some? && l.product.category.value != 0
    ensures l !in FilteredProducts([l], None, "")
    ensures l in FilteredProducts([l], l.product.category, "")
  {
  }

  /** A listing whose product carries the given `show_on_homepage` flag, everything else unchanged. */
  function Flagged(l: Listing, flag: Option<bool>): (r: Listing)
    ensures r.product.showOnHomepage == flag
    ensures r.(product := r.product.(showOnHomepage := l.product.showOnHomepage)) == l
  {
    l.(product := l.product.(showOnHomepage := flag))
  }

  /** Every listing of `products` re-flagged with `flag`. */
  function WithHomepageFlag(products: seq<Listing>, flag: Option<bool>): (r: seq<Listing>)
    ensures |r| == |products|
    ensures forall i :: 0 <= i < |r| ==> r[i] == Flagged(products[i], flag)
    decreases |products|
  {
    if |products| == 0 then [] else [Flagged(products[0], flag)] + WithHomepageFlag(products[1..], flag)
  }

  /**
   * The category sections of the home view do not depend on `show_on_homepage`:
   * re-flagging every product and then grouping gives the same sections as
   * grouping and then re-flagging.
   */
  lemma {:induction false} HomeSectionsIgnoreHomepageFlag(products: seq<Listing>, categoryId: int, term: string, flag: Option<bool>)
    ensures ProductsForCategory(WithHomepageFlag(products, flag), categoryId, term)
         == WithHomepageFlag(ProductsForCategory(products, categoryId, term), flag)
    decreases |products|
  {
    if |products| > 0 {
      var rest := ProductsForCategory(products[1..], categoryId, term);
      HomeSectionsIgnoreHomepageFlag(products[1..], categoryId, term, flag);
      assert WithHomepageFlag(products, flag)[1..] == WithHomepageFlag(products[1..], flag);
      assert CategoryKeeps(Flagged(products[0], flag), categoryId, term) == CategoryKeeps(products[0], categoryId, term);
      if CategoryKeeps(products[0], categoryId, term) {
        assert ([products[0]] + rest)[1..] == rest;
      }
    }
  }

  /**
   * Without a selected category the page shows the category sections, not the
   * grid: an active product flagged off the homepage is dropped by the grid
   * filter yet still listed in its category's section.
   */
  lemma HiddenProductStillInHomeSections(l: Listing, categoryId: int)
    requires l.product.showOnHomepage == Some(false)
    requires l.product.category == Some(categoryId) && l.product.isActive != Some(false)
    ensures l !in FilteredProducts([l], None, "")
    ensures ProductsForCategory([l], categoryId, "") == [l]
  {
  }

  /**
   * The single-category grid has no `is_active` gate, unlike the home
   * sections: an inactive product shows in the grid of its category and in no
   * section.
   */
  lemma InactiveProductOnlyInGrid(l: Listing, categoryId: int)
    requires l.product.isActive == Some(false)
    requires l.product.category == Some(categoryId) && categoryId != 0
    ensures l in FilteredProducts([l], Some(categoryId), "")
    ensures ProductsForCategory([l], categoryId, "") == []
  {
  }

  /**
   * The grid ignores the category name while the search box consults it: a
   * product matched only through its category name is found by the search
   * and hidden from the grid.
   */
  lemma GridSearchIgnoresCategoryName()
    ensures exists l: Listing, term: string ::
      && SearchResults([l], term) == Some([l])
      && FilteredProducts([l], None, term) == []
  {
    var p := Product(2, "Mouse", "", Some(1), "Electronics", Some(50), None, None, None, Some(3), true,
                     None, None, "", "", "");
    var l := Normalize(p);
    var term := "electronics";
    assert Lower("Electronics") == term;
    ContainsAt(Lower(p.categoryName), Lower(term), 0);
    assert SearchMatches(p, term);
    assert !IsBlank(term) by { assert !IsSpace(term[0]); }
    assert Filter([l], (x: Listing) => SearchMatches(x.product, term)) == [l];
    assert !Contains(Lower(p.name), Lower(term)) by {
      if Contains(Lower(p.name), Lower(term)) { ContainsNeedsRoom(Lower(p.name), Lower(term)); }
    }
    assert !GridKeeps(l, None, term);
    assert FilteredProducts([l], None, term) == [];
  }

  /** A search for "laptop" over "Laptop X" and "Mouse" finds only the laptop. */
  lemma LaptopSearchScenario(laptop: Product, mouse: Product)
    requires laptop.name == "Laptop X" && laptop.categoryName == "Electronics" && laptop.description == ""
    requires mouse.name == "Mouse" && mouse.categoryName == "Electronics" && mouse.description == ""
    ensures SearchResults([Normalize(laptop), Normalize(mouse)], "laptop") == Some([Normalize(laptop)])
  {
    var term := "laptop";
    assert !IsBlank(term) by { assert !IsSpace(term[0]); }
    assert Lower(laptop.name) == "laptop x";
    ContainsAt(Lower(laptop.name), Lower(term), 0);
    assert SearchMatches(laptop, term);
    forall s: string | s in [mouse.name, mouse.categoryName, mouse.description]
      ensures !Contains(Lower(s), Lower(term))
    {
      NeverContains(s, term);
    }
    assert !SearchMatches(mouse, term);
    var ls := [Normalize(laptop), Normalize(mouse)];
    var keep := (x: Listing) => SearchMatches(x.product, term);
    assert ls[1..] == [Normalize(mouse)];
    assert Filter([Normalize(mouse)], keep) == [];
    assert Filter(ls, keep) == [Normalize(laptop)];
  }

  /** The three mouse fields never contain "laptop". */
  lemma NeverContains(s: string, term: string)
    requires s in ["Mouse", "Electronics", ""] && term == "laptop"
    ensures !Contains(Lower(s), Lower(term))
  {
    if s == "Mouse" || s == "" {
      if Contains(Lower(s), Lower(term)) { ContainsNeedsRoom(Lower(s), Lower(term)); }
    } else {
      var t := Lower(term);
      assert t[0] == 'l' && t[1] == 'a';
      var e := Lower(s);
      assert e == "electronics";
      NotContainsLa(e, t);
    }
  }

  /** No offset of "electronics" begins "la". */
  lemma {:induction false} NotContainsLa(e: string, t: string)
    requires |t| >= 2 && t[0] == 'l' && t[1] == 'a'
    requires forall i :: 0 <= i < |e| - 1 ==> !(e[i] == 'l' && e[i + 1] == 'a')
    ensures !Contains(e, t)
    decreases |e|
  {
    if |e| > 0 {
      var rest := e[1..];
      forall i | 0 <= i < |rest| - 1 ensures !(rest[i] == 'l' && rest[i + 1] == 'a') {
        assert rest[i] == e[i + 1] && rest[i + 1] == e[i + 2];
      }
      NotContainsLa(rest, t);
    }
  }
}
