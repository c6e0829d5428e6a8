// The catalog page (pages/Catalog.tsx): the filter chain and price sort that
// produce the visible products, the filter-record transitions of the sidebar
// buttons, and the price-slider ceiling.

module Catalog {
  import opened Types
  import Seqs
  import Sorting
  import Strings

  datatype SortKey = Featured | PriceAsc | PriceDesc

  const DefaultMaxPrice: real := 3000.0
  const EmptyCatalogPriceMax: real := 1000.0

  // ------------------------------------------------------------- the filters

  /** `filters.category && filters.category !== 'all'`: null, the empty string and 'all' switch it off. */
  predicate CategoryActive(f: FilterState)
  {
    f.category.Some? && f.category.value != "" && f.category.value != "all"
  }

  /** `filters.color` is truthy: present and not empty. */
  predicate ColorActive(f: FilterState)
  {
    f.color.Some? && f.color.value != ""
  }

  /** Case-insensitive category comparison. */
  predicate InCategory(p: Product, cat: string)
  {
    Strings.ToLower(p.category) == Strings.ToLower(cat)
  }

  /** `p.originalPrice && p.originalPrice > p.price`: set, non-zero, and above the price. */
  predicate OnSale(p: Product)
  {
    p.originalPrice.Some? && p.originalPrice.value != 0.0 && p.originalPrice.value > p.price
  }

  /** Both bounds inclusive. */
  predicate InPriceRange(f: FilterState, p: Product)
  {
    f.minPrice <= p.price <= f.maxPrice
  }

  /** The conjunction of the active filters. */
  predicate Matches(f: FilterState, p: Product)
  {
    && (CategoryActive(f) ==> InCategory(p, f.category.value))
    && (f.sale ==> OnSale(p))
    && (ColorActive(f) ==> f.color.value in p.colors)
    && InPriceRange(f, p)
  }

  function CategoryPred(cat: string): Product -> bool { (p: Product) => InCategory(p, cat) }
  function ColorPred(color: string): Product -> bool { (p: Product) => color in p.colors }
  function SalePred(): Product -> bool { (p: Product) => OnSale(p) }
  function PricePred(f: FilterState): Product -> bool { (p: Product) => InPriceRange(f, p) }
  function MatchPred(f: FilterState): Product -> bool { (p: Product) => Matches(f, p) }

  function CategoryOf(f: FilterState): string { if f.category.Some? then f.category.value else "" }
  function ColorOf(f: FilterState): string { if f.color.Some? then f.color.value else "" }

  /** The filter chain as the page runs it: category, sale, colour, then price. */
  function ApplyFilters(products: seq<Product>, f: FilterState): seq<Product>
  {
    var byCategory := if CategoryActive(f) then Seqs.Filter(products, CategoryPred(CategoryOf(f))) else products;
    var bySale := if f.sale then Seqs.Filter(byCategory, SalePred()) else byCategory;
    var byColor := if ColorActive(f) then Seqs.Filter(bySale, ColorPred(ColorOf(f))) else bySale;
    Seqs.Filter(byColor, PricePred(f))
  }

  function PriceOf(p: Product): real { p.price }
  function NegatedPrice(p: Product): real { -p.price }

  /** The visible products: the filtered list, then a sorted copy for the two price orders. */
  function FilteredProducts(products: seq<Product>, f: FilterState, sortBy: SortKey): seq<Product>
  {
    var r := ApplyFilters(products, f);
    match sortBy
    case Featured => r
    case PriceAsc => Sorting.SortByKey(r, PriceOf)
    case PriceDesc => Sorting.SortByKey(r, NegatedPrice)
  }

  /** The four-stage chain is one filter by the conjunction of the active filters. */
  lemma FilterChainIsConjunction(products: seq<Product>, f: FilterState)
    ensures ApplyFilters(products, f) == Seqs.Filter(products, MatchPred(f))
  {
    var cat, color := CategoryOf(f), ColorOf(f);
    var byCategory := if CategoryActive(f) then Seqs.Filter(products, CategoryPred(cat)) else products;
    var bySale := if f.sale then Seqs.Filter(byCategory, SalePred()) else byCategory;
    var byColor := if ColorActive(f) then Seqs.Filter(bySale, ColorPred(color)) else bySale;
    assert ApplyFilters(products, f) == Seqs.Filter(byColor, PricePred(f));

    var p0 := (p: Product) => true;
    var p1 := (p: Product) => CategoryActive(f) ==> InCategory(p, cat);
    var p2 := (p: Product) => p1(p) && (f.sale ==> OnSale(p));
    var p3 := (p: Product) => p2(p) && (ColorActive(f) ==> color in p.colors);
    Seqs.FilterKeepsAll(products, p0);
    Seqs.FilterStage(products, p0, CategoryActive(f), CategoryPred(cat), p1);
    assert byCategory == Seqs.Filter(products, p1);
    Seqs.FilterStage(products, p1, f.sale, SalePred(), p2);
    assert bySale == Seqs.Filter(products, p2);
    Seqs.FilterStage(products, p2, ColorActive(f), ColorPred(color), p3);
    assert byColor == Seqs.Filter(products, p3);
    Seqs.FilterFuse(products, p3, PricePred(f), MatchPred(f));
  }

  /** A product is shown exactly when it is in the catalog and passes every active filter, whatever the order. */
  lemma FilteredMembership(products: seq<Product>, f: FilterState, sortBy: SortKey)
    ensures forall p :: p in FilteredProducts(products, f, sortBy) ==> p in products && Matches(f, p)
    ensures forall p :: p in products && Matches(f, p) ==> p in FilteredProducts(products, f, sortBy)
    ensures multiset(FilteredProducts(products, f, sortBy)) == multiset(ApplyFilters(products, f))
  {
    FilterChainIsConjunction(products, f);
    var r := ApplyFilters(products, f);
    Sorting.SortByKeySpec(r, PriceOf);
    Sorting.SortByKeySpec(r, NegatedPrice);
    var out := FilteredProducts(products, f, sortBy);
    forall p | p in out ensures p in r {
      assert p in multiset(out);
    }
    forall p | p in r ensures p in out {
      assert p in multiset(r);
    }
  }

  /** 'featured' shows the filtered catalog in catalog order. */
  lemma FeaturedKeepsCatalogOrder(products: seq<Product>, f: FilterState)
    ensures FilteredProducts(products, f, Featured) == Seqs.Filter(products, MatchPred(f))
    ensures Seqs.IsSubsequence(FilteredProducts(products, f, Featured), products)
  {
    FilterChainIsConjunction(products, f);
  }

  /** 'price-asc' is non-decreasing and 'price-desc' non-increasing by price. */
  lemma PriceSortOrders(products: seq<Product>, f: FilterState)
    ensures var r := FilteredProducts(products, f, PriceAsc);
      forall i, j :: 0 <= i < j < |r| ==> r[i].price <= r[j].price
    ensures var r := FilteredProducts(products, f, PriceDesc);
      forall i, j :: 0 <= i < j < |r| ==> r[i].price >= r[j].price
  {
    var r := ApplyFilters(products, f);
    Sorting.SortByKeySpec(r, PriceOf);
    Sorting.SortByKeySpec(r, NegatedPrice);
  }

  function PriceIs(v: real): Product -> bool { (p: Product) => p.price == v }

  lemma PriceKeySortIsStable(r: seq<Product>, key: Product -> real, v: real, w: real)
    requires forall p :: (key(p) == w) == (p.price == v)
    ensures Seqs.Filter(Sorting.SortByKey(r, key), PriceIs(v)) == Seqs.Filter(r, PriceIs(v))
  {
    Sorting.SortByKeyStable(r, key, w);
    Seqs.FilterExt(Sorting.SortByKey(r, key), PriceIs(v), Sorting.KeyIs(key, w));
    Seqs.FilterExt(r, PriceIs(v), Sorting.KeyIs(key, w));
  }

  /** Products of equal price keep their catalog order under either price sort. */
  lemma PriceSortIsStable(products: seq<Product>, f: FilterState, sortBy: SortKey, v: real)
    ensures Seqs.Filter(FilteredProducts(products, f, sortBy), PriceIs(v))
         == Seqs.Filter(Seqs.Filter(products, MatchPred(f)), PriceIs(v))
  {
    FilterChainIsConjunction(products, f);
    var r := ApplyFilters(products, f);
    match sortBy
    case Featured =>
    case PriceAsc => PriceKeySortIsStable(r, PriceOf, v, v);
    case PriceDesc => PriceKeySortIsStable(r, NegatedPrice, v, -v);
  }

  /** Applying the category filter to a lower-cased name selects the same products. */
  lemma CategoryIgnoresCase(p: Product, cat: string)
    ensures InCategory(p, Strings.ToLower(cat)) == InCategory(p, cat)
    ensures InCategory(p, cat) == InCategory(p.(category := Strings.ToLower(p.category)), cat)
  {
    Strings.ToLowerIdempotent(cat);
    Strings.ToLowerIdempotent(p.category);
  }

  // ---------------------------------------------------- the filter record

  /** The filter record on first render, read from the URL's 'category' and 'sale' parameters. */
  function InitialFilters(params: map<string, string>): (f: FilterState)
    ensures f.minPrice == 0.0 && f.maxPrice == DefaultMaxPrice && f.color == None
    ensures f.sale <==> "sale" in params && params["sale"] == "true"
    ensures f.category.Some? <==> "category" in params && params["category"] != ""
    ensures f.category.Some? ==> f.category.value == params["category"]
  {
    FilterState(
      if "category" in params && params["category"] != "" then Some(params["category"]) else None,
      0.0, DefaultMaxPrice, None,
      "sale" in params && params["sale"] == "true")
  }

  /** handleCategoryChange: 'all' becomes no category, and the sale flag is cleared. */
  function CategoryChosen(f: FilterState, cat: Option<string>): (r: FilterState)
    ensures r.category == (if cat == Some("all") then None else cat)
    ensures !r.sale
    ensures r.color == f.color && r.minPrice == f.minPrice && r.maxPrice == f.maxPrice
  {
    f.(category := if cat == Some("all") then None else cat, sale := false)
  }

  /** handleSaleFilter: the sale flag is set and the category cleared. */
  function SaleChosen(f: FilterState): (r: FilterState)
    ensures r.sale && r.category == None
    ensures r.color == f.color && r.minPrice == f.minPrice && r.maxPrice == f.maxPrice
  {
    f.(category := None, sale := true)
  }

  /** The colour swatch: clicking the selected colour clears it, any other selects it. */
  function ToggledColor(current: Option<string>, clicked: string): (r: Option<string>)
    ensures r == None <==> current == Some(clicked)
    ensures r != None ==> r == Some(clicked)
  {
    if current == Some(clicked) then None else Some(clicked)
  }

  /** "Clear all filters". */
  function ClearedFilters(): (f: FilterState)
    ensures !CategoryActive(f) && !f.sale && !ColorActive(f)
    ensures f.minPrice == 0.0 && f.maxPrice == DefaultMaxPrice
  {
    FilterState(None, 0.0, DefaultMaxPrice, None, false)
  }

  /** Category and sale are never both in force. */
  predicate OnePrimaryFacet(f: FilterState)
  {
    !(CategoryActive(f) && f.sale)
  }

  /** After a sale click the view is the sale items of the chosen colour and price range, whatever category was set. */
  lemma SaleViewIgnoresCategory(products: seq<Product>, f: FilterState, sortBy: SortKey)
    ensures OnePrimaryFacet(SaleChosen(f))
    ensures forall p :: p in FilteredProducts(products, SaleChosen(f), sortBy) <==>
      p in products && OnSale(p) && (ColorActive(f) ==> f.color.value in p.colors) && InPriceRange(f, p)
  {
    FilteredMembership(products, SaleChosen(f), sortBy);
  }

  /** After a category click the sale flag is gone; choosing 'all' shows every colour- and price-matching product. */
  lemma CategoryViewDropsSale(products: seq<Product>, f: FilterState, cat: Option<string>, sortBy: SortKey)
    ensures OnePrimaryFacet(CategoryChosen(f, cat))
    ensures cat == Some("all") ==> forall p :: p in FilteredProducts(products, CategoryChosen(f, cat), sortBy) <==>
      p in products && (ColorActive(f) ==> f.color.value in p.colors) && InPriceRange(f, p)
  {
    FilteredMembership(products, CategoryChosen(f, cat), sortBy);
  }

  /** With the filters cleared, every product priced from 0 to 3000 is shown, in catalog order under 'featured'. */
  lemma ClearedShowsPriceRange(products: seq<Product>)
    ensures FilteredProducts(products, ClearedFilters(), Featured)
         == Seqs.Filter(products, PricePred(ClearedFilters()))
  {
    FilterChainIsConjunction(products, ClearedFilters());
    Seqs.FilterExt(products, MatchPred(ClearedFilters()), PricePred(ClearedFilters()));
  }

  // ----------------------------------------------------- the slider ceiling

  function MaxPrice(products: seq<Product>): (m: real)
    requires products != []
    ensures forall p :: p in products ==> p.price <= m
    ensures exists p :: p in products && p.price == m
  {
    if |products| == 1 then products[0].price
    else
      var rest := MaxPrice(products[1..]);
      assert forall p :: p in products[1..] ==> p in products;
      if products[0].price > rest then products[0].price else rest
  }

  /** Math.ceil. */
  function Ceil(x: real): (c: int)
    ensures x <= c as real < x + 1.0
  {
    -((-x).Floor)
  }

  predicate IsMultipleOf100(x: real)
  {
    x == ((x / 100.0).Floor as real) * 100.0
  }

  /** getPriceMax: 1000 for an empty catalog, else the least multiple of 100 at or above the top price. */
  function PriceMax(products: seq<Product>): (r: real)
    ensures products == [] ==> r == EmptyCatalogPriceMax
    ensures IsMultipleOf100(r)
    ensures forall p :: p in products ==> p.price <= r
    ensures products != [] ==> exists p :: p in products && r - 100.0 < p.price
  {
    if products == [] then EmptyCatalogPriceMax
    else
      var m := MaxPrice(products);
      var c := Ceil(m / 100.0);
      assert (c as real * 100.0) / 100.0 == c as real;
      c as real * 100.0
  }

  /** The catalog page's state: the filter record, the sort order and the URL's query parameters. */
  class CatalogPage {
    const products: seq<Product>
    var filters: FilterState
    var sortBy: SortKey
    var params: map<string, string>

    constructor (products: seq<Product>, params: map<string, string>)
      ensures this.products == products && this.params == params
      ensures filters == InitialFilters(params) && sortBy == Featured
    {
      this.products := products;
      this.params := params;
      filters := InitialFilters(params);
      sortBy := Featured;
    }

    /** The products the grid shows. */
    function Shown(): (r: seq<Product>)
      reads this
      ensures forall p :: p in r ==> p in products && Matches(filters, p)
      ensures forall p :: p in products && Matches(filters, p) ==> p in r
    {
      FilteredMembership(products, filters, sortBy);
      FilteredProducts(products, filters, sortBy)
    }

    method HandleCategoryChange(cat: Option<string>)
      modifies this
      ensures filters == CategoryChosen(old(filters), cat) && OnePrimaryFacet(filters)
      ensures var chosen := filters.category;
        params == if chosen.Some? && chosen.value != ""
                  then old(params)["category" := chosen.value] - {"sale"}
                  else old(params) - {"category", "sale"}
      ensures sortBy == old(sortBy)
    {
      filters := CategoryChosen(filters, cat);
      var newCat := filters.category;
      if newCat.Some? && newCat.value != "" {
        params := params["category" := newCat.value] - {"sale"};
      } else {
        params := params - {"category", "sale"};
      }
    }

    method HandleSaleFilter()
      modifies this
      ensures filters == SaleChosen(old(filters)) && OnePrimaryFacet(filters)
      ensures params == (old(params) - {"category"})["sale" := "true"]
      ensures sortBy == old(sortBy)
    {
      filters := SaleChosen(filters);
      params := (params - {"category"})["sale" := "true"];
    }

    method ToggleColor(color: string)
      modifies this
      ensures filters == old(filters).(color := ToggledColor(old(filters).color, color))
      ensures params == old(params) && sortBy == old(sortBy)
    {
      filters := filters.(color := ToggledColor(filters.color, color));
    }

    /** The price slider sets the ceiling only. */
    method SetMaxPrice(value: real)
      modifies this
      ensures filters == old(filters).(maxPrice := value)
      ensures params == old(params) && sortBy == old(sortBy)
    {
      filters := filters.(maxPrice := value);
    }

    method SetSortBy(key: SortKey)
      modifies this
      ensures sortBy == key && filters == old(filters) && params == old(params)
    {
      sortBy := key;
    }

    /** "Clear all filters" resets the record and drops both URL parameters; the sort order stays. */
    method ClearFilters()
      modifies this
      ensures filters == ClearedFilters()
      ensures params == old(params) - {"category", "sale"}
      ensures sortBy == old(sortBy)
    {
      filters := ClearedFilters();
      params := params - {"category", "sale"};
    }
  }
}
