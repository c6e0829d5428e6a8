// The product page (pages/ProductDetails.tsx): the size chart conversion,
// the per-product price breakdown, and the selection state with its
// add-to-cart guard.

module ProductDetails {
  import opened Types
  import Cart
  import Checkout

  datatype Region = US | UK | EU

  /** Math.round: the nearest integer, halves rounded up. */
  function Round(x: real): (r: int)
    ensures r as real - 0.5 <= x < r as real + 0.5
  {
    (x + 0.5).Floor
  }

  function MaxReal(a: real, b: real): real { if a < b then b else a }

  /** renderSize: labels are shown as they are; numbers are converted for the UK and EU charts. */
  function RenderSize(size: Size, region: Region): Size
  {
    match size
    case Label(_) => size
    case Numeric(n) =>
      match region
      case UK => Numeric(MaxReal(1.0, n - 1.0))
      case EU => if n < 6.0 then Numeric(Round(n + 31.0) as real) else Numeric(Round(n + 33.0) as real)
      case US => size
  }

  /** Labels never change, and the US chart shows the catalog's own numbers. */
  lemma RenderSizeKeeps(size: Size, region: Region)
    ensures size.Label? ==> RenderSize(size, region) == size
    ensures RenderSize(size, US) == size
    ensures RenderSize(size, region).Label? == size.Label?
  {
  }

  /** The UK size is one less, but never below 1. */
  lemma UkSizeAtLeastOne(n: real)
    ensures RenderSize(Numeric(n), UK).n >= 1.0
    ensures n >= 2.0 ==> RenderSize(Numeric(n), UK).n == n - 1.0
    ensures n < 2.0 ==> RenderSize(Numeric(n), UK).n == 1.0
  {
  }

  /** The EU size is a whole number within half a size of n + 31 below US 6 and of n + 33 from US 6 up. */
  lemma EuSizeOffsets(n: real)
    ensures var e := RenderSize(Numeric(n), EU).n;
      && e == e.Floor as real
      && (n < 6.0 ==> n + 31.0 - 0.5 < e <= n + 31.0 + 0.5)
      && (n >= 6.0 ==> n + 33.0 - 0.5 < e <= n + 33.0 + 0.5)
    ensures n == n.Floor as real ==> RenderSize(Numeric(n), EU).n == if n < 6.0 then n + 31.0 else n + 33.0
  {
    if n == n.Floor as real {
      var k := n.Floor;
      assert Round(n + 31.0) == k + 31 && Round(n + 33.0) == k + 33;
    }
  }

  lemma RoundMonotone(x: real, y: real)
    requires x <= y
    ensures Round(x) <= Round(y)
  {
  }

  /** Every chart keeps the order of numeric sizes: a larger US size never shows smaller. */
  lemma RenderSizeMonotone(m: real, n: real, region: Region)
    requires m <= n
    ensures RenderSize(Numeric(m), region).n <= RenderSize(Numeric(n), region).n
  {
    match region
    case EU =>
      if m < 6.0 && n >= 6.0 {
        RoundMonotone(m + 31.0, n + 33.0);
      } else if m < 6.0 {
        RoundMonotone(m + 31.0, n + 31.0);
      } else {
        RoundMonotone(m + 33.0, n + 33.0);
      }
    case UK =>
    case US =>
  }

  // -------------------------------------------------------------- breakdown

  /** `TAX_RATES[country] || 0.0`: the table's rate, or nothing when the country is missing. */
  function PageTaxRate(rates: TaxRates, country: string): (r: real)
    ensures country in rates ==> r == rates[country]
    ensures country !in rates ==> r == 0.0
  {
    if country in rates && rates[country] != 0.0 then rates[country] else 0.0
  }

  datatype Breakdown = Breakdown(taxRate: real, estimatedTax: real, discount: real, finalTotal: real)

  /** The transparency box; all zero when the product is not found. */
  function BreakdownFor(product: Option<Product>, rates: TaxRates, country: string): Breakdown
  {
    var rate := PageTaxRate(rates, country);
    match product
    case None => Breakdown(rate, 0.0, 0.0, 0.0)
    case Some(p) =>
      var discount := if p.originalPrice.Some? && p.originalPrice.value != 0.0 then p.originalPrice.value - p.price else 0.0;
      Breakdown(rate, p.price * rate, discount, p.price + p.price * rate)
  }

  /** The final total is the price with tax and does not subtract the displayed discount. */
  lemma BreakdownSpec(p: Product, rates: TaxRates, country: string)
    ensures var b := BreakdownFor(Some(p), rates, country);
      && b.estimatedTax == p.price * PageTaxRate(rates, country)
      && b.finalTotal == p.price * (1.0 + PageTaxRate(rates, country))
      && b.finalTotal == p.price + b.estimatedTax
      && (p.originalPrice.Some? && p.originalPrice.value != 0.0 ==> b.discount == p.originalPrice.value - p.price)
      && (!(p.originalPrice.Some? && p.originalPrice.value != 0.0) ==> b.discount == 0.0)
    ensures country !in rates ==> BreakdownFor(Some(p), rates, country).finalTotal == p.price
  {
  }

  /**
   * The page's estimated tax agrees with the checkout's tax on one unit of the
   * product exactly when the country has a non-zero rate or the price is zero:
   * the page falls back to no tax, the checkout to 8.25%.
   */
  lemma PageTaxVersusCheckout(p: Product, size: Size, color: string, rates: TaxRates, country: string)
    ensures var line := [CartLine(p, 1, size, color)];
      (BreakdownFor(Some(p), rates, country).estimatedTax == Checkout.ComputeTotals(line, rates, country).tax)
      <==> (country in rates && rates[country] != 0.0) || p.price == 0.0
  {
    var line := [CartLine(p, 1, size, color)];
    assert Checkout.Subtotal(line) == p.price;
    if !(country in rates && rates[country] != 0.0) && p.price != 0.0 {
      assert Checkout.ComputeTotals(line, rates, country).tax == p.price * Checkout.FallbackTaxRate;
      assert p.price * Checkout.FallbackTaxRate != 0.0;
    }
  }

  // ---------------------------------------------------------- selection state

  /** A chosen size is truthy: a non-zero number or a non-empty label. */
  predicate SizeChosen(size: Option<Size>)
  {
    size.Some? && match size.value
      case Numeric(n) => n != 0.0
      case Label(t) => t != ""
  }

  predicate ColorChosen(color: Option<string>)
  {
    color.Some? && color.value != ""
  }

  /** `product.colors[0]`, with an empty colour list giving no colour. */
  function FirstColor(p: Product): Option<string>
  {
    if |p.colors| > 0 then Some(p.colors[0]) else None
  }

  /** The page's selections for the product it shows. */
  class ProductPage {
    var product: Option<Product>
    var selectedSize: Option<Size>
    var selectedColor: Option<string>
    var sizeRegion: Region

    /**
   * Mounting: the initial state, then the reset effect's first run. When the product is
   * found the effect's colors[0] replaces the initial `colors[0] || null`.
   */
    constructor (product: Option<Product>)
      ensures this.product == product && selectedSize == None && sizeRegion == US
      ensures selectedColor == if product.Some? then FirstColor(product.value) else None
    {
      this.product := product;
      selectedSize := None;
      selectedColor := if product.Some? then FirstColor(product.value) else None;
      sizeRegion := US;
    }

    /** The route shows another product; the reset effect runs when the product changed and was found. */
    method ShowProduct(p: Option<Product>)
      modifies this
      ensures product == p
      ensures p != old(product) && p.Some? ==> selectedColor == FirstColor(p.value) && selectedSize == None && sizeRegion == US
      ensures p == old(product) || p.None? ==>
        selectedColor == old(selectedColor) && selectedSize == old(selectedSize) && sizeRegion == old(sizeRegion)
    {
      var changed := p != product;
      product := p;
      if changed && p.Some? {
        selectedColor := FirstColor(p.value);
        selectedSize := None;
        sizeRegion := US;
      }
    }

    method SelectColor(color: string)
      modifies this
      ensures selectedColor == Some(color)
      ensures product == old(product) && selectedSize == old(selectedSize) && sizeRegion == old(sizeRegion)
    {
      selectedColor := Some(color);
    }

    method SelectSize(size: Size)
      modifies this
      ensures selectedSize == Some(size)
      ensures product == old(product) && selectedColor == old(selectedColor) && sizeRegion == old(sizeRegion)
    {
      selectedSize := Some(size);
    }

    method SelectRegion(region: Region)
      modifies this
      ensures sizeRegion == region
      ensures product == old(product) && selectedSize == old(selectedSize) && selectedColor == old(selectedColor)
    {
      sizeRegion := region;
    }

    /** handleAddToCart: the cart is touched only when both a size and a colour are chosen. */
    method HandleAddToCart(store: Cart.CartStore)
      requires product.Some?
      requires store.Valid()
      modifies store
      ensures store.Valid()
      ensures SizeChosen(selectedSize) && ColorChosen(selectedColor) ==>
        store.cart == Cart.Added(old(store.cart), product.value, selectedSize.value, selectedColor.value) && store.isCartOpen
      ensures !(SizeChosen(selectedSize) && ColorChosen(selectedColor)) ==>
        store.cart == old(store.cart) && store.isCartOpen == old(store.isCartOpen)
    {
      if SizeChosen(selectedSize) && ColorChosen(selectedColor) {
        store.AddToCart(product.value, selectedSize.value, selectedColor.value);
      }
    }
  }
}
