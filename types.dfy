// The storefront's records (types.ts), as immutable values.

module Types {

  datatype Option<T> = None | Some(value: T)

  datatype Result<T, E> = Ok(value: T) | Err(error: E)

  /** A size as the catalog lists it: a number (footwear) or a label such as "M". */
  datatype Size = Numeric(n: real) | Label(text: string)

  /** A catalog entry. Prices are decimal amounts; originalPrice is present for items on sale. */
  datatype Product = Product(
    id: string,
    name: string,
    category: string,
    price: real,
    originalPrice: Option<real>,
    image: string,
    colors: seq<string>,
    sizes: seq<Size>,
    releaseDate: string,
    description: string,
    materialCost: Option<real>,
    materials: Option<seq<string>>)

  /** A cart line: a snapshot of the product plus the chosen variant and how many. */
  datatype CartLine = CartLine(product: Product, quantity: int, selectedSize: Size, selectedColor: string)

  /** The catalog's filter record; `sale` is the page's own extension of the shared type. */
  datatype FilterState = FilterState(
    category: Option<string>,
    minPrice: real,
    maxPrice: real,
    color: Option<string>,
    sale: bool)

  /** The checkout wizard's steps; Cart is declared but never entered. */
  datatype CheckoutStep = Cart | Shipping | Payment | Confirmation

  /** The enum's numeric value. */
  function StepCode(s: CheckoutStep): (code: int)
    ensures 0 <= code <= 3
    ensures code == 1 <==> s == Shipping
    ensures code == 2 <==> s == Payment
    ensures code == 3 <==> s == Confirmation
  {
    match s
    case Cart => 0
    case Shipping => 1
    case Payment => 2
    case Confirmation => 3
  }

  /** Country code to tax rate; a country may be missing. */
  type TaxRates = map<string, real>
}
