# StrideZero storefront: a verified model of its sequential logic

StrideZero is a client-side storefront. Most of it is page markup. This project models the part that holds rules:

- **Cart** (`App.tsx`). The cart is a list of lines, each a product snapshot with a chosen size, a chosen colour and a quantity. Adding a (product id, size, colour) that is already present raises that line's quantity by one. Any other add appends a line of quantity one. `updateQuantity` and `removeItem` match on the product id alone, so they change every size and colour of that product. Quantities are clamped at one. The navigation badge shows the sum of the quantities.
- **Catalog** (`pages/Catalog.tsx`). The visible products come from a filter chain (category, sale, colour, price range) followed by an optional stable sort by price, done on a copy. The sidebar buttons change the filter record and the URL's query parameters. The price slider's ceiling is `getPriceMax`.
- **Checkout** (`pages/Checkout.tsx`). It derives subtotal, shipping, tax and total from the cart. It builds the order payload for the order sink. It runs a wizard of three steps: Shipping, Payment, Confirmation. The cart and the country can change while the page is open, through the cart drawer and the country selector; the totals follow them.
- **Product page** (`pages/ProductDetails.tsx`). It converts sizes for the US, UK and EU charts. It shows a per-product tax, discount and total breakdown. Its add-to-cart handler only fires once a size and a colour are chosen.
- **Sign-in stub** (`services/authService.ts`). `login` checks that both fields are filled. It derives the role and the display name from the e-mail address and builds a simulated token.

Each source file has its own module: `Cart`, `Catalog`, `Checkout`, `ProductDetails` and `Auth`. `Types` holds the records of `types.ts`. `Strings`, `Seqs` and `Sorting` model the JavaScript built-ins the code relies on: `toLowerCase`, number-to-text, `join`, `filter`, and the stable `sort`.

Modelling choices:

- State that a page or the application updates through React setters is a class whose fields are that state. These are `Cart.CartStore`, `Catalog.CatalogPage`, `Checkout.CheckoutPage` and `ProductDetails.ProductPage`. Each method's `ensures` gives the whole new state as a pure function of the old one, and the lemmas are about those functions.
- Money and sizes are `real`. Quantities are `int`. Nothing is rounded except where the code rounds.
- JavaScript truthiness is written out:
  - `TAX_RATES[c] || 0.0825` falls back when the entry is missing or zero.
  - `p.originalPrice && …` needs a present, non-zero value.
  - `filters.category && …` skips null and the empty string.
  - A chosen size is a non-zero number or a non-empty label.
- `Math.round(x)` is `floor(x + 1/2)`. `Math.ceil` is the negated floor of the negation. `toFixed(2)` becomes whole cents, with halves rounded away from zero.
- The tax table, the product list and the clock are parameters: `rates`, `products`, the two readings `tokenTime`/`idTime`, and `dateTime`.
- `handlePayment` is split at its `await`. `BeginPayment` sets the submitting flag and returns the payload. `FinishPayment(delivered)` receives the sink's answer and ignores it. Between the two, the Pay button is disabled but "Return to Shipping" is not. The step machine `Checkout.Next` therefore has the click on Pay and the sink's answer as separate events over (step, submitting). The answer moves to Confirmation from whichever step is shown.

Behaviours of the code worth knowing:

- Tax is never rounded (`pages/Checkout.tsx:49`); only the display uses `toFixed`. A subtotal of 270 at 8.25% gives a tax of 22.275 and a total of 292.275 (`Checkout.FallbackRateExample`).
- "Continue to Payment" checks no field of the shipping form (`pages/Checkout.tsx:189`).
- `updateQuantity` and `removeItem` match the product id only, so they act on every size and colour of that product (`App.tsx:51`, `App.tsx:59`).
- The product page falls back to a 0 tax rate for a country missing from the table (`pages/ProductDetails.tsx:24`), checkout to 8.25% (`pages/Checkout.tsx:48`). `ProductDetails.PageTaxVersusCheckout` states exactly when the two disagree.
- A payment answered after "Return to Shipping" still ends in Confirmation, straight from the shipping step (`Checkout.AnswerAfterReturnConfirms`).

## Model

| member | source | states |
|---|---|---|
| Types.StepCode | types.ts:36-41 | Cart, Shipping, Payment and Confirmation carry the distinct values 0, 1, 2, 3, in that order |
| Cart.FindLine | App.tsx:33-37 | `find` by variant: the first line with that id, size and colour, or none when no line matches |
| Cart.AddPresentIncrements | App.tsx:33-42 | adding a variant already in a cart with unique variants raises exactly that line by one; length and every other line unchanged |
| Cart.AddAbsentAppends | App.tsx:44 | adding an absent variant appends one line at the end with quantity 1, the chosen size and colour |
| Cart.AddedKeepsKeysUnique | App.tsx:31-45 | after any add, no two lines share a (product id, size, colour) and the added variant is present |
| Cart.OtherVariantIsSeparateLine | App.tsx:31-45 | the same product in another size or colour is a second line; the same variant twice is one line of quantity 2 |
| Cart.QuantityUpdated | App.tsx:49-56 | length and order are kept; each line of the id becomes max(1, q + delta), every other line is untouched |
| Cart.QuantityUpdatedFloor | App.tsx:52 | no updated line drops below 1; the delta is applied exactly when that stays at least 1; positive quantities stay positive |
| Cart.QuantityUpdatedKeepsKeys | App.tsx:49-56 | quantity changes keep every line's variant, so unique variants stay unique |
| Cart.QuantityUpdatedHitsAllVariants | App.tsx:51 | two different lines of the same product id (any sizes or colours) both change by delta |
| Cart.RemovedSpec | App.tsx:58-60 | removal keeps exactly the lines of other product ids, in order, and leaves the cart unchanged for an unknown id |
| Cart.SubsequenceKeepsInvariant | App.tsx:58-60 | what removal leaves still has unique variants and positive quantities |
| Cart.AddedCount | App.tsx:73 | every add raises the badge count by exactly one |
| Cart.RemovedCount | App.tsx:58-60 | the count before removal is the count after plus the removed product's quantities |
| Cart.ItemCountAtLeastLines | App.tsx:73 | with positive quantities the badge count is at least the number of lines |
| Cart.CartStore.constructor | App.tsx:21-22 | the cart starts empty and the drawer closed |
| Cart.CartStore.AddToCart | App.tsx:31-47 | the cart becomes the add-or-merge result, the drawer opens, the cart invariant is kept |
| Cart.CartStore.UpdateQuantity | App.tsx:49-56 | the cart becomes the clamped update of every line of that id; the drawer flag is unchanged |
| Cart.CartStore.RemoveItem | App.tsx:58-60 | the cart becomes the lines of other ids; the invariant is kept |
| Cart.CartStore.QuickAdd | App.tsx:62-65 | quick add is an add of the product's first size and first colour |
| Cart.CartStore.OpenCart | App.tsx:74 | the badge button opens the drawer and leaves the cart alone |
| Cart.CartStore.CloseCart | App.tsx:85 | closing the drawer leaves the cart alone |
| Cart.CartStore.CartCount | App.tsx:73 | the badge is the sum of the quantities and, in a valid cart, at least the number of lines |
| Seqs.Filter | pages/Catalog.tsx:59-67 | `filter` keeps the elements meeting the predicate and no other, as a subsequence of its input |
| Seqs.FilterMultiplicity | pages/Catalog.tsx:59-67 | each element meeting the predicate occurs in the result exactly as often as in the input; any other element not at all |
| Seqs.FilterCommutes | pages/Catalog.tsx:58-67 | two filters give the same result in either order |
| Sorting.SortByKeySpec | pages/Catalog.tsx:70-74 | the sorted copy is non-decreasing by key and a permutation of its input |
| Sorting.SortByKeyStable | pages/Catalog.tsx:70-74 | elements with equal keys keep their input order |
| Catalog.FilterChainIsConjunction | pages/Catalog.tsx:55-67 | the four-stage chain equals one filter by the conjunction of the active filters |
| Catalog.FilteredMembership | pages/Catalog.tsx:55-77 | a product is shown exactly when it is in the catalog and passes every active filter, under every sort; sorting only permutes |
| Catalog.FeaturedKeepsCatalogOrder | pages/Catalog.tsx:55-76 | under 'featured' the result is the filtered catalog in catalog order, a subsequence of the catalog |
| Catalog.PriceSortOrders | pages/Catalog.tsx:70-74 | 'price-asc' is non-decreasing and 'price-desc' non-increasing by price |
| Catalog.PriceSortIsStable | pages/Catalog.tsx:70-74 | products of equal price appear in catalog order under either sort |
| Catalog.CategoryIgnoresCase | pages/Catalog.tsx:58-59 | the category test ignores letter case on both sides |
| Catalog.InitialFilters | pages/Catalog.tsx:28-37 | first render: category from the URL unless empty, sale only for the text 'true', price 0 to 3000, no colour |
| Catalog.CategoryChosen | pages/Catalog.tsx:86-88 | choosing a category maps 'all' to none, clears sale, keeps colour and prices |
| Catalog.SaleChosen | pages/Catalog.tsx:99-100 | choosing sale sets the flag and clears the category, keeps colour and prices |
| Catalog.ToggledColor | pages/Catalog.tsx:239 | clicking the selected colour clears it; any other click selects the clicked colour |
| Catalog.ClearedFilters | pages/Catalog.tsx:341 | clearing leaves no category, sale or colour filter and the range 0 to 3000 |
| Catalog.SaleViewIgnoresCategory | pages/Catalog.tsx:99-100 | after the sale button the view is the on-sale products of the colour and price range, whatever category was set |
| Catalog.CategoryViewDropsSale | pages/Catalog.tsx:86-88 | after a category button category and sale are not both in force; 'all' shows every colour- and price-matching product |
| Catalog.ClearedShowsPriceRange | pages/Catalog.tsx:340-345 | with filters cleared, 'featured' shows the catalog's products priced 0 to 3000 in order |
| Catalog.MaxPrice | pages/Catalog.tsx:108 | the largest price: an upper bound that some product attains |
| Catalog.Ceil | pages/Catalog.tsx:109 | `Math.ceil`: the least integer at or above x |
| Catalog.PriceMax | pages/Catalog.tsx:106-110 | 1000 for an empty catalog; otherwise a multiple of 100 at or above every price and less than 100 above the top price |
| Catalog.CatalogPage.constructor | pages/Catalog.tsx:26-53 | filters start from the URL parameters, sort starts at 'featured' |
| Catalog.CatalogPage.Shown | pages/Catalog.tsx:55-77 | the grid shows exactly the catalog products that match the current filters |
| Catalog.CatalogPage.HandleCategoryChange | pages/Catalog.tsx:86-97 | new filter record as chosen; URL gets the category and loses 'sale', or loses both when no category |
| Catalog.CatalogPage.HandleSaleFilter | pages/Catalog.tsx:99-104 | sale record as chosen; URL loses 'category' and gets sale=true |
| Catalog.CatalogPage.ToggleColor | pages/Catalog.tsx:239 | only the colour changes, by the toggle rule |
| Catalog.CatalogPage.SetMaxPrice | pages/Catalog.tsx:219 | the slider changes only the price ceiling |
| Catalog.CatalogPage.SetSortBy | pages/Catalog.tsx:133 | the select changes only the sort order |
| Catalog.CatalogPage.ClearFilters | pages/Catalog.tsx:340-345 | filters reset, both URL parameters dropped, sort order kept |
| Checkout.ShippingCost | pages/Checkout.tsx:47 | shipping is 0 exactly when the subtotal is strictly above 200, else 15 |
| Checkout.TaxRate | pages/Checkout.tsx:48 | the table's rate unless missing or zero, then 0.0825 |
| Checkout.TotalsSpec | pages/Checkout.tsx:34-54 | subtotal is the cart sum; total is subtotal plus shipping plus the unrounded tax |
| Checkout.TotalBounds | pages/Checkout.tsx:45-54 | the total lies between the taxed subtotal and that plus 15, and equals the taxed subtotal above 200 |
| Checkout.ThresholdLowersTotal | pages/Checkout.tsx:47-53 | going from a subtotal at or below 200 to one above it lowers the total whenever the taxed extra goods cost less than the 15 saved |
| Checkout.SubtotalAfterAdd | pages/Checkout.tsx:36 | an add raises the subtotal by one unit price of the merged or new line |
| Checkout.SubtotalNonNegative | pages/Checkout.tsx:36 | non-negative prices and quantities give a non-negative subtotal |
| Checkout.EmptyCartTotals | pages/Checkout.tsx:36-53 | an empty cart totals 15: shipping only |
| Checkout.FallbackRateExample | pages/Checkout.tsx:47-79 | subtotal 270 at the fallback rate: free shipping, tax 22.275, total 292.275, which is a tie and goes to the payload as 29228 cents |
| Checkout.ToCents | pages/Checkout.tsx:79 | the total's `toFixed(2)` is the whole number of cents nearest the exact total; a tie goes to the larger magnitude |
| Checkout.Summaries | pages/Checkout.tsx:65 | one `name (Qty: n)` entry per line, in cart order |
| Checkout.ProductNamesAppend | pages/Checkout.tsx:65 | a further line adds ", " and its entry at the end; a single line's entry stands alone |
| Checkout.SummaryQuantityReadsBack | pages/Checkout.tsx:65 | the quantity text in an entry reads back as the line's quantity |
| Checkout.OrderFor | pages/Checkout.tsx:64-81 | the payload copies the form fields and carries the summary, the time given, and the total rounded to cents as `toFixed(2)` rounds it |
| Checkout.StepAfterMoves | pages/Checkout.tsx:61-93 | an event keeps the step, advances Shipping to Payment (Continue), takes Payment back to Shipping (Return), or jumps to Confirmation from any step as the answer to a pending payment; a payment becomes pending only by Pay on the payment step |
| Checkout.AnswerAfterReturnConfirms | pages/Checkout.tsx:84-93 | Continue, Pay, Return leaves the shipping step shown with the payment pending; the sink's answer then confirms |
| Checkout.RunNeverCart | pages/Checkout.tsx:14-15 | starting at Shipping, the wizard never enters the Cart step, and a pending payment is never on the confirmation step |
| Checkout.ShippingAlwaysLit | pages/Checkout.tsx:96-114 | the indicator's Shipping stage is always lit, and its Payment stage exactly when the step is past Shipping |
| Checkout.ConfirmationIsFinal | pages/Checkout.tsx:247-262 | once at Confirmation every later event leaves it there |
| Checkout.PendingNeedsPay | pages/Checkout.tsx:61-62 | a payment is pending only after a click on Pay |
| Checkout.ConfirmationNeedsPayment | pages/Checkout.tsx:61-93 | Confirmation is reached only by the sink's answer to an earlier click on Pay |
| Checkout.CheckoutPage.constructor | pages/Checkout.tsx:14-25 | the page starts at Shipping, not submitting, with an empty form |
| Checkout.CheckoutPage.UpdateField | pages/Checkout.tsx:56-59 | typing changes one form field only |
| Checkout.CheckoutPage.CartChanged | pages/Checkout.tsx:34-38 | a cart changed in the drawer replaces the page's cart; step, submitting flag and form stay |
| Checkout.CheckoutPage.CountryChanged | pages/Checkout.tsx:40-54 | a new country replaces the page's country; step, submitting flag and form stay |
| Checkout.CheckoutPage.ContinueToPayment | pages/Checkout.tsx:189 | Continue, on the shipping step, moves to Payment with no check of the form, as `Next` does |
| Checkout.CheckoutPage.ReturnToShipping | pages/Checkout.tsx:237-242 | Return, on the payment step, moves to Shipping even while submitting, as `Next` does |
| Checkout.CheckoutPage.BeginPayment | pages/Checkout.tsx:61-84 | Pay, on the payment step and not while disabled, sets submitting and returns the payload built from the form, the cart and the total at that moment |
| Checkout.CheckoutPage.FinishPayment | pages/Checkout.tsx:84-93 | whatever the sink answered and whichever step is shown, submitting is cleared and the step is Confirmation, as `Next` does |
| ProductDetails.Round | pages/ProductDetails.tsx:67 | `Math.round`: the nearest integer, halves up |
| ProductDetails.RenderSizeKeeps | pages/ProductDetails.tsx:56-69 | labels are shown unchanged in every region, and the US chart shows numbers unchanged |
| ProductDetails.UkSizeAtLeastOne | pages/ProductDetails.tsx:60-62 | the UK size is max(1, n - 1), never below 1 |
| ProductDetails.EuSizeOffsets | pages/ProductDetails.tsx:63-68 | the EU size is round(n + 31) below 6 and round(n + 33) from 6; for whole n exactly n + 31 or n + 33 |
| ProductDetails.RenderSizeMonotone | pages/ProductDetails.tsx:56-70 | every chart keeps the order of numeric sizes |
| ProductDetails.PageTaxRate | pages/ProductDetails.tsx:24 | the table's rate, or 0 when the country is missing |
| ProductDetails.BreakdownSpec | pages/ProductDetails.tsx:24-27 | tax is price times the page rate; the discount is originalPrice minus price when originalPrice is present and non-zero, and 0 otherwise (0 is falsy); the final total is price plus tax, discount not subtracted |
| ProductDetails.PageTaxVersusCheckout | pages/ProductDetails.tsx:24-25 | the page's tax equals the checkout's tax on one unit exactly when the country has a non-zero rate or the price is 0 |
| ProductDetails.ProductPage.constructor | pages/ProductDetails.tsx:16-36 | mounting leaves the first colour, no size and the US chart |
| ProductDetails.ProductPage.ShowProduct | pages/ProductDetails.tsx:29-36 | a different, found product resets colour to its first, size to none, region to US |
| ProductDetails.ProductPage.SelectColor | pages/ProductDetails.tsx:203 | a colour button sets only the colour |
| ProductDetails.ProductPage.SelectSize | pages/ProductDetails.tsx:236 | a size button sets only the size |
| ProductDetails.ProductPage.SelectRegion | pages/ProductDetails.tsx:223 | a region button sets only the chart region |
| ProductDetails.ProductPage.HandleAddToCart | pages/ProductDetails.tsx:42-46 | the cart is added to exactly when both a size and a colour are chosen, and is untouched otherwise |
| Auth.RoleFor | services/authService.ts:5-17 | admin exactly when the lower-cased address is admin@stridezero.com |
| Auth.NameFromEmail | services/authService.ts:24 | the name is a prefix of the address without '@', ending at the first '@' or at the end |
| Auth.NameIsPartBeforeFirstAt | services/authService.ts:24 | that description determines the name uniquely |
| Auth.Login | services/authService.ts:7-33 | fails exactly when the address or the password is empty; otherwise keeps the address as typed, takes the name before '@', derives the role, builds the token from the first clock reading and the id from the second |
| Auth.Register | services/authService.ts:35-51 | no field check; the name and address are kept as given, with the same role rule and the same token and id from two clock readings |
| Auth.TokenEndsWithRole | services/authService.ts:20 | the token ends with "." and the role's name |
| Auth.RoleIgnoresCase | services/authService.ts:17 | addresses equal up to letter case get the same role |
| Auth.AdminExamples | services/authService.ts:5-17 | "ADMIN@StrideZero.com" is an administrator, another address a customer |
| Auth.LoginRegisterAgree | services/authService.ts:12-38 | login and register agree on the role; register accepts the empty input login refuses |
| Auth.NameExample | services/authService.ts:24 | "jane.doe@mail.com" signs in as "jane.doe"; an address without '@' is its own name |

## Left out

- Rendering, routing, the AI chat and marketing services, the admin report's random data, the banner and footer: they hold no stateable logic, or they call foreign code.
- The order sink's network call (`services/googleSheetsService.ts`) and the PayPal tab (`window.open`): the sink is the `delivered` argument of `FinishPayment`, which the page ignores. The payment link's amount is the same `toFixed(2)` total as the payload's.
- The `setTimeout` delays, `Date.now()` and `toLocaleString()`: the clock readings are the `tokenTime`/`idTime` and `dateTime` parameters.
- localStorage, `logout` and `getCurrentUser`: they only store and parse the session record.
- The URL-to-filters sync effect (`pages/Catalog.tsx:40-50`): it re-reads the query parameters on navigation.
- `isProductNew` and the "Fresh Drops" list: they depend on the wall clock and on a constants module that is not part of this model.
- The displayed tax rate (`taxRate` state in Checkout), which no total uses.
- IEEE-754 doubles: all arithmetic is exact over `real`, so float rounding artefacts are not reproduced. NaN and infinities are not modelled.
- Checkout.ToCents: rounds the exact total. A double holding a decimal tie such as 292.275 may lie slightly above or below it, so the browser's printed cent can differ from the model's at a tie.
- Strings.ToLower: lower-cases ASCII letters only, not the full Unicode mapping of `toLowerCase`.
- Checkout.CheckoutPage.CurrentTotals: the totals are those the effects compute for the current cart and country; the single render in which the `total` state still lags a just-changed cart is not modelled.
- Checkout.OrderFor: the total is whole cents rather than the text `toFixed(2)` prints.
- Cart.CartStore.QuickAdd: requires a product with at least one size and one colour, as the catalog's products have; with empty lists JavaScript would add a line with undefined size and colour.
- Cart.CartStore.AddToCart: does not check that the size and colour belong to the product, and neither does the code.
- `renderSize`'s result type mixes numbers and strings. The model returns a `Size`.
