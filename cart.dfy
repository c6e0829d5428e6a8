// The shopping cart kept in the application's top-level state (App.tsx):
// add-or-merge by variant, quantity change with a floor of one, removal by
// product id, quick add and the badge count.

module Cart {
  import opened Types
  import Seqs

  /** The line is the given variant: same product id, size and colour. */
  predicate IsVariant(l: CartLine, id: string, size: Size, color: string)
  {
    l.product.id == id && l.selectedSize == size && l.selectedColor == color
  }

  /** Two lines are the same variant. */
  predicate SameKey(a: CartLine, b: CartLine)
  {
    IsVariant(b, a.product.id, a.selectedSize, a.selectedColor)
  }

  /** At most one line per (product id, size, colour). */
  predicate UniqueKeys(cart: seq<CartLine>)
  {
    forall i, j :: 0 <= i < j < |cart| ==> !SameKey(cart[i], cart[j])
  }

  /** Every line has quantity at least one. */
  predicate PositiveQuantities(cart: seq<CartLine>)
  {
    forall i :: 0 <= i < |cart| ==> cart[i].quantity >= 1
  }

  /** Array.prototype.find, as an index: the first line of the given variant. */
  function FindLine(cart: seq<CartLine>, id: string, size: Size, color: string): (r: Option<nat>)
    ensures r.Some? ==> r.value < |cart| && IsVariant(cart[r.value], id, size, color)
    ensures r.Some? ==> forall j :: 0 <= j < r.value ==> !IsVariant(cart[j], id, size, color)
    ensures r.None? ==> forall j :: 0 <= j < |cart| ==> !IsVariant(cart[j], id, size, color)
  {
    if cart == [] then None
    else if IsVariant(cart[0], id, size, color) then Some(0)
    else match FindLine(cart[1..], id, size, color)
      case None => None
      case Some(i) => Some(i + 1)
  }

  /** The cart after addToCart: the first line of the variant gains one, or a new line of one is appended. */
  function Added(cart: seq<CartLine>, product: Product, size: Size, color: string): seq<CartLine>
  {
    match FindLine(cart, product.id, size, color)
    case Some(k) => cart[k := cart[k].(quantity := cart[k].quantity + 1)]
    case None => cart + [CartLine(product, 1, size, color)]
  }

  function Max(a: int, b: int): int { if a < b then b else a }

  /** One line after updateQuantity(id, delta). */
  function UpdatedLine(l: CartLine, id: string, delta: int): CartLine
  {
    if l.product.id == id then l.(quantity := Max(1, l.quantity + delta)) else l
  }

  /** The cart after updateQuantity(id, delta): every line of that product id is changed. */
  function QuantityUpdated(cart: seq<CartLine>, id: string, delta: int): (r: seq<CartLine>)
    ensures |r| == |cart|
    ensures forall i :: 0 <= i < |cart| ==> r[i] == UpdatedLine(cart[i], id, delta)
  {
    seq(|cart|, i requires 0 <= i < |cart| => UpdatedLine(cart[i], id, delta))
  }

  /** Keeps the lines of every other product. */
  function OtherProduct(id: string): CartLine -> bool
  {
    (l: CartLine) => l.product.id != id
  }

  /** Keeps the lines of this product. */
  function ThisProduct(id: string): CartLine -> bool
  {
    (l: CartLine) => l.product.id == id
  }

  /** The cart after removeItem(id): every line of that product id is dropped. */
  function Removed(cart: seq<CartLine>, id: string): (r: seq<CartLine>)
  {
    Seqs.Filter(cart, OtherProduct(id))
  }

  /** The badge count: the sum of the line quantities. */
  function ItemCount(cart: seq<CartLine>): int
  {
    if cart == [] then 0 else cart[0].quantity + ItemCount(cart[1..])
  }

  // ---------------------------------------------------------------- addToCart

  /** Adding a variant already in a well-formed cart raises that line by one and leaves the rest alone. */
  lemma AddPresentIncrements(cart: seq<CartLine>, product: Product, size: Size, color: string, i: nat)
    requires UniqueKeys(cart)
    requires i < |cart| && IsVariant(cart[i], product.id, size, color)
    ensures |Added(cart, product, size, color)| == |cart|
    ensures Added(cart, product, size, color)[i] == cart[i].(quantity := cart[i].quantity + 1)
    ensures forall j :: 0 <= j < |cart| && j != i ==> Added(cart, product, size, color)[j] == cart[j]
  {
    var k := FindLine(cart, product.id, size, color);
    assert k.Some?;
    if k.value != i {
      if k.value < i {
        assert SameKey(cart[k.value], cart[i]);
      } else {
        assert false;
      }
    }
  }

  /** Adding a variant not in the cart appends exactly one line of quantity one at the end. */
  lemma AddAbsentAppends(cart: seq<CartLine>, product: Product, size: Size, color: string)
    requires forall j :: 0 <= j < |cart| ==> !IsVariant(cart[j], product.id, size, color)
    ensures Added(cart, product, size, color) == cart + [CartLine(product, 1, size, color)]
  {
    assert FindLine(cart, product.id, size, color).None?;
  }

  /** After an add, the variant occurs on exactly one line and no two lines share a variant. */
  lemma AddedKeepsKeysUnique(cart: seq<CartLine>, product: Product, size: Size, color: string)
    requires UniqueKeys(cart)
    ensures UniqueKeys(Added(cart, product, size, color))
    ensures exists i :: 0 <= i < |Added(cart, product, size, color)|
                     && IsVariant(Added(cart, product, size, color)[i], product.id, size, color)
  {
    var r := Added(cart, product, size, color);
    match FindLine(cart, product.id, size, color)
    case Some(k) =>
      assert IsVariant(r[k], product.id, size, color);
      forall i, j | 0 <= i < j < |r| ensures !SameKey(r[i], r[j]) {
        assert SameKey(r[i], r[j]) ==> SameKey(cart[i], cart[j]);
      }
    case None =>
      assert IsVariant(r[|cart|], product.id, size, color);
      forall i, j | 0 <= i < j < |r| ensures !SameKey(r[i], r[j]) {
        if j == |cart| {
          assert !IsVariant(cart[i], product.id, size, color);
        }
      }
  }

  /** A different size or colour of the same product is a line of its own. */
  lemma OtherVariantIsSeparateLine(p: Product, size1: Size, color1: string, size2: Size, color2: string)
    requires size1 != size2 || color1 != color2
    ensures Added(Added([], p, size1, color1), p, size2, color2)
         == [CartLine(p, 1, size1, color1), CartLine(p, 1, size2, color2)]
    ensures Added(Added([], p, size1, color1), p, size1, color1) == [CartLine(p, 2, size1, color1)]
  {
    var once := Added([], p, size1, color1);
    assert once == [CartLine(p, 1, size1, color1)];
    AddAbsentAppends(once, p, size2, color2);
    AddPresentIncrements(once, p, size1, color1, 0);
  }

  // ----------------------------------------------------------- updateQuantity

  /** No line's quantity drops below one; other products' lines, length and order are untouched. */
  lemma QuantityUpdatedFloor(cart: seq<CartLine>, id: string, delta: int)
    ensures forall i :: 0 <= i < |cart| && cart[i].product.id == id ==>
      QuantityUpdated(cart, id, delta)[i].quantity >= 1
      && QuantityUpdated(cart, id, delta)[i].quantity >= cart[i].quantity + delta
      && (cart[i].quantity + delta >= 1 ==> QuantityUpdated(cart, id, delta)[i].quantity == cart[i].quantity + delta)
    ensures PositiveQuantities(cart) ==> PositiveQuantities(QuantityUpdated(cart, id, delta))
  {
  }

  /** Changing quantities keeps the variants, so a cart with unique variants keeps them unique. */
  lemma QuantityUpdatedKeepsKeys(cart: seq<CartLine>, id: string, delta: int)
    ensures forall i, j :: 0 <= i < |cart| && 0 <= j < |cart| ==>
      (SameKey(QuantityUpdated(cart, id, delta)[i], QuantityUpdated(cart, id, delta)[j]) <==> SameKey(cart[i], cart[j]))
    ensures UniqueKeys(cart) ==> UniqueKeys(QuantityUpdated(cart, id, delta))
  {
  }

  /** Every size and colour of the product moves together: updateQuantity matches on the product id alone. */
  lemma QuantityUpdatedHitsAllVariants(cart: seq<CartLine>, id: string, delta: int, i: nat, j: nat)
    requires i < |cart| && j < |cart| && i != j
    requires cart[i].product.id == id && cart[j].product.id == id
    requires cart[i].quantity + delta >= 1 && cart[j].quantity + delta >= 1
    ensures QuantityUpdated(cart, id, delta)[i].quantity == cart[i].quantity + delta
    ensures QuantityUpdated(cart, id, delta)[j].quantity == cart[j].quantity + delta
  {
  }

  // --------------------------------------------------------------- removeItem

  /** Removal drops exactly the lines of that product id, keeps the others in order, and ignores an unknown id. */
  lemma RemovedSpec(cart: seq<CartLine>, id: string)
    ensures forall l :: l in Removed(cart, id) ==> l in cart && l.product.id != id
    ensures forall l :: l in cart && l.product.id != id ==> l in Removed(cart, id)
    ensures Seqs.IsSubsequence(Removed(cart, id), cart)
    ensures (forall l :: l in cart ==> l.product.id != id) ==> Removed(cart, id) == cart
  {
    if forall l :: l in cart ==> l.product.id != id {
      Seqs.FilterKeepsAll(cart, OtherProduct(id));
    }
  }

  /** A subsequence of a cart with unique variants and positive quantities has both too. */
  lemma {:induction false} SubsequenceKeepsInvariant(r: seq<CartLine>, cart: seq<CartLine>)
    requires Seqs.IsSubsequence(r, cart)
    requires UniqueKeys(cart) && PositiveQuantities(cart)
    ensures UniqueKeys(r) && PositiveQuantities(r)
    ensures forall l :: l in r ==> l in cart
    decreases |cart|
  {
    if r != [] {
      assert UniqueKeys(cart[1..]) && PositiveQuantities(cart[1..]);
      if r[0] == cart[0] {
        SubsequenceKeepsInvariant(r[1..], cart[1..]);
        forall j | 0 < j < |r| ensures !SameKey(r[0], r[j]) {
          assert r[j] == r[1..][j - 1];
          assert r[j] in cart[1..];
          var k :| 0 <= k < |cart[1..]| && cart[1..][k] == r[j];
          assert cart[k + 1] == r[j];
        }
        assert r == [r[0]] + r[1..];
      } else {
        SubsequenceKeepsInvariant(r, cart[1..]);
      }
    }
  }

  // ---------------------------------------------------------------- the count

  lemma {:induction false} ItemCountAppend(cart: seq<CartLine>, l: CartLine)
    ensures ItemCount(cart + [l]) == ItemCount(cart) + l.quantity
  {
    if cart != [] {
      assert (cart + [l])[1..] == cart[1..] + [l];
      ItemCountAppend(cart[1..], l);
    }
  }

  lemma {:induction false} ItemCountReplace(cart: seq<CartLine>, i: nat, l: CartLine)
    requires i < |cart|
    ensures ItemCount(cart[i := l]) == ItemCount(cart) - cart[i].quantity + l.quantity
  {
    if i > 0 {
      assert cart[i := l][1..] == cart[1..][i - 1 := l];
      ItemCountReplace(cart[1..], i - 1, l);
    }
  }

  /** Every add raises the badge count by exactly one. */
  lemma AddedCount(cart: seq<CartLine>, product: Product, size: Size, color: string)
    ensures ItemCount(Added(cart, product, size, color)) == ItemCount(cart) + 1
  {
    match FindLine(cart, product.id, size, color)
    case Some(k) => ItemCountReplace(cart, k, cart[k].(quantity := cart[k].quantity + 1));
    case None => ItemCountAppend(cart, CartLine(product, 1, size, color));
  }

  /** The count splits into the removed product's quantities and the rest's. */
  lemma {:induction false} RemovedCount(cart: seq<CartLine>, id: string)
    ensures ItemCount(cart) == ItemCount(Removed(cart, id)) + ItemCount(Seqs.Filter(cart, ThisProduct(id)))
  {
    if cart != [] {
      RemovedCount(cart[1..], id);
    }
  }

  /** With every quantity at least one, the badge is at least the number of lines. */
  lemma {:induction false} ItemCountAtLeastLines(cart: seq<CartLine>)
    requires PositiveQuantities(cart)
    ensures ItemCount(cart) >= |cart|
  {
    if cart != [] {
      ItemCountAtLeastLines(cart[1..]);
    }
  }

  /** The application's cart state and the drawer flag. */
  class CartStore {
    var cart: seq<CartLine>
    var isCartOpen: bool

    predicate Valid()
      reads this
    {
      UniqueKeys(cart) && PositiveQuantities(cart)
    }

    constructor ()
      ensures Valid() && cart == [] && !isCartOpen
    {
      cart := [];
      isCartOpen := false;
    }

    method AddToCart(product: Product, size: Size, color: string)
      requires Valid()
      modifies this
      ensures Valid()
      ensures cart == Added(old(cart), product, size, color)
      ensures isCartOpen
    {
      AddedKeepsKeysUnique(cart, product, size, color);
      cart := Added(cart, product, size, color);
      isCartOpen := true;
    }

    method UpdateQuantity(id: string, delta: int)
      requires Valid()
      modifies this
      ensures Valid()
      ensures cart == QuantityUpdated(old(cart), id, delta)
      ensures isCartOpen == old(isCartOpen)
    {
      QuantityUpdatedFloor(cart, id, delta);
      QuantityUpdatedKeepsKeys(cart, id, delta);
      cart := QuantityUpdated(cart, id, delta);
    }

    method RemoveItem(id: string)
      requires Valid()
      modifies this
      ensures Valid()
      ensures cart == Removed(old(cart), id)
      ensures isCartOpen == old(isCartOpen)
    {
      SubsequenceKeepsInvariant(Removed(cart, id), cart);
      cart := Removed(cart, id);
    }

    /** Quick add picks the product's first size and first colour. */
    method QuickAdd(product: Product)
      requires Valid()
      requires |product.sizes| > 0 && |product.colors| > 0
      modifies this
      ensures Valid()
      ensures cart == Added(old(cart), product, product.sizes[0], product.colors[0])
      ensures isCartOpen
    {
      AddToCart(product, product.sizes[0], product.colors[0]);
    }

    method OpenCart()
      modifies this
      ensures isCartOpen && cart == old(cart)
    {
      isCartOpen := true;
    }

    method CloseCart()
      modifies this
      ensures !isCartOpen && cart == old(cart)
    {
      isCartOpen := false;
    }

    /** The badge shown on the navigation bar. */
    function CartCount(): (n: int)
      reads this
      ensures n == ItemCount(cart)
      ensures Valid() ==> n >= |cart|
    {
      if Valid() then ItemCountAtLeastLines(cart); ItemCount(cart) else ItemCount(cart)
    }
  }
}
