/** The shopping cart's pure operations (src/pages/Index.tsx): every change
    computes a new cart from the old one, as `setCart(...)` does. */
module Cart {
  import opened Options
  import opened Pricing
  import Seqs

  /** A cart line: the product's fields spread into the item, plus the
      customization it was added with (absent fields are `None`). */
  datatype CartItem = CartItem(
    product: Product,
    quantity: int,
    selectedSize: Option<string>,
    selectedCrust: Option<string>,
    selectedToppings: Option<seq<string>>,
    customPrice: Option<real>)

  function ChosenSize(c: Option<Customization>): Option<string> {
    if c.Some? then Some(c.value.size) else None
  }
  function ChosenCrust(c: Option<Customization>): Option<string> {
    if c.Some? then Some(c.value.crust) else None
  }
  function ChosenToppings(c: Option<Customization>): Option<seq<string>> {
    if c.Some? then Some(c.value.toppings) else None
  }
  function ChosenPrice(c: Option<Customization>): Option<real> {
    if c.Some? then Some(c.value.totalPrice) else None
  }

  /** The `find` condition of `addToCart`: same product id, same topping list
      (compared through `JSON.stringify`), same size and same crust. */
  predicate SameLine(item: CartItem, product: Product, c: Option<Customization>) {
    && item.product.id == product.id
    && item.selectedToppings == ChosenToppings(c)
    && item.selectedSize == ChosenSize(c)
    && item.selectedCrust == ChosenCrust(c)
  }

  /** The line `addToCart` appends: quantity 1 and the customization's total
      as its custom price; the customization's own quantity is not used. */
  function NewLine(product: Product, c: Option<Customization>): CartItem {
    CartItem(product, 1, ChosenSize(c), ChosenCrust(c), ChosenToppings(c), ChosenPrice(c))
  }

  /** `addToCart`: bump the first matching line by one, or append a new line. */
  function AddToCart(cart: seq<CartItem>, product: Product, c: Option<Customization>): (r: seq<CartItem>)
    ensures |r| == |cart| || r == cart + [NewLine(product, c)]
  {
    match Seqs.FindFirst(cart, (item: CartItem) => SameLine(item, product, c))
    case Some(k) => cart[k := cart[k].(quantity := cart[k].quantity + 1)]
    case None => cart + [NewLine(product, c)]
  }

  /** With a matching line at `k` and none before it, only line `k` changes,
      and only by one more unit. */
  lemma AddToCartMerges(cart: seq<CartItem>, product: Product, c: Option<Customization>, k: nat)
    requires k < |cart| && SameLine(cart[k], product, c)
    requires forall j :: 0 <= j < k ==> !SameLine(cart[j], product, c)
    ensures var r := AddToCart(cart, product, c);
      && |r| == |cart|
      && r[k] == cart[k].(quantity := cart[k].quantity + 1)
      && forall j :: 0 <= j < |cart| && j != k ==> r[j] == cart[j]
  {
    Seqs.FindFirstIs(cart, (item: CartItem) => SameLine(item, product, c), k);
  }

  /** With no matching line, exactly one new line is appended and the earlier
      lines are kept. */
  lemma AddToCartAppends(cart: seq<CartItem>, product: Product, c: Option<Customization>)
    requires forall j :: 0 <= j < |cart| ==> !SameLine(cart[j], product, c)
    ensures var r := AddToCart(cart, product, c);
      && r[..|cart|] == cart && |r| == |cart| + 1
      && r[|cart|].quantity == 1 && r[|cart|].product == product
      && r[|cart|].customPrice == ChosenPrice(c)
  {
    var found := Seqs.FindFirst(cart, (item: CartItem) => SameLine(item, product, c));
    assert found.None?;
    assert (cart + [NewLine(product, c)])[..|cart|] == cart;
  }

  /** `removeFromCart`: `cart.filter((_, i) => i !== index)`. */
  function RemoveFromCart(cart: seq<CartItem>, index: int): (r: seq<CartItem>)
    ensures 0 <= index < |cart| ==>
      && |r| == |cart| - 1
      && (forall j :: 0 <= j < index ==> r[j] == cart[j])
      && (forall j :: index <= j < |r| ==> r[j] == cart[j + 1])
    ensures !(0 <= index < |cart|) ==> r == cart
  {
    if 0 <= index < |cart| then cart[..index] + cart[index + 1..] else cart
  }

  /** `updateQuantity`: 0 removes the line; any other number replaces line
      `index`'s quantity (an index out of range changes nothing). */
  function UpdateQuantity(cart: seq<CartItem>, index: int, quantity: int): (r: seq<CartItem>)
    ensures quantity == 0 ==> r == RemoveFromCart(cart, index)
    ensures quantity != 0 ==> |r| == |cart|
    ensures quantity != 0 ==> forall j :: 0 <= j < |cart| ==>
      r[j] == if j == index then cart[j].(quantity := quantity) else cart[j]
  {
    if quantity == 0 then RemoveFromCart(cart, index)
    else if 0 <= index < |cart| then cart[index := cart[index].(quantity := quantity)]
    else cart
  }

  predicate AllPositive(cart: seq<CartItem>) {
    forall j :: 0 <= j < |cart| ==> cart[j].quantity >= 1
  }

  /** The cart's minus and plus buttons (`updateQuantity(i, q - 1)` and
      `updateQuantity(i, q + 1)`) keep every remaining quantity at least 1. */
  lemma StepButtonsKeepPositive(cart: seq<CartItem>, index: nat, step: int)
    requires AllPositive(cart) && index < |cart|
    requires step == 1 || step == -1
    ensures AllPositive(UpdateQuantity(cart, index, cart[index].quantity + step))
  {
    var q := cart[index].quantity + step;
    if q == 0 {
      var r := UpdateQuantity(cart, index, q);
      forall j | 0 <= j < |r| ensures r[j].quantity >= 1 {
        if j >= index { assert r[j] == cart[j + 1]; }
      }
    }
  }

  lemma AddToCartKeepsPositive(cart: seq<CartItem>, product: Product, c: Option<Customization>)
    requires AllPositive(cart)
    ensures AllPositive(AddToCart(cart, product, c))
  {
  }

  /** `item.customPrice || item.price`: a zero custom price falls back to the
      product price, like a missing one. */
  function UnitPrice(item: CartItem): (r: real)
    ensures item.customPrice.Some? && item.customPrice.value != 0.0 ==> r == item.customPrice.value
    ensures item.customPrice.None? || item.customPrice == Some(0.0) ==> r == item.product.price
  {
    if item.customPrice.Some? && item.customPrice.value != 0.0 then item.customPrice.value
    else item.product.price
  }

  function LineAmount(item: CartItem): real {
    UnitPrice(item) * item.quantity as real
  }

  /** `getTotalPrice`: the `reduce` over the lines, left to right. */
  function TotalPrice(cart: seq<CartItem>): real {
    if cart == [] then 0.0 else TotalPrice(cart[..|cart| - 1]) + LineAmount(cart[|cart| - 1])
  }

  /** With no negative prices or quantities, the total is not negative. */
  lemma {:induction false} TotalPriceNonNegative(cart: seq<CartItem>)
    requires forall j :: 0 <= j < |cart| ==> UnitPrice(cart[j]) >= 0.0 && cart[j].quantity >= 0
    ensures TotalPrice(cart) >= 0.0
  {
    if cart != [] {
      TotalPriceNonNegative(cart[..|cart| - 1]);
      var last := cart[|cart| - 1];
      assert LineAmount(last) >= 0.0 by {
        NonNegativeProduct(UnitPrice(last), last.quantity as real);
      }
    }
  }

  lemma NonNegativeProduct(x: real, y: real)
    requires x >= 0.0 && y >= 0.0
    ensures x * y >= 0.0
  {
  }

  /** The total of a concatenation is the sum of the totals. */
  lemma {:induction false} TotalPriceConcat(a: seq<CartItem>, b: seq<CartItem>)
    ensures TotalPrice(a + b) == TotalPrice(a) + TotalPrice(b)
    decreases |b|
  {
    if b == [] {
      assert a + b == a;
    } else {
      assert (a + b)[..|a + b| - 1] == a + b[..|b| - 1];
      TotalPriceConcat(a, b[..|b| - 1]);
    }
  }

  /** The total is the sum of each line's amount, wherever that line sits:
      replacing line `k` changes the total by the difference of the amounts. */
  lemma {:induction false} TotalPriceReplace(cart: seq<CartItem>, k: nat, item: CartItem)
    requires k < |cart|
    ensures TotalPrice(cart[k := item]) == TotalPrice(cart) - LineAmount(cart[k]) + LineAmount(item)
  {
    var pre, post := cart[..k], cart[k + 1..];
    assert cart == pre + [cart[k]] + post;
    assert cart[k := item] == pre + [item] + post;
    TotalPriceConcat(pre + [cart[k]], post);
    TotalPriceConcat(pre + [item], post);
    TotalPriceConcat(pre, [cart[k]]);
    TotalPriceConcat(pre, [item]);
  }

  /** Adding to the cart raises the total by one unit of the line it touches:
      the merged line's unit price, or the new line's. */
  lemma {:induction false} AddToCartTotal(cart: seq<CartItem>, product: Product, c: Option<Customization>)
    ensures var r := AddToCart(cart, product, c);
      match Seqs.FindFirst(cart, (item: CartItem) => SameLine(item, product, c))
      case Some(k) => TotalPrice(r) == TotalPrice(cart) + UnitPrice(cart[k])
      case None => TotalPrice(r) == TotalPrice(cart) + UnitPrice(NewLine(product, c))
  {
    match Seqs.FindFirst(cart, (item: CartItem) => SameLine(item, product, c))
    case Some(k) =>
      var item := cart[k].(quantity := cart[k].quantity + 1);
      TotalPriceReplace(cart, k, item);
      assert LineAmount(item) == LineAmount(cart[k]) + UnitPrice(cart[k]);
    case None =>
      TotalPriceConcat(cart, [NewLine(product, c)]);
      assert [NewLine(product, c)][..0] == [];
  }

  /** The number the cart badge shows: the summed quantities. */
  function ItemCount(cart: seq<CartItem>): int {
    if cart == [] then 0 else ItemCount(cart[..|cart| - 1]) + cart[|cart| - 1].quantity
  }

  /** The badge appears only on a non-empty cart. */
  function Badge(cart: seq<CartItem>): (r: Option<int>)
    ensures r.Some? <==> |cart| > 0
    ensures r.Some? ==> r.value == ItemCount(cart)
  {
    if |cart| > 0 then Some(ItemCount(cart)) else None
  }

  lemma {:induction false} ItemCountConcat(a: seq<CartItem>, b: seq<CartItem>)
    ensures ItemCount(a + b) == ItemCount(a) + ItemCount(b)
    decreases |b|
  {
    if b == [] {
      assert a + b == a;
    } else {
      assert (a + b)[..|a + b| - 1] == a + b[..|b| - 1];
      ItemCountConcat(a, b[..|b| - 1]);
    }
  }

  /** When every line holds at least one unit, the badge counts at least one
      per line. */
  lemma {:induction false} ItemCountAtLeastLines(cart: seq<CartItem>)
    requires AllPositive(cart)
    ensures ItemCount(cart) >= |cart|
  {
    if cart != [] {
      ItemCountAtLeastLines(cart[..|cart| - 1]);
    }
  }

  /** Every add raises the badge count by exactly one. */
  lemma {:induction false} AddToCartCountsOne(cart: seq<CartItem>, product: Product, c: Option<Customization>)
    ensures ItemCount(AddToCart(cart, product, c)) == ItemCount(cart) + 1
  {
    match Seqs.FindFirst(cart, (item: CartItem) => SameLine(item, product, c))
    case Some(k) =>
      var pre, post := cart[..k], cart[k + 1..];
      var item := cart[k].(quantity := cart[k].quantity + 1);
      assert cart == pre + [cart[k]] + post;
      assert cart[k := item] == pre + [item] + post;
      ItemCountConcat(pre + [cart[k]], post);
      ItemCountConcat(pre + [item], post);
      ItemCountConcat(pre, [cart[k]]);
      ItemCountConcat(pre, [item]);
    case None =>
      ItemCountConcat(cart, [NewLine(product, c)]);
      assert [NewLine(product, c)][..0] == [];
  }

  /** `categoryProducts`: the products of one category, in menu order. */
  function CategoryProducts(products: seq<Product>, category: string): (r: seq<Product>)
    ensures forall x :: x in r <==> x in products && x.category == category
    ensures forall x :: multiset(r)[x] == if x.category == category then multiset(products)[x] else 0
    ensures Seqs.IsSubsequence(r, products)
  {
    Seqs.FilterIsSubsequence(products, (x: Product) => x.category == category);
    Seqs.Filter(products, (x: Product) => x.category == category)
  }
}
