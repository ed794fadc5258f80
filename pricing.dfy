/** The pizza customizer: line pricing and the dialog's selection state
    (src/components/PizzaCustomizer.tsx). Money is an exact `real`. */
module Pricing {
  import opened Options
  import Seqs

  datatype SizeChoice = SizeChoice(name: string, multiplier: real)
  datatype ToppingChoice = ToppingChoice(name: string, price: real)

  /** A menu product. A missing option list is `None`; an empty list is
      `Some([])`, which JavaScript treats as present (`[] || d` is `[]`). */
  datatype Product = Product(
    id: string,
    name: string,
    description: string,
    price: real,
    category: string,
    image: string,
    sizes: Option<seq<SizeChoice>>,
    crusts: Option<seq<string>>,
    toppings: Option<seq<ToppingChoice>>)

  /** What the dialog hands to the cart when the customer confirms. */
  datatype Customization = Customization(
    size: string,
    crust: string,
    toppings: seq<string>,
    quantity: int,
    totalPrice: real)

  const DefaultSizes: seq<SizeChoice> := [
    SizeChoice("Personal (20cm)", 1.0),
    SizeChoice("Mediana (25cm)", 1.5),
    SizeChoice("Familiar (30cm)", 2.0)
  ]

  const DefaultCrusts: seq<string> := [
    "Masa Tradicional", "Masa Delgada", "Masa Gruesa", "Masa Integral"
  ]

  const DefaultToppings: seq<ToppingChoice> := [
    ToppingChoice("Pepperoni Extra", 15.0),
    ToppingChoice("Champiñones", 10.0),
    ToppingChoice("Pimientos", 8.0),
    ToppingChoice("Cebolla", 8.0),
    ToppingChoice("Aceitunas", 12.0),
    ToppingChoice("Jamón", 15.0),
    ToppingChoice("Salchicha", 15.0),
    ToppingChoice("Piña", 10.0),
    ToppingChoice("Tomate Cherry", 12.0),
    ToppingChoice("Queso Extra", 20.0),
    ToppingChoice("Jalapeños", 8.0),
    ToppingChoice("Tocino", 18.0),
    ToppingChoice("Pollo", 20.0),
    ToppingChoice("Carne Molida", 22.0),
    ToppingChoice("Anchoas", 15.0)
  ]

  function SizesOf(p: Product): seq<SizeChoice> { p.sizes.GetOr(DefaultSizes) }
  function CrustsOf(p: Product): seq<string> { p.crusts.GetOr(DefaultCrusts) }
  function ToppingsOf(p: Product): seq<ToppingChoice> { p.toppings.GetOr(DefaultToppings) }

  /** `sizes.find(s => s.name === selected)?.multiplier || 1`: the search
      goes front to back, and a missing size or a 0 multiplier gives 1. */
  function SizeMultiplier(sizes: seq<SizeChoice>, selected: string): real
  {
    if sizes == [] then 1.0
    else if sizes[0].name == selected then
      (if sizes[0].multiplier == 0.0 then 1.0 else sizes[0].multiplier)
    else SizeMultiplier(sizes[1..], selected)
  }

  /** The multiplier is that of the first size with the selected name; 1 when
      no size has that name, and also 1 when that multiplier is 0 (0 is falsy). */
  lemma {:induction false} SizeMultiplierFirstMatch(sizes: seq<SizeChoice>, selected: string, k: nat)
    requires k < |sizes| && sizes[k].name == selected
    requires forall j :: 0 <= j < k ==> sizes[j].name != selected
    ensures SizeMultiplier(sizes, selected)
         == if sizes[k].multiplier == 0.0 then 1.0 else sizes[k].multiplier
  {
    if k > 0 {
      assert sizes[0].name != selected;
      SizeMultiplierFirstMatch(sizes[1..], selected, k - 1);
    }
  }

  lemma {:induction false} SizeMultiplierNoMatch(sizes: seq<SizeChoice>, selected: string)
    requires forall k :: 0 <= k < |sizes| ==> sizes[k].name != selected
    ensures SizeMultiplier(sizes, selected) == 1.0
  {
    if sizes != [] {
      assert sizes[0].name != selected;
      SizeMultiplierNoMatch(sizes[1..], selected);
    }
  }

  /** `toppings.find(t => t.name === name)?.price || 0`: front to back, and
      an unknown name costs 0. */
  function ToppingPrice(toppings: seq<ToppingChoice>, name: string): real
  {
    if toppings == [] then 0.0
    else if toppings[0].name == name then toppings[0].price
    else ToppingPrice(toppings[1..], name)
  }

  /** A selected name costs the price of the first topping with that name;
      an unknown name costs 0. */
  lemma {:induction false} ToppingPriceFirstMatch(toppings: seq<ToppingChoice>, name: string, k: nat)
    requires k < |toppings| && toppings[k].name == name
    requires forall j :: 0 <= j < k ==> toppings[j].name != name
    ensures ToppingPrice(toppings, name) == toppings[k].price
  {
    if k > 0 {
      assert toppings[0].name != name;
      ToppingPriceFirstMatch(toppings[1..], name, k - 1);
    }
  }

  lemma {:induction false} ToppingPriceNoMatch(toppings: seq<ToppingChoice>, name: string)
    requires forall k :: 0 <= k < |toppings| ==> toppings[k].name != name
    ensures ToppingPrice(toppings, name) == 0.0
  {
    if toppings != [] {
      assert toppings[0].name != name;
      ToppingPriceNoMatch(toppings[1..], name);
    }
  }

  /** The `reduce` over the selected names, left to right. */
  function ToppingsPrice(toppings: seq<ToppingChoice>, selected: seq<string>): real
  {
    if selected == [] then 0.0
    else ToppingsPrice(toppings, selected[..|selected| - 1])
         + ToppingPrice(toppings, selected[|selected| - 1])
  }

  /** The `|| 1` fallback means the multiplier is never 0. */
  lemma {:induction false} SizeMultiplierNonZero(sizes: seq<SizeChoice>, selected: string)
    ensures SizeMultiplier(sizes, selected) != 0.0
  {
    if sizes != [] && sizes[0].name != selected {
      SizeMultiplierNonZero(sizes[1..], selected);
    }
  }

  /** With a non-negative price list, a topping costs nothing negative... */
  lemma {:induction false} ToppingPriceNonNegative(toppings: seq<ToppingChoice>, name: string)
    requires forall k :: 0 <= k < |toppings| ==> toppings[k].price >= 0.0
    ensures ToppingPrice(toppings, name) >= 0.0
  {
    if toppings != [] && toppings[0].name != name {
      ToppingPriceNonNegative(toppings[1..], name);
    }
  }

  /** ...and neither does any selection of toppings. */
  lemma {:induction false} ToppingsPriceNonNegative(toppings: seq<ToppingChoice>, selected: seq<string>)
    requires forall k :: 0 <= k < |toppings| ==> toppings[k].price >= 0.0
    ensures ToppingsPrice(toppings, selected) >= 0.0
  {
    if selected != [] {
      ToppingsPriceNonNegative(toppings, selected[..|selected| - 1]);
      ToppingPriceNonNegative(toppings, selected[|selected| - 1]);
    }
  }

  /** The price of a configured line: (base × size multiplier + toppings) × quantity. */
  function LineTotal(basePrice: real, sizes: seq<SizeChoice>, toppings: seq<ToppingChoice>,
                     selectedSize: string, selectedToppings: seq<string>, quantity: int): real
  {
    (basePrice * SizeMultiplier(sizes, selectedSize) + ToppingsPrice(toppings, selectedToppings))
      * quantity as real
  }

  /** `calculateTotalPrice`: 0 without a product; otherwise the line total over
      the product's own size and topping lists, or the defaults where it has none. */
  function CalculateTotalPrice(product: Option<Product>, selectedSize: string,
                               selectedToppings: seq<string>, quantity: int): (r: real)
    ensures product.None? ==> r == 0.0
  {
    match product
    case None => 0.0
    case Some(p) => LineTotal(p.price, SizesOf(p), ToppingsOf(p), selectedSize, selectedToppings, quantity)
  }

  /** The topping sum distributes over concatenation of selections. */
  lemma {:induction false} ToppingsPriceConcat(toppings: seq<ToppingChoice>, a: seq<string>, b: seq<string>)
    ensures ToppingsPrice(toppings, a + b) == ToppingsPrice(toppings, a) + ToppingsPrice(toppings, b)
    decreases |b|
  {
    if b != [] {
      assert (a + b)[..|a + b| - 1] == a + b[..|b| - 1];
      ToppingsPriceConcat(toppings, a, b[..|b| - 1]);
    } else {
      assert a + b == a;
    }
  }

  /** Appending a name adds its price. */
  lemma {:induction false} ToppingsPriceSnoc(toppings: seq<ToppingChoice>, selected: seq<string>, name: string)
    ensures ToppingsPrice(toppings, selected + [name]) == ToppingsPrice(toppings, selected) + ToppingPrice(toppings, name)
  {
    assert (selected + [name])[..|selected|] == selected;
  }

  /** `selected.filter(t => t !== name)`. */
  function Without(selected: seq<string>, name: string): (r: seq<string>)
    ensures forall other :: other in r <==> other in selected && other != name
    ensures Seqs.IsSubsequence(r, selected)
  {
    if selected == [] then []
    else
      var rest := Without(selected[1..], name);
      assert forall x :: x in selected <==> x == selected[0] || x in selected[1..];
      if selected[0] == name then rest
      else
        assert ([selected[0]] + rest)[1..] == rest;
        [selected[0]] + rest
  }

  /** Splitting off the first selected name. */
  lemma ToppingsPriceCons(toppings: seq<ToppingChoice>, x: string, rest: seq<string>)
    ensures ToppingsPrice(toppings, [x] + rest) == ToppingPrice(toppings, x) + ToppingsPrice(toppings, rest)
  {
    ToppingsPriceConcat(toppings, [x], rest);
    assert [x][..0] == [];
  }

  /** No name occurs twice: the first is not among the rest, recursively. */
  predicate NoDuplicates(selected: seq<string>) {
    selected == [] || (selected[0] !in selected[1..] && NoDuplicates(selected[1..]))
  }

  lemma {:induction false} WithoutKeepsNoDuplicates(selected: seq<string>, name: string)
    requires NoDuplicates(selected)
    ensures NoDuplicates(Without(selected, name))
  {
    if selected != [] {
      WithoutKeepsNoDuplicates(selected[1..], name);
      if selected[0] != name {
        var w := Without(selected[1..], name);
        assert ([selected[0]] + w)[1..] == w;
      }
    }
  }

  /** Appending a name not yet selected keeps a selection duplicate-free. */
  lemma {:induction false} AppendKeepsNoDuplicates(selected: seq<string>, name: string)
    requires NoDuplicates(selected) && name !in selected
    ensures NoDuplicates(selected + [name])
  {
    if selected != [] {
      AppendKeepsNoDuplicates(selected[1..], name);
      assert (selected + [name])[1..] == selected[1..] + [name];
    }
  }

  lemma {:induction false} WithoutAbsent(selected: seq<string>, name: string)
    requires name !in selected
    ensures Without(selected, name) == selected
  {
    if selected != [] {
      WithoutAbsent(selected[1..], name);
    }
  }

  /** In a duplicate-free selection, removing a selected name lowers the
      topping sum by exactly that topping's price. */
  lemma {:induction false} WithoutPrice(toppings: seq<ToppingChoice>, selected: seq<string>, name: string)
    requires NoDuplicates(selected) && name in selected
    ensures ToppingsPrice(toppings, Without(selected, name))
         == ToppingsPrice(toppings, selected) - ToppingPrice(toppings, name)
  {
    var x, rest := selected[0], selected[1..];
    assert selected == [x] + rest;
    ToppingsPriceCons(toppings, x, rest);
    if x == name {
      WithoutAbsent(rest, name);
    } else {
      WithoutPrice(toppings, rest, name);
      assert Without(selected, name) == [x] + Without(rest, name);
      ToppingsPriceCons(toppings, x, Without(rest, name));
    }
  }

  /** `handleToppingToggle`: remove `name` when selected, else append it. */
  function Toggled(selected: seq<string>, name: string): (r: seq<string>)
    ensures name in r <==> name !in selected
    ensures forall other :: other != name ==> (other in r <==> other in selected)
    ensures NoDuplicates(selected) ==> NoDuplicates(r)
    ensures name in selected ==> Seqs.IsSubsequence(r, selected)
    ensures name !in selected ==> r == selected + [name]
  {
    if name in selected then
      if NoDuplicates(selected) then WithoutKeepsNoDuplicates(selected, name); Without(selected, name)
      else Without(selected, name)
    else
      var r := selected + [name];
      assert forall other :: other in r <==> other in selected || other == name;
      if NoDuplicates(selected) then AppendKeepsNoDuplicates(selected, name); r
      else r
  }

  /** Toggling an unselected topping on raises the line total by its price
      times the quantity. */
  lemma {:induction false} ToggleOnRaisesTotal(basePrice: real, sizes: seq<SizeChoice>, toppings: seq<ToppingChoice>,
                                               size: string, selected: seq<string>, name: string, quantity: int)
    requires name !in selected
    ensures LineTotal(basePrice, sizes, toppings, size, Toggled(selected, name), quantity)
         == LineTotal(basePrice, sizes, toppings, size, selected, quantity)
            + ToppingPrice(toppings, name) * quantity as real
  {
    var on := Toggled(selected, name);
    assert on == selected + [name];
    ToppingsPriceSnoc(toppings, selected, name);
    LineTotalShift(basePrice, sizes, toppings, size, selected, on, ToppingPrice(toppings, name), quantity);
  }

  /** Toggling a selected topping off, in a duplicate-free selection, lowers the
      line total by its price times the quantity. */
  lemma {:induction false} ToggleOffLowersTotal(basePrice: real, sizes: seq<SizeChoice>, toppings: seq<ToppingChoice>,
                                                size: string, selected: seq<string>, name: string, quantity: int)
    requires name in selected && NoDuplicates(selected)
    ensures LineTotal(basePrice, sizes, toppings, size, Toggled(selected, name), quantity)
         == LineTotal(basePrice, sizes, toppings, size, selected, quantity)
            - ToppingPrice(toppings, name) * quantity as real
  {
    var w := Toggled(selected, name);
    assert w == Without(selected, name);
    WithoutPrice(toppings, selected, name);
    LineTotalShift(basePrice, sizes, toppings, size, w, selected, ToppingPrice(toppings, name), quantity);
  }

  /** Two selections whose topping sums differ by `price` have line totals
      differing by `price` times the quantity. */
  lemma {:induction false} LineTotalShift(basePrice: real, sizes: seq<SizeChoice>, toppings: seq<ToppingChoice>,
                                          size: string, low: seq<string>, high: seq<string>, price: real, quantity: int)
    requires ToppingsPrice(toppings, low) == ToppingsPrice(toppings, high) - price
    ensures LineTotal(basePrice, sizes, toppings, size, low, quantity)
         == LineTotal(basePrice, sizes, toppings, size, high, quantity) - price * quantity as real
    ensures LineTotal(basePrice, sizes, toppings, size, high, quantity)
         == LineTotal(basePrice, sizes, toppings, size, low, quantity) + price * quantity as real
  {
    var b, q := basePrice * SizeMultiplier(sizes, size), quantity as real;
    var tl, th := ToppingsPrice(toppings, low), ToppingsPrice(toppings, high);
    Distribute(b, tl, q);
    Distribute(b, th, q);
    ScaleDifference(tl, th, price, q);
  }

  lemma Distribute(b: real, t: real, q: real)
    ensures (b + t) * q == b * q + t * q
  {
  }

  lemma ScaleDifference(tl: real, th: real, price: real, q: real)
    requires tl == th - price
    ensures tl * q == th * q - price * q
  {
  }

  /** Worked example: price 120, the default "Mediana (25cm)" size (×1.5), the
      default "Pepperoni Extra" topping (15), quantity 2 cost (180 + 15) × 2 = 390. */
  lemma MedianaPepperoniExample(p: Product)
    requires p.price == 120.0 && p.sizes.None? && p.toppings.None?
    ensures CalculateTotalPrice(Some(p), "Mediana (25cm)", ["Pepperoni Extra"], 2) == 390.0
  {
    assert DefaultSizes[0].name != "Mediana (25cm)";
    assert SizeMultiplier(DefaultSizes, "Mediana (25cm)") == 1.5;
    assert ToppingPrice(DefaultToppings, "Pepperoni Extra") == 15.0;
    assert ["Pepperoni Extra"][..0] == [];
  }

  /** The customizer dialog's selection state. */
  class Customizer {
    var selectedSize: string
    var selectedCrust: string
    var selectedToppings: seq<string>
    var quantity: int

    /** The quantity never drops below 1, and no topping is selected twice
        (the state `ToggleOffLowersTotal` and `WithoutPrice` ask for). */
    ghost predicate Valid()
      reads this
    {
      quantity >= 1 && NoDuplicates(selectedToppings)
    }

    constructor ()
      ensures Valid()
      ensures selectedSize == "" && selectedCrust == "" && selectedToppings == [] && quantity == 1
    {
      selectedSize, selectedCrust, selectedToppings, quantity := "", "", [], 1;
    }

    /** The price shown for the current selection. */
    function TotalPrice(product: Option<Product>): real
      reads this
    {
      CalculateTotalPrice(product, selectedSize, selectedToppings, quantity)
    }

    /** The effect run when the dialog opens on a product: first size name,
        first crust, no toppings, quantity 1 (`|| ''` for an empty list). */
    method Open(product: Option<Product>, isOpen: bool)
      requires Valid()
      modifies this
      ensures Valid()
      ensures product.Some? && isOpen ==>
        && selectedSize == (if |SizesOf(product.value)| > 0 then SizesOf(product.value)[0].name else "")
        && selectedCrust == (if |CrustsOf(product.value)| > 0 then CrustsOf(product.value)[0] else "")
        && selectedToppings == [] && quantity == 1
      ensures !(product.Some? && isOpen) ==>
        selectedSize == old(selectedSize) && selectedCrust == old(selectedCrust)
        && selectedToppings == old(selectedToppings) && quantity == old(quantity)
    {
      if product.Some? && isOpen {
        var sizes := SizesOf(product.value);
        var crusts := CrustsOf(product.value);
        selectedSize := if |sizes| > 0 then sizes[0].name else "";
        selectedCrust := if |crusts| > 0 then crusts[0] else "";
        selectedToppings := [];
        quantity := 1;
      }
    }

    /** The size radio group. */
    method SelectSize(name: string)
      requires Valid()
      modifies this
      ensures Valid()
      ensures selectedSize == name
      ensures selectedCrust == old(selectedCrust) && selectedToppings == old(selectedToppings)
      ensures quantity == old(quantity)
    {
      selectedSize := name;
    }

    /** The crust radio group. */
    method SelectCrust(name: string)
      requires Valid()
      modifies this
      ensures Valid()
      ensures selectedCrust == name
      ensures selectedSize == old(selectedSize) && selectedToppings == old(selectedToppings)
      ensures quantity == old(quantity)
    {
      selectedCrust := name;
    }

    /** A topping's checkbox. */
    method ToggleTopping(name: string)
      requires Valid()
      modifies this
      ensures Valid()
      ensures selectedToppings == Toggled(old(selectedToppings), name)
      ensures selectedSize == old(selectedSize) && selectedCrust == old(selectedCrust)
      ensures quantity == old(quantity)
    {
      selectedToppings := Toggled(selectedToppings, name);
    }

    /** The minus button: `Math.max(1, quantity - 1)`. */
    method DecrementQuantity()
      requires Valid()
      modifies this
      ensures quantity == if old(quantity) - 1 > 1 then old(quantity) - 1 else 1
      ensures Valid()
      ensures selectedSize == old(selectedSize) && selectedCrust == old(selectedCrust)
      ensures selectedToppings == old(selectedToppings)
    {
      quantity := if quantity - 1 > 1 then quantity - 1 else 1;
    }

    /** The plus button. */
    method IncrementQuantity()
      requires Valid()
      modifies this
      ensures Valid()
      ensures quantity == old(quantity) + 1
      ensures selectedSize == old(selectedSize) && selectedCrust == old(selectedCrust)
      ensures selectedToppings == old(selectedToppings)
    {
      quantity := quantity + 1;
    }

    /** `handleClose`: every selection is cleared and the quantity reset. */
    method Close()
      requires Valid()
      modifies this
      ensures Valid()
      ensures selectedSize == "" && selectedCrust == "" && selectedToppings == [] && quantity == 1
    {
      selectedSize, selectedCrust, selectedToppings, quantity := "", "", [], 1;
    }

    /** `handleComplete`: the customization handed to the page. (Its confirm
        button stays disabled until both a size and a crust are chosen.) */
    method Complete(product: Option<Product>) returns (c: Customization)
      requires Valid()
      ensures c.quantity >= 1 && NoDuplicates(c.toppings)
      ensures c.size == selectedSize && c.crust == selectedCrust
      ensures c.toppings == selectedToppings && c.quantity == quantity
      ensures c.totalPrice == CalculateTotalPrice(product, selectedSize, selectedToppings, quantity)
    {
      c := Customization(selectedSize, selectedCrust, selectedToppings, quantity, TotalPrice(product));
    }
  }
}
