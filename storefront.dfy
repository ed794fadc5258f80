/** The storefront page (src/pages/Index.tsx): the product list, the cart,
    the checkout form and the id of the last order placed. Each handler
    replaces one piece of state with a value computed from the old one. */
module Storefront {
  import opened Options
  import opened Pricing
  import Cart
  import OrderStore
  import ServiceArea
  import Text
  import Tracking
  import Statuses

  /** The checkout form's fields. */
  datatype OrderForm = OrderForm(name: string, phone: string, address: string, notes: string)

  /** Why checkout stopped before placing an order, in the order it checks. */
  datatype Rejection = EmptyCart | MissingFields | OutsideServiceArea

  datatype CheckoutOutcome = Rejected(reason: Rejection) | Failed | Placed(orderId: string)

  /** The guards of `handleCheckout`, in order: empty cart, a blank required
      field, an address outside the service area. */
  function CheckoutGate(cart: seq<Cart.CartItem>, form: OrderForm): (r: Option<Rejection>)
    ensures r == Some(EmptyCart) <==> cart == []
    ensures r == Some(MissingFields) <==>
      cart != [] && (form.name == "" || form.phone == "" || form.address == "")
    ensures r == Some(OutsideServiceArea) <==>
      && cart != [] && form.name != "" && form.phone != "" && form.address != ""
      && !ServiceArea.ValidateAddress(form.address)
    ensures r.None? <==>
      && cart != [] && form.name != "" && form.phone != "" && form.address != ""
      && ServiceArea.ValidateAddress(form.address)
  {
    if cart == [] then Some(EmptyCart)
    else if form.name == "" || form.phone == "" || form.address == "" then Some(MissingFields)
    else if !ServiceArea.ValidateAddress(form.address) then Some(OutsideServiceArea)
    else None
  }

  /** The order `handleCheckout` builds, with the clock's id and timestamp as
      parameters. */
  function BuildOrder(form: OrderForm, cart: seq<Cart.CartItem>, id: string, timestamp: string): (r: OrderStore.Order)
    ensures r.id == id && r.timestamp == timestamp && r.priority.None?
    ensures r.customerName == form.name && r.phone == form.phone && r.address == form.address
    ensures r.notes == Some(form.notes)
    ensures r.items == cart && r.total == Cart.TotalPrice(cart)
    ensures Statuses.Parse(r.status) == Some(Statuses.Pending)
  {
    OrderStore.Order(id, form.name, form.phone, form.address, Some(form.notes),
      cart, Cart.TotalPrice(cart), "pending", timestamp, None)
  }

  /** A blank address never gets past the guards, whatever the cart holds. */
  lemma BlankAddressNeverPlaced(cart: seq<Cart.CartItem>, form: OrderForm)
    requires Text.AllWhitespace(form.address)
    ensures CheckoutGate(cart, form).Some?
  {
    ServiceArea.BlankRejected(form.address);
  }

  class Page {
    var products: seq<Product>
    var cart: seq<Cart.CartItem>
    var orderData: OrderForm
    var currentOrder: Option<string>
    var selectedProduct: Option<Product>
    var isCustomizing: bool

    /** Every cart line holds at least one unit. */
    ghost predicate Valid()
      reads this
    {
      Cart.AllPositive(cart)
    }

    constructor ()
      ensures Valid()
      ensures products == [] && cart == [] && orderData == OrderForm("", "", "", "")
      ensures currentOrder.None? && selectedProduct.None? && !isCustomizing
    {
      products, cart, orderData := [], [], OrderForm("", "", "", "");
      currentOrder, selectedProduct, isCustomizing := None, None, false;
    }

    /** `getTotalPrice`. */
    function TotalPrice(): real
      reads this
    {
      Cart.TotalPrice(cart)
    }

    /** The cart tab's badge. */
    function Badge(): Option<int>
      reads this
    {
      Cart.Badge(cart)
    }

    /** `categoryProducts`. */
    function CategoryProducts(category: string): seq<Product>
      reads this
    {
      Cart.CategoryProducts(products, category)
    }

    /** `loadProducts`. `fetched` stands for the answer of `getProducts`:
        `Some(list)` replaces the products and `None`, a rejected call,
        keeps them. `getProducts` falls back to a built-in list whenever its
        fetch fails, so the `None` case is the `catch` branch, which the
        service never triggers. */
    method LoadProducts(fetched: Option<seq<Product>>)
      modifies this
      ensures products == if fetched.Some? then fetched.value else old(products)
      ensures cart == old(cart) && orderData == old(orderData) && currentOrder == old(currentOrder)
      ensures selectedProduct == old(selectedProduct) && isCustomizing == old(isCustomizing)
    {
      if fetched.Some? {
        products := fetched.value;
      }
    }

    /** `addToCart`, from the menu's add button (no customization) or from
        the customizer. */
    method AddToCart(product: Product, customization: Option<Customization>)
      modifies this
      ensures cart == Cart.AddToCart(old(cart), product, customization)
      ensures old(Valid()) ==> Valid()
      ensures Cart.ItemCount(cart) == Cart.ItemCount(old(cart)) + 1
      ensures products == old(products) && orderData == old(orderData) && currentOrder == old(currentOrder)
      ensures selectedProduct == old(selectedProduct) && isCustomizing == old(isCustomizing)
    {
      if Valid() {
        Cart.AddToCartKeepsPositive(cart, product, customization);
      }
      Cart.AddToCartCountsOne(cart, product, customization);
      cart := Cart.AddToCart(cart, product, customization);
    }

    method RemoveFromCart(index: int)
      modifies this
      ensures cart == Cart.RemoveFromCart(old(cart), index)
      ensures old(Valid()) ==> Valid()
      ensures products == old(products) && orderData == old(orderData) && currentOrder == old(currentOrder)
      ensures selectedProduct == old(selectedProduct) && isCustomizing == old(isCustomizing)
    {
      cart := Cart.RemoveFromCart(cart, index);
      assert old(Valid()) ==> Valid() by {
        if old(Valid()) && 0 <= index < |old(cart)| {
          forall j | 0 <= j < |cart| ensures cart[j].quantity >= 1 {
            if j >= index { assert cart[j] == old(cart)[j + 1]; }
          }
        }
      }
    }

    method UpdateQuantity(index: int, quantity: int)
      modifies this
      ensures cart == Cart.UpdateQuantity(old(cart), index, quantity)
      ensures products == old(products) && orderData == old(orderData) && currentOrder == old(currentOrder)
      ensures selectedProduct == old(selectedProduct) && isCustomizing == old(isCustomizing)
    {
      cart := Cart.UpdateQuantity(cart, index, quantity);
    }

    /** The cart line's minus (`step == -1`) and plus (`step == 1`) buttons. */
    method StepQuantity(index: nat, step: int)
      requires index < |cart| && (step == 1 || step == -1)
      modifies this
      ensures cart == Cart.UpdateQuantity(old(cart), index, old(cart)[index].quantity + step)
      ensures old(Valid()) ==> Valid()
      ensures products == old(products) && orderData == old(orderData) && currentOrder == old(currentOrder)
      ensures selectedProduct == old(selectedProduct) && isCustomizing == old(isCustomizing)
    {
      if Valid() {
        Cart.StepButtonsKeepPositive(cart, index, step);
      }
      cart := Cart.UpdateQuantity(cart, index, cart[index].quantity + step);
    }

    /** `handleCustomize`: open the customizer on a product. */
    method Customize(product: Product)
      modifies this
      ensures selectedProduct == Some(product) && isCustomizing
      ensures products == old(products) && cart == old(cart) && orderData == old(orderData)
      ensures currentOrder == old(currentOrder)
    {
      selectedProduct := Some(product);
      isCustomizing := true;
    }

    /** `handleCustomizationComplete`: add the customized product, if one is
        selected, and close the customizer. */
    method CustomizationComplete(customization: Customization)
      modifies this
      ensures cart == if old(selectedProduct).Some?
        then Cart.AddToCart(old(cart), old(selectedProduct).value, Some(customization))
        else old(cart)
      ensures old(Valid()) ==> Valid()
      ensures selectedProduct.None? && !isCustomizing
      ensures products == old(products) && orderData == old(orderData) && currentOrder == old(currentOrder)
    {
      if selectedProduct.Some? {
        if Valid() {
          Cart.AddToCartKeepsPositive(cart, selectedProduct.value, Some(customization));
        }
        cart := Cart.AddToCart(cart, selectedProduct.value, Some(customization));
      }
      isCustomizing := false;
      selectedProduct := None;
    }

    /** The form inputs' `setOrderData`. */
    method EditOrderData(form: OrderForm)
      modifies this
      ensures orderData == form
      ensures products == old(products) && cart == old(cart) && currentOrder == old(currentOrder)
      ensures selectedProduct == old(selectedProduct) && isCustomizing == old(isCustomizing)
    {
      orderData := form;
    }

    /** `handleCheckout`, with the new order's id and timestamp and the
        store's write outcome as parameters. A rejected or failed checkout
        changes nothing on the page; a placed order is appended to the store
        as "pending" with the cart's lines and total, its id becomes the one
        tracked, and the cart is emptied. */
    method Checkout(store: OrderStore.Store, id: string, timestamp: string, writeOk: bool)
      returns (outcome: CheckoutOutcome)
      modifies this, store
      ensures CheckoutGate(old(cart), old(orderData)).Some? ==>
        && outcome == Rejected(CheckoutGate(old(cart), old(orderData)).value)
        && store.stored == old(store.stored)
      ensures CheckoutGate(old(cart), old(orderData)).None? && !writeOk ==>
        outcome == Failed && store.stored == old(store.stored)
      ensures CheckoutGate(old(cart), old(orderData)).None? && writeOk ==>
        && outcome == Placed(id)
        && store.LocalOrders() == old(store.LocalOrders()) + [BuildOrder(old(orderData), old(cart), id, timestamp)]
        && cart == [] && currentOrder == Some(id)
      ensures !outcome.Placed? ==> cart == old(cart) && currentOrder == old(currentOrder)
      ensures old(Valid()) ==> Valid()
      ensures products == old(products) && orderData == old(orderData)
      ensures selectedProduct == old(selectedProduct) && isCustomizing == old(isCustomizing)
    {
      var gate := CheckoutGate(cart, orderData);
      if gate.Some? {
        return Rejected(gate.value);
      }
      var order := BuildOrder(orderData, cart, id, timestamp);
      var created := store.CreateOrder(order, writeOk);
      if created.None? {
        return Failed;
      }
      currentOrder := Some(id);
      cart := [];
      outcome := Placed(id);
    }
  }

  /** A placed order whose id is new is what the tracking page then finds
      under that id (with no remote list), and it shows as the first step. */
  lemma PlacedOrderIsTracked(local: seq<OrderStore.Order>, form: OrderForm, cart: seq<Cart.CartItem>,
                             id: string, timestamp: string)
    requires forall j :: 0 <= j < |local| ==> local[j].id != id
    ensures var o := BuildOrder(form, cart, id, timestamp);
      && OrderStore.Lookup(OrderStore.Combined(None, local + [o]), id) == Some(o)
      && Tracking.GetStatusInfo(o.status) == Tracking.Info(Statuses.Pending)
      && Tracking.StepIndex(o.status) == 0
  {
    OrderStore.LookupAfterAppend(local, BuildOrder(form, cart, id, timestamp));
  }
}
