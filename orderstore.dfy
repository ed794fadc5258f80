/** The mock order service (src/services/ApiService.ts): orders kept under one
    browser-storage key, plus an optional remote list that is read, never
    written. */
module OrderStore {
  import opened Options
  import opened Text
  import Seqs
  import Cart

  datatype Priority = Normal | High | Urgent

  datatype Order = Order(
    id: string,
    customerName: string,
    phone: string,
    address: string,
    notes: Option<string>,
    items: seq<Cart.CartItem>,
    total: real,
    status: string,
    timestamp: string,
    priority: Option<Priority>)

  /** What the storage key holds: nothing, text that `JSON.parse` rejects,
      or a saved list of orders. A key whose text parses is taken to hold
      such a list. */
  datatype Stored = Absent | Corrupt | Saved(orders: seq<Order>)

  /** `getLocalOrders`: a missing key or a failed parse reads as no orders. */
  function Loaded(stored: Stored): (r: seq<Order>)
    ensures stored.Saved? ==> r == stored.orders
    ensures !stored.Saved? ==> r == []
  {
    if stored.Saved? then stored.orders else []
  }

  /** `findIndex(order => order.id === id)`. */
  function IndexOfId(orders: seq<Order>, id: string): (r: Option<nat>)
    ensures r.Some? ==> r.value < |orders| && orders[r.value].id == id
    ensures r.Some? ==> forall j :: 0 <= j < r.value ==> orders[j].id != id
    ensures r.None? <==> forall j :: 0 <= j < |orders| ==> orders[j].id != id
  {
    Seqs.FindFirst(orders, (o: Order) => o.id == id)
  }

  /** The stored list after `updateOrderStatus`: only the first order with the
      id gets the new status. */
  function WithStatus(orders: seq<Order>, id: string, status: string): (r: seq<Order>)
    ensures |r| == |orders|
    ensures IndexOfId(orders, id).None? ==> r == orders
    ensures IndexOfId(orders, id).Some? ==>
      var k := IndexOfId(orders, id).value;
      && r[k] == orders[k].(status := status)
      && forall j :: 0 <= j < |orders| && j != k ==> r[j] == orders[j]
  {
    match IndexOfId(orders, id)
    case Some(k) => orders[k := orders[k].(status := status)]
    case None => orders
  }

  /** `getOrders`: the remote list followed by the local one, or the local one
      alone when the remote read failed. */
  function Combined(remote: Option<seq<Order>>, local: seq<Order>): (r: seq<Order>)
    ensures remote.Some? ==> r == remote.value + local
    ensures remote.None? ==> r == local
  {
    if remote.Some? then remote.value + local else local
  }

  /** `getOrder`: the first order with the id, or null. */
  function Lookup(orders: seq<Order>, id: string): (r: Option<Order>)
    ensures r.Some? <==> exists j :: 0 <= j < |orders| && orders[j].id == id
    ensures r.Some? ==> r.value.id == id && r.value in orders
    ensures r.Some? ==> exists k :: 0 <= k < |orders| && orders[k] == r.value
                                 && forall j :: 0 <= j < k ==> orders[j].id != id
  {
    match IndexOfId(orders, id)
    case Some(k) => Some(orders[k])
    case None => None
  }

  /** After updating, looking the id up gives the order it used to give, with
      the new status and nothing else changed. */
  lemma LookupAfterUpdate(orders: seq<Order>, id: string, status: string)
    ensures Lookup(WithStatus(orders, id, status), id) ==
      match Lookup(orders, id)
      case Some(o) => Some(o.(status := status))
      case None => None
  {
    var r := WithStatus(orders, id, status);
    match IndexOfId(orders, id)
    case Some(k) =>
      Seqs.FindFirstIs(r, (o: Order) => o.id == id, k);
    case None =>
  }

  /** Updating one id leaves the lookup of every other id as it was. */
  lemma LookupOtherAfterUpdate(orders: seq<Order>, id: string, other: string, status: string)
    requires other != id
    ensures Lookup(WithStatus(orders, id, status), other) == Lookup(orders, other)
  {
    var r := WithStatus(orders, id, status);
    assert forall j :: 0 <= j < |r| ==> (r[j].id == other <==> orders[j].id == other);
    match IndexOfId(orders, other)
    case Some(k) =>
      Seqs.FindFirstIs(r, (o: Order) => o.id == other, k);
    case None =>
  }

  /** A newly appended order is found by its id when no earlier order has it. */
  lemma LookupAfterAppend(orders: seq<Order>, o: Order)
    requires forall j :: 0 <= j < |orders| ==> orders[j].id != o.id
    ensures Lookup(orders + [o], o.id) == Some(o)
  {
    Seqs.FindFirstIs(orders + [o], (x: Order) => x.id == o.id, |orders|);
  }

  /** A remote order shadows any local order with the same id: the lookup
      sees the remote one whatever the local list holds. */
  lemma RemoteShadowsLocal(remote: seq<Order>, local: seq<Order>, id: string)
    requires exists j :: 0 <= j < |remote| && remote[j].id == id
    ensures Lookup(Combined(Some(remote), local), id) == Lookup(remote, id)
  {
    var k := IndexOfId(remote, id).value;
    Seqs.FindFirstIs(remote + local, (o: Order) => o.id == id, k);
  }

  /** Updating can only reach local orders: an id that no local order has
      leaves the combined list exactly as it was, even when a remote order
      carries that id. */
  lemma UpdateMissesRemote(remote: Option<seq<Order>>, local: seq<Order>, id: string, status: string)
    requires forall j :: 0 <= j < |local| ==> local[j].id != id
    ensures Combined(remote, WithStatus(local, id, status)) == Combined(remote, local)
  {
  }

  /** The remote part of the combined list never changes on update. */
  lemma UpdateKeepsRemotePrefix(remote: seq<Order>, local: seq<Order>, id: string, status: string)
    ensures Combined(Some(remote), WithStatus(local, id, status))[..|remote|] == remote
  {
    assert (remote + WithStatus(local, id, status))[..|remote|] == remote;
  }

  /** Create, then update, then look up, with no remote list: the order comes
      back, first as created and then with only its status changed. */
  lemma CreateUpdateRoundTrip(local: seq<Order>, o: Order, status: string)
    requires forall j :: 0 <= j < |local| ==> local[j].id != o.id
    ensures Lookup(Combined(None, local + [o]), o.id) == Some(o)
    ensures Lookup(Combined(None, WithStatus(local + [o], o.id, status)), o.id) == Some(o.(status := status))
  {
    LookupAfterAppend(local, o);
    LookupAfterUpdate(local + [o], o.id, status);
  }

  /** `getDeliveryEstimate` with the random digit `r` (`Math.floor(Math.random() * 10)`)
      as a parameter: 25 to 34 minutes, five more for an "edificio" address. */
  function DeliveryEstimate(address: string, r: int): (minutes: int)
    requires 0 <= r < 10
    ensures 25 <= minutes <= 39
    ensures minutes - r == (if Contains(Lower(address), "edificio") then 30 else 25)
  {
    var baseTime := 25 + r;
    var extraTime := if Contains(Lower(address), "edificio") then 5 else 0;
    baseTime + extraTime
  }

  /** The order store: the storage key's content. */
  class Store {
    var stored: Stored

    constructor (initial: Stored)
      ensures stored == initial
    {
      stored := initial;
    }

    function LocalOrders(): (r: seq<Order>)
      reads this
      ensures stored.Saved? ==> r == stored.orders
      ensures !stored.Saved? ==> r == []
    {
      Loaded(stored)
    }

    /** `getOrders`, with the remote read's outcome as a parameter. */
    function Orders(remote: Option<seq<Order>>): (r: seq<Order>)
      reads this
      ensures r == Combined(remote, LocalOrders())
      ensures forall o :: o in r <==> o in LocalOrders() || (remote.Some? && o in remote.value)
    {
      Combined(remote, LocalOrders())
    }

    /** `getOrder`. */
    function GetOrder(id: string, remote: Option<seq<Order>>): (r: Option<Order>)
      reads this
      ensures r == Lookup(Orders(remote), id)
      ensures r.Some? ==> r.value.id == id && r.value in Orders(remote)
      ensures r.None? <==> forall o :: o in Orders(remote) ==> o.id != id
    {
      Lookup(Orders(remote), id)
    }

    /** `createOrder`: load, push, write back. `writeOk` says whether the write
        succeeds; when it fails the call rejects and the key keeps its content. */
    method CreateOrder(o: Order, writeOk: bool) returns (r: Option<Order>)
      modifies this
      ensures writeOk ==> stored == Saved(old(LocalOrders()) + [o]) && r == Some(o)
      ensures !writeOk ==> stored == old(stored) && r.None?
    {
      var orders := LocalOrders();
      orders := orders + [o];
      if writeOk {
        stored := Saved(orders);
        r := Some(o);
      } else {
        r := None;
      }
    }

    /** `updateOrderStatus`: find the first order with the id and overwrite its
        status. Nothing is written when no local order has the id, and that
        case still reports success; a failed write reports failure and keeps
        the key's content. */
    method UpdateOrderStatus(id: string, status: string, writeOk: bool) returns (ok: bool)
      modifies this
      ensures IndexOfId(old(LocalOrders()), id).None? ==> stored == old(stored) && ok
      ensures IndexOfId(old(LocalOrders()), id).Some? ==>
        if writeOk then stored == Saved(WithStatus(old(LocalOrders()), id, status)) && ok
        else stored == old(stored) && !ok
    {
      var orders := LocalOrders();
      var i := 0;
      while i < |orders| && orders[i].id != id
        invariant 0 <= i <= |orders|
        invariant orders == old(LocalOrders()) && stored == old(stored)
        invariant forall j :: 0 <= j < i ==> orders[j].id != id
      {
        i := i + 1;
      }
      ok := true;
      if i < |orders| {
        Seqs.FindFirstIs(orders, (o: Order) => o.id == id, i);
        orders := orders[i := orders[i].(status := status)];
        if writeOk {
          stored := Saved(orders);
        } else {
          ok := false;
        }
      }
    }
  }

  /** The round trip on a live store with no remote data: the created order is
      found, and after a status update it is found with the new status. */
  method CreateThenUpdate(store: Store, o: Order, status: string) returns (afterCreate: Option<Order>, afterUpdate: Option<Order>)
    requires forall j :: 0 <= j < |store.LocalOrders()| ==> store.LocalOrders()[j].id != o.id
    modifies store
    ensures afterCreate == Some(o)
    ensures afterUpdate == Some(o.(status := status))
  {
    var before := store.LocalOrders();
    var r := store.CreateOrder(o, true);
    afterCreate := store.GetOrder(o.id, None);
    var ok := store.UpdateOrderStatus(o.id, status, true);
    afterUpdate := store.GetOrder(o.id, None);
    CreateUpdateRoundTrip(before, o, status);
  }
}
