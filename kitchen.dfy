/** The kitchen dashboard's logic (src/components/KitchenDashboard.tsx): the
    status successor map, the advance button, the local status overwrite,
    the filters and counters, and the elapsed-time text. */
module Kitchen {
  import opened Options
  import opened Statuses
  import opened Text
  import Seqs
  import OrderStore

  type Order = OrderStore.Order

  /** `getNextStatus`: the `statusFlow` table. */
  function NextStatus(s: string): (r: Option<string>)
    ensures r.Some? <==> Parse(s).Some? && Parse(s).value != Delivered
    ensures r.Some? ==>
      Parse(r.value).Some? && Position(Parse(r.value).value) == Position(Parse(s).value) + 1
  {
    if s == "pending" then Some("confirmed")
    else if s == "confirmed" then Some("preparing")
    else if s == "preparing" then Some("baking")
    else if s == "baking" then Some("ready")
    else if s == "ready" then Some("delivered")
    else None
  }

  /** The advance button: hidden for a delivered order, otherwise it moves
      the order to `getNextStatus(status) || 'delivered'`. */
  function AdvanceTarget(s: string): (r: Option<string>)
    ensures r.None? <==> s == "delivered"
    ensures Parse(s).None? ==> r == Some("delivered")
    ensures r.Some? && Parse(s).Some? ==>
      Parse(r.value).Some? && Position(Parse(r.value).value) == Position(Parse(s).value) + 1
  {
    if s == "delivered" then None else Some(NextStatus(s).GetOr("delivered"))
  }

  /** The status after pressing the advance button `n` times (None once the
      button is gone). */
  function Advanced(s: string, n: nat): Option<string>
    decreases n
  {
    if n == 0 then Some(s)
    else match AdvanceTarget(s)
      case Some(t) => Advanced(t, n - 1)
      case None => None
  }

  /** From `pending`, `n` presses reach the `n`-th step of the flow; five reach
      `delivered`, after which there is no button. */
  lemma {:induction false} AdvancesFromPending(n: nat)
    requires n <= 5
    ensures Advanced("pending", n) == Some(Flow[n])
    ensures Advanced("pending", 6) == None
  {
    assert Advanced("delivered", 1) == None;
    assert Advanced("ready", 1) == Some("delivered");
    assert Advanced("baking", 2) == Some("delivered");
    assert Advanced("preparing", 3) == Some("delivered");
    assert Advanced("confirmed", 4) == Some("delivered");
    assert Advanced("pending", 5) == Some("delivered");
  }

  /** Pressing advance never moves a known status backwards; an unknown one
      lands on the last step. */
  lemma AdvanceNeverRegresses(s: string)
    requires s != "delivered"
    ensures Parse(AdvanceTarget(s).value).Some?
    ensures Parse(s).Some? ==> Position(Parse(AdvanceTarget(s).value).value) > Position(Parse(s).value)
    ensures Parse(s).None? ==> Parse(AdvanceTarget(s).value) == Some(Delivered)
  {
  }

  /** The dashboard's own `updateOrderStatus`: every order with the id gets
      the new status, which is not checked against the known ones. */
  function UpdateOrderStatus(orders: seq<Order>, id: string, newStatus: string): (r: seq<Order>)
    ensures |r| == |orders|
    ensures forall j :: 0 <= j < |orders| && orders[j].id == id ==> r[j] == orders[j].(status := newStatus)
    ensures forall j :: 0 <= j < |orders| && orders[j].id != id ==> r[j] == orders[j]
  {
    seq(|orders|, j requires 0 <= j < |orders| =>
      if orders[j].id == id then orders[j].(status := newStatus) else orders[j])
  }

  predicate UniqueIds(orders: seq<Order>) {
    forall i, j :: 0 <= i < j < |orders| ==> orders[i].id != orders[j].id
  }

  /** With distinct ids the dashboard's update of its list agrees with the
      store's first-match update of the same list. */
  lemma DashboardAgreesWithStore(orders: seq<Order>, id: string, newStatus: string)
    requires UniqueIds(orders)
    ensures UpdateOrderStatus(orders, id, newStatus) == OrderStore.WithStatus(orders, id, newStatus)
  {
    var r := UpdateOrderStatus(orders, id, newStatus);
    var w := OrderStore.WithStatus(orders, id, newStatus);
    forall j | 0 <= j < |orders| ensures r[j] == w[j] {
      match OrderStore.IndexOfId(orders, id)
      case Some(k) =>
        if j != k {
          assert orders[j].id != id by {
            if j > k { assert orders[k].id != orders[j].id; }
          }
        }
      case None =>
    }
  }

  /** Whether the filter choice keeps an order. */
  predicate Keeps(filter: string, o: Order) {
    if filter == "all" then true
    else if filter == "active" then o.status != "delivered"
    else o.status == filter
  }

  /** `filteredOrders`. */
  function FilteredOrders(orders: seq<Order>, filter: string): (r: seq<Order>)
    ensures forall o :: o in r <==> o in orders && Keeps(filter, o)
    ensures forall o :: multiset(r)[o] == if Keeps(filter, o) then multiset(orders)[o] else 0
    ensures Seqs.IsSubsequence(r, orders)
  {
    Seqs.FilterIsSubsequence(orders, (o: Order) => Keeps(filter, o));
    Seqs.Filter(orders, (o: Order) => Keeps(filter, o))
  }

  /** The `'all'` filter shows the whole list, in order. */
  lemma FilterAllShowsEverything(orders: seq<Order>)
    ensures FilteredOrders(orders, "all") == orders
  {
    Seqs.FilterAll(orders, (o: Order) => Keeps("all", o));
  }

  /** `activeOrders`. */
  function ActiveOrders(orders: seq<Order>): (r: seq<Order>)
    ensures forall o :: o in r <==> o in orders && o.status != "delivered"
    ensures forall o :: multiset(r)[o] == if o.status != "delivered" then multiset(orders)[o] else 0
  {
    Seqs.Filter(orders, (o: Order) => o.status != "delivered")
  }

  /** `completedToday`. */
  function CompletedCount(orders: seq<Order>): (r: nat)
    ensures r <= |orders|
    ensures r == 0 <==> forall j :: 0 <= j < |orders| ==> orders[j].status != "delivered"
    ensures r == Seqs.Count(orders, (o: Order) => o.status == "delivered")
  {
    Seqs.FilterEmpty(orders, (o: Order) => o.status == "delivered");
    |Seqs.Filter(orders, (o: Order) => o.status == "delivered")|
  }

  /** The two counters split the list: every order is active or completed. */
  lemma CountersSplitOrders(orders: seq<Order>)
    ensures |ActiveOrders(orders)| + CompletedCount(orders) == |orders|
  {
    Seqs.FilterSplits(orders, (o: Order) => o.status != "delivered", (o: Order) => o.status == "delivered");
  }

  /** The `'active'` filter shows exactly the active orders. */
  lemma ActiveFilterIsActiveOrders(orders: seq<Order>)
    ensures FilteredOrders(orders, "active") == ActiveOrders(orders)
  {
    FilterSameCondition(orders, (o: Order) => Keeps("active", o), (o: Order) => o.status != "delivered");
  }

  lemma {:induction false} FilterSameCondition(orders: seq<Order>, p: Order -> bool, q: Order -> bool)
    requires forall o :: p(o) == q(o)
    ensures Seqs.Filter(orders, p) == Seqs.Filter(orders, q)
    decreases |orders|
  {
    if orders != [] {
      FilterSameCondition(orders[1..], p, q);
    }
  }

  /** How `getTimeElapsed` splits the minute count `d` (a whole number, which
      is negative for a timestamp in the future). */
  datatype Elapsed = Minutes(total: int) | HoursMinutes(hours: nat, minutes: nat)

  function ElapsedParts(d: int): (r: Elapsed)
    ensures r.Minutes? <==> d < 60
    ensures r.Minutes? ==> r.total == d
    ensures r.HoursMinutes? ==> r.hours >= 1 && r.minutes < 60 && 60 * r.hours + r.minutes == d
  {
    if d < 60 then Minutes(d) else HoursMinutes(d / 60, d % 60)
  }

  /** `getTimeElapsed`'s text: `"<d> min"` or `"<h>h <m>m"`. */
  function TimeElapsed(d: int): (r: string)
    ensures d < 60 ==> r == IntText(d) + " min"
  {
    match ElapsedParts(d)
    case Minutes(m) => IntText(m) + " min"
    case HoursMinutes(h, m) => NatText(h) + "h " + NatText(m) + "m"
  }

  /** Reading the hours-and-minutes text back gives `h` and `m` with
      `60 * h + m == d` and `m < 60`. */
  lemma TimeElapsedReadsBack(d: int)
    requires d >= 60
    ensures var h, m := NatText(d / 60), NatText(d % 60);
      && TimeElapsed(d) == h + "h " + m + "m"
      && DigitsValue(m) < 60
      && 60 * DigitsValue(h) + DigitsValue(m) == d
  {
    NatTextRoundTrip(d / 60);
    NatTextRoundTrip(d % 60);
  }

  /** `getStatusLabel`: the fixed label of a known status, anything else as is. */
  function StatusLabel(s: string): (r: string)
    ensures Parse(s).Some? ==> r == Label(Parse(s).value)
    ensures Parse(s).None? ==> r == s
  {
    match Parse(s)
    case Some(st) => Label(st)
    case None => s
  }
}
