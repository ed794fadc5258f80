/** The order tracking page (src/components/OrderTracking.tsx): status to
    progress and time text, which steps are lit, and the lookup guard. */
module Tracking {
  import opened Options
  import opened Statuses
  import Seqs
  import OrderStore

  datatype StatusInfo = StatusInfo(caption: string, progress: nat)

  /** One row of the page's `statusMap`. */
  function Info(s: Status): (r: StatusInfo)
    ensures r.caption == Label(s)
    ensures r.progress <= 100
  {
    match s
    case Pending => StatusInfo(Label(s), 0)
    case Confirmed => StatusInfo(Label(s), 25)
    case Preparing => StatusInfo(Label(s), 50)
    case Baking => StatusInfo(Label(s), 75)
    case Ready => StatusInfo(Label(s), 90)
    case Delivered => StatusInfo(Label(s), 100)
  }

  /** `getStatusInfo`: an unknown status shows as pending. */
  function GetStatusInfo(status: string): (r: StatusInfo)
    ensures Parse(status).Some? ==> r == Info(Parse(status).value)
    ensures Parse(status).None? ==> r == Info(Pending)
  {
    Info(Parse(status).GetOr(Pending))
  }

  /** Progress grows strictly along the flow, from 0 to 100. */
  lemma ProgressIncreasing(a: Status, b: Status)
    ensures Position(a) < Position(b) <==> Info(a).progress < Info(b).progress
    ensures Info(a).progress == 0 <==> a == Pending
    ensures Info(a).progress == 100 <==> a == Delivered
  {
  }

  /** `getEstimatedTime`. */
  function EstimatedTime(status: string): (r: string)
    ensures Parse(status).None? ==> r == "25-30 min"
    ensures r == "Completado" <==> status == "delivered"
  {
    match Parse(status)
    case Some(Pending) => "5 min"
    case Some(Confirmed) => "20-25 min"
    case Some(Preparing) => "15-20 min"
    case Some(Baking) => "10-15 min"
    case Some(Ready) => "5-10 min"
    case Some(Delivered) => "Completado"
    case None => "25-30 min"
  }

  /** `indexOf(order.status)` in the step list: -1 for an unknown status. */
  function StepIndex(status: string): (r: int)
    ensures r == -1 <==> Parse(status).None?
    ensures r != -1 ==> r == Position(Parse(status).value)
  {
    match Seqs.FindFirst(Flow, (x: string) => x == status)
    case Some(k) => k
    case None => -1
  }

  /** Step `i`'s `isActive`. */
  predicate IsLit(status: string, i: nat): (r: bool)
    ensures r ==> Parse(status).Some? && i < |Flow|
  {
    StepIndex(status) >= i
  }

  /** The lit steps are a prefix of the step list that ends at the current
      status; an unknown status lights none. */
  lemma LitStepsArePrefix(status: string, i: nat)
    requires i < |Flow|
    ensures Parse(status).Some? ==> (IsLit(status, i) <==> i <= Position(Parse(status).value))
    ensures Parse(status).None? ==> !IsLit(status, i)
  {
  }

  /** The page state `trackOrder` writes. */
  datatype TrackingState = TrackingState(order: Option<OrderStore.Order>, error: string, loading: bool)

  /** How the lookup ended: it returned (possibly null), or it threw. */
  datatype LookupOutcome = Returned(found: Option<OrderStore.Order>) | Threw

  /** `trackOrder`: an empty id does nothing; otherwise the error is cleared,
      a returned value (even null) replaces the order, and only a thrown
      lookup sets "Pedido no encontrado". Loading ends false either way. */
  function TrackOrder(st: TrackingState, id: string, outcome: LookupOutcome): (r: TrackingState)
    ensures id == "" ==> r == st
    ensures id != "" ==> !r.loading
    ensures id != "" && outcome.Returned? ==> r.order == outcome.found && r.error == ""
    ensures id != "" && outcome.Threw? ==> r.order == st.order && r.error == "Pedido no encontrado"
  {
    if id == "" then st
    else match outcome
      case Returned(found) => TrackingState(found, "", false)
      case Threw => TrackingState(st.order, "Pedido no encontrado", false)
  }

  /** Tracking an id against the store: the store's lookup never throws, so
      the page shows its answer and no error message, even for an unknown id. */
  lemma TrackingUnknownIdShowsNoError(st: TrackingState, id: string, orders: seq<OrderStore.Order>)
    requires id != ""
    requires forall j :: 0 <= j < |orders| ==> orders[j].id != id
    ensures TrackOrder(st, id, Returned(OrderStore.Lookup(orders, id))) == TrackingState(None, "", false)
  {
  }
}
