/** The six order statuses the kitchen and the tracking page know, in the
    order an order goes through them. Orders themselves carry the status as
    free text; these are the names that text is compared with. */
module Statuses {
  import opened Options

  datatype Status = Pending | Confirmed | Preparing | Baking | Ready | Delivered

  /** The step sequence `['pending', 'confirmed', 'preparing', 'baking', 'ready', 'delivered']`. */
  const Flow: seq<string> := ["pending", "confirmed", "preparing", "baking", "ready", "delivered"]

  function Name(s: Status): string {
    match s
    case Pending => "pending"
    case Confirmed => "confirmed"
    case Preparing => "preparing"
    case Baking => "baking"
    case Ready => "ready"
    case Delivered => "delivered"
  }

  /** The position of a status in `Flow`. */
  function Position(s: Status): (r: nat)
    ensures r < |Flow| && Flow[r] == Name(s)
  {
    match s
    case Pending => 0
    case Confirmed => 1
    case Preparing => 2
    case Baking => 3
    case Ready => 4
    case Delivered => 5
  }

  /** The status whose name is `text`, if `text` is one of the six names. */
  function Parse(text: string): (r: Option<Status>)
    ensures r.Some? ==> Name(r.value) == text
    ensures r.None? <==> text !in Flow
  {
    if text == "pending" then Some(Pending)
    else if text == "confirmed" then Some(Confirmed)
    else if text == "preparing" then Some(Preparing)
    else if text == "baking" then Some(Baking)
    else if text == "ready" then Some(Ready)
    else if text == "delivered" then Some(Delivered)
    else None
  }

  /** Every status reads back from its own name. */
  lemma ParseName(s: Status)
    ensures Parse(Name(s)) == Some(s)
  {
  }

  /** The Spanish label both the kitchen and the tracking page show. */
  function Label(s: Status): string {
    match s
    case Pending => "Pendiente"
    case Confirmed => "Confirmado"
    case Preparing => "Preparando"
    case Baking => "Horneando"
    case Ready => "Listo"
    case Delivered => "Entregado"
  }
}
