/** The relay server's event handlers (src/components/Server.js).

    The transport's delivery rules are taken as given: `socket.broadcast.emit`
    reaches every connected client except the sender, `io.emit` every
    connected client, and `socket.emit` the sender alone. A handler's effect
    is then the new value of the module-level `canvasData` blob and the set of
    deliveries it asks the transport for (socket.io fixes no order among the
    recipients of one emit, so they form a set).
 */
module Relay {

  type ClientId = nat

  /** Events a connected client's socket raises on the server. */
  datatype ClientEvent =
    | Connect
    | Draw(data: string)
    | ClearCanvas
    | GetCanvas
    | Disconnect

  /** One message handed to the transport: event `name` with `payload` for `recipient`. */
  datatype Delivery = Delivery(recipient: ClientId, name: string, payload: string)

  /** The blob after a handler ran, and what it sent. */
  datatype Routing = Routing(blob: string, deliveries: set<Delivery>)

  const DrawEvent: string := "draw"
  const CanvasDataEvent: string := "canvasData"

  /** The handler for `event` from `sender`, with `clients` connected and the
      blob holding `blob`. */
  function Route(blob: string, event: ClientEvent, sender: ClientId, clients: set<ClientId>): (r: Routing)
    ensures event.Draw? ==> r.blob == blob
    ensures event.Draw? ==> forall d :: d in r.deliveries <==>
      d.recipient in clients && d.recipient != sender && d.name == DrawEvent && d.payload == event.data
    ensures event.ClearCanvas? ==> r.blob == ""
    ensures event.ClearCanvas? ==> forall d :: d in r.deliveries <==>
      d.recipient in clients && d.name == CanvasDataEvent && d.payload == ""
    ensures event.GetCanvas? ==> r.blob == blob && (r.deliveries != {} <==> blob != "")
    ensures event.GetCanvas? ==> forall d :: d in r.deliveries ==> d == Delivery(sender, CanvasDataEvent, blob)
    ensures event.Connect? || event.Disconnect? ==> r.blob == blob && r.deliveries == {}
  {
    match event
    case Connect => Routing(blob, {})
    case Draw(data) =>
      Routing(blob, set c | c in clients && c != sender :: Delivery(c, DrawEvent, data))
    case ClearCanvas =>
      Routing("", set c | c in clients :: Delivery(c, CanvasDataEvent, ""))
    case GetCanvas =>
      if blob != "" then Routing(blob, {Delivery(sender, CanvasDataEvent, blob)}) else Routing(blob, {})
    case Disconnect => Routing(blob, {})
  }

  /** One handled event: what happened and who was connected at the time. */
  datatype Handled = Handled(event: ClientEvent, sender: ClientId, clients: set<ClientId>)

  /** The blob after the handlers of `events` ran in order, starting from `blob`. */
  function BlobAfter(blob: string, events: seq<Handled>): string
    decreases |events|
  {
    if events == [] then blob
    else BlobAfter(Route(blob, events[0].event, events[0].sender, events[0].clients).blob, events[1..])
  }

  /** The blob starts empty and is only ever assigned the empty string, so it
      is empty after any sequence of events. */
  lemma {:induction false} BlobStaysEmpty(events: seq<Handled>)
    ensures BlobAfter("", events) == ""
    decreases |events|
  {
    if events != [] {
      BlobStaysEmpty(events[1..]);
    }
  }

  /** Hence a getCanvas request never sends anything, whatever came before. */
  lemma GetCanvasNeverSends(events: seq<Handled>, sender: ClientId, clients: set<ClientId>)
    ensures Route(BlobAfter("", events), GetCanvas, sender, clients).deliveries == {}
  {
    BlobStaysEmpty(events);
  }

  /** A drawing is not echoed to its sender, and reaches every other client. */
  lemma DrawNotEchoed(blob: string, data: string, sender: ClientId, clients: set<ClientId>)
    ensures Delivery(sender, DrawEvent, data) !in Route(blob, Draw(data), sender, clients).deliveries
    ensures forall c :: c in clients && c != sender ==>
      Delivery(c, DrawEvent, data) in Route(blob, Draw(data), sender, clients).deliveries
  {
  }

  /** A clear reaches its own sender too. */
  lemma ClearReachesSender(blob: string, sender: ClientId, clients: set<ClientId>)
    requires sender in clients
    ensures Delivery(sender, CanvasDataEvent, "") in Route(blob, ClearCanvas, sender, clients).deliveries
  {
  }

  /** The server process: the blob it holds, reassigned by its handlers. */
  class RelayServer {
    var canvasData: string

    /** The blob is only ever assigned the empty string. */
    ghost predicate Valid()
      reads this
    {
      canvasData == ""
    }

    constructor ()
      ensures Valid()
    {
      canvasData := "";
    }

    /** Runs the handler for `event` raised by `sender`'s socket while
        `clients` are connected, and returns what it sends. */
    method Handle(event: ClientEvent, sender: ClientId, clients: set<ClientId>) returns (deliveries: set<Delivery>)
      requires Valid()
      modifies this
      ensures Valid()
      ensures canvasData == Route(old(canvasData), event, sender, clients).blob
      ensures deliveries == Route(old(canvasData), event, sender, clients).deliveries
    {
      match event
      case Connect =>
        deliveries := {};
      case Draw(data) =>
        deliveries := set c | c in clients && c != sender :: Delivery(c, DrawEvent, data);
      case ClearCanvas =>
        canvasData := "";
        deliveries := set c | c in clients :: Delivery(c, CanvasDataEvent, canvasData);
      case GetCanvas =>
        deliveries := {};
        if canvasData != "" {
          deliveries := {Delivery(sender, CanvasDataEvent, canvasData)};
        }
      case Disconnect =>
        deliveries := {};
    }
  }
}
