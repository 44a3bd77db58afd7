/** The coordinator's translation between the core and the channels (src/coord.rs:84-131). */
module Coordinator {
  import opened Wire
  import Core
  import Manager

  function MapIrohEvent(e: Manager.IrohEvent): (r: Core.Event) {
    match e
    case ConnectedToPeer(k) => Core.PeerConnected(k)
    case DisconnectedFromPeer(k) => Core.PeerDisconnected(k)
    case RecvPacketFrom(p, k) => Core.PacketFromIroh(p, k)
  }

  /** What handling one action puts into the channel to the manager: `try_send` drops a packet when there is no room,
      while a disconnect waits for room. */
  function ToIroh(a: Core.Action, room: bool): (r: seq<Manager.CoreAction>) {
    match a
    case SendPacketTo(p, k) => if room then [Manager.SendPacketTo(p, k)] else []
    case DisconnectFromPeer(k) => [Manager.DisconnectFromPeer(k)]
    case _ => []
  }

  function ToTun(a: Core.Action, room: bool): (r: seq<Packet>) {
    match a
    case WriteToTun(p) => if room then [p] else []
    case _ => []
  }

  /** Both channels after a list of actions, when nobody reads from them meanwhile. */
  datatype Channels = Channels(toIroh: seq<Manager.CoreAction>, toTun: seq<Packet>)

  function Handle(c: Channels, a: Core.Action): (r: Channels) {
    Channels(c.toIroh + ToIroh(a, |c.toIroh| < CHANNEL_CAPACITY), c.toTun + ToTun(a, |c.toTun| < CHANNEL_CAPACITY))
  }

  function HandleAll(c: Channels, actions: seq<Core.Action>): (r: Channels) {
    if actions == [] then c else Handle(HandleAll(c, actions[..|actions| - 1]), actions[|actions| - 1])
  }
}
