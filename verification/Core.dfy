/** The Sans-IO VPN core (src/vpn_core.rs): route table, peer flags and bounded packet queues. */
module Core {
  import opened Wire
  import Ipv4

  const MAX_PACKETS_IN_QUEUE: nat := 1000

  datatype Event =
    | PeerConnected(key: Key)
    | PeerDisconnected(key: Key)
    | PacketFromTun(packet: Packet)
    | PacketFromIroh(packet: Packet, from: Key)

  datatype Action =
    | ConnectToPeer(key: Key)
    | DisconnectFromPeer(key: Key)
    | SendPacketTo(packet: Packet, to: Key)
    | WriteToTun(packet: Packet)
    | NoAction(log: LogEvent)

  datatype LogEvent =
    | UnknownPeer
    | AlreadyConnected
    | AlreadyDisconnected
    | SendPacketError(sendError: SendError)
    | RecvPacketError(recvError: RecvError)
    | ConnectionNotOpen
    | InternalStateError
    | PacketBuffered
    | PacketQueueOverflow

  datatype SendError =
    | IncorrectSrcIp | UnknownDestIp | SendMtuError | IncorrectTTL | SendBrokenLength
    | SendParseError(parseError: Ipv4.ParseError)

  datatype RecvError =
    | UnknownSrcIp | IncorrectDestIp | RecvMtuError | Spoofing | RecvBrokenLength
    | RecvParseError(parseError: Ipv4.ParseError)

  /** What `VpnCore::new` is given and never changes. */
  datatype Config = Config(addr: Addr, routes: map<Addr, Key>, maxPacketSize: nat)

  datatype Peer = Peer(isConnected: bool, addr: Addr, queue: seq<Packet>)

  datatype State = State(config: Config, peers: map<Key, Peer>)

  /** Indexing a map with a missing key panics; the panic is part of the model, not a precondition. */
  datatype Answer = Panicked | Answered(state: State, actions: seq<Action>)

  // ---- packet checks (src/vpn_core.rs:253-313)

  function VerifySendPacket(config: Config, packet: Packet): (r: Result<Addr, SendError>) {
    match Ipv4.Parse(packet)
    case Err(e) => Err(SendParseError(e))
    case Ok(header) =>
      if header.packetLength > config.maxPacketSize then Err(SendMtuError)
      else if header.packetLength < header.totalLength then Err(SendBrokenLength)
      else if header.ttl == 0 then Err(IncorrectTTL)
      else if header.src != config.addr then Err(IncorrectSrcIp)
      else if header.dest !in config.routes then Err(UnknownDestIp)
      else Ok(header.dest)
  }

  function VerifyRecvPacket(config: Config, packet: Packet, from: Key): (r: Result<(), RecvError>) {
    match Ipv4.Parse(packet)
    case Err(e) => Err(RecvParseError(e))
    case Ok(header) =>
      if header.packetLength > config.maxPacketSize then Err(RecvMtuError)
      else if header.packetLength < header.totalLength then Err(RecvBrokenLength)
      else if header.src !in config.routes then Err(UnknownSrcIp)
      else if header.dest != config.addr then Err(IncorrectDestIp)
      else if config.routes[header.src] != from then Err(Spoofing)
      else Ok(())
  }

  // ---- event handlers (src/vpn_core.rs:157-251)

  /** The actions that send a drained queue, oldest packet first. */
  function Flush(queue: seq<Packet>, to: Key): (actions: seq<Action>) {
    seq(|queue|, i requires 0 <= i < |queue| => SendPacketTo(queue[i], to))
  }

  function OnPeerConnected(s: State, node: Key): (r: Answer) {
    if node !in s.peers then Answered(s, [DisconnectFromPeer(node)])
    else if s.peers[node].isConnected then Answered(s, [NoAction(AlreadyConnected)])
    else if node in s.peers then
      var peer := s.peers[node];
      Answered(s.(peers := s.peers[node := peer.(isConnected := true, queue := [])]), Flush(peer.queue, node))
    else Answered(s, [NoAction(InternalStateError)])
  }

  function OnPeerDisconnected(s: State, node: Key): (r: Answer) {
    if node !in s.peers then Answered(s, [NoAction(UnknownPeer)])
    else if !s.peers[node].isConnected then Answered(s, [NoAction(AlreadyDisconnected)])
    else if node in s.peers then
      Answered(s.(peers := s.peers[node := s.peers[node].(isConnected := false)]), [])
    else Answered(s, [NoAction(InternalStateError)])
  }

  /** A full queue loses its oldest packet to make room. */
  function Enqueue(queue: seq<Packet>, packet: Packet): (r: seq<Packet>) {
    (if |queue| >= MAX_PACKETS_IN_QUEUE then queue[1..] else queue) + [packet]
  }

  function BufferActions(queue: seq<Packet>): (actions: seq<Action>) {
    (if |queue| >= MAX_PACKETS_IN_QUEUE then [NoAction(PacketQueueOverflow)] else []) + [NoAction(PacketBuffered)]
  }

  function SendPacket(s: State, packet: Packet): (r: Answer) {
    match VerifySendPacket(s.config, packet)
    case Err(e) => Answered(s, [NoAction(SendPacketError(e))])
    case Ok(destIp) =>
      if destIp !in s.config.routes then Answered(s, [NoAction(SendPacketError(UnknownDestIp))])
      else
        var key := s.config.routes[destIp];
        if key !in s.peers then Panicked
        else if s.peers[key].isConnected then Answered(s, [SendPacketTo(packet, key)])
        else if key !in s.peers then Answered(s, [NoAction(InternalStateError)])
        else
          var peer := s.peers[key];
          Answered(s.(peers := s.peers[key := peer.(queue := Enqueue(peer.queue, packet))]), BufferActions(peer.queue))
  }

  function RecvPacket(s: State, packet: Packet, from: Key): (r: Answer) {
    match VerifyRecvPacket(s.config, packet, from)
    case Ok(_) => Answered(s, [WriteToTun(packet)])
    case Err(e) => Answered(s, [NoAction(RecvPacketError(e))])
  }

  function Process(s: State, event: Event): (r: Answer) {
    match event
    case PeerConnected(key) => OnPeerConnected(s, key)
    case PeerDisconnected(key) => OnPeerDisconnected(s, key)
    case PacketFromTun(packet) => SendPacket(s, packet)
    case PacketFromIroh(packet, from) => RecvPacket(s, packet, from)
  }

  /** What `VpnCore::new` builds. A key listed under several addresses keeps one of them. */
  ghost predicate IsNew(s: State, config: Config) {
    && s.config == config
    && s.peers.Keys == config.routes.Values
    && (forall k :: k in s.peers ==>
          && !s.peers[k].isConnected && s.peers[k].queue == []
          && s.peers[k].addr in config.routes && config.routes[s.peers[k].addr] == k)
  }
}
