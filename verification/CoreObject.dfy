/** The `VpnCore` struct as an object; every method is proved against the function of the same name. */
module CoreObject {
  import opened Wire
  import opened Core
  import opened CoreRuns

  class VpnCore {
    var maxPacketSize: nat
    var ipv4Addr: Addr
    var peers: map<Key, Peer>
    var routeTable: map<Addr, Key>

    function Abs(): (s: State)
      reads this
    {
      State(Config(ipv4Addr, routeTable, maxPacketSize), peers)
    }

    constructor (ipv4Addr: Addr, routeTable: map<Addr, Key>, maxPacketSize: nat)
      ensures IsNew(Abs(), Config(ipv4Addr, routeTable, maxPacketSize)) && Sound(Abs())
    {
      var table: map<Key, Peer> := map[];
      var todo := routeTable.Keys;
      while todo != {}
        invariant todo <= routeTable.Keys
        invariant forall ip :: ip in routeTable && ip !in todo ==> routeTable[ip] in table
        invariant forall k :: k in table ==>
                    && !table[k].isConnected && table[k].queue == []
                    && table[k].addr in routeTable && routeTable[table[k].addr] == k
        decreases todo
      {
        var ip :| ip in todo;
        table := table[routeTable[ip] := Peer(false, ip, [])];
        todo := todo - {ip};
      }
      this.ipv4Addr := ipv4Addr;
      this.routeTable := routeTable;
      this.maxPacketSize := maxPacketSize;
      this.peers := table;
      assert table.Keys == routeTable.Values;
      NewIsSound(State(Config(ipv4Addr, routeTable, maxPacketSize), table), Config(ipv4Addr, routeTable, maxPacketSize));
    }

    /** `None` stands for a panic, which leaves the fields as they are; a sound core never panics and stays sound. */
    method Process(event: Event) returns (actions: Option<seq<Action>>)
      modifies this
      ensures Core.Process(old(Abs()), event)
           == if actions.None? then Panicked else Answered(Abs(), actions.value)
      ensures actions.None? ==> Abs() == old(Abs())
      ensures Sound(old(Abs())) ==>
                && actions.Some? && Sound(Abs()) && peers.Keys == old(peers.Keys)
                && (forall a :: a in actions.value ==> ActionSound(Abs(), a))
    {
      if Sound(Abs()) { ProcessSound(Abs(), event); }
      match event {
        case PeerConnected(key) =>
          var a := OnPeerConnected(key);
          actions := Some(a);
        case PeerDisconnected(key) =>
          var a := OnPeerDisconnected(key);
          actions := Some(a);
        case PacketFromTun(packet) =>
          actions := SendPacket(packet);
        case PacketFromIroh(packet, from) =>
          var a := RecvPacket(packet, from);
          actions := Some(a);
      }
    }

    method OnPeerConnected(node: Key) returns (actions: seq<Action>)
      modifies this
      ensures Core.OnPeerConnected(old(Abs()), node) == Answered(Abs(), actions)
    {
      if node !in peers {
        return [DisconnectFromPeer(node)];
      }
      var peer := peers[node];
      if peer.isConnected {
        return [NoAction(AlreadyConnected)];
      }
      peers := peers[node := peer.(isConnected := true, queue := [])];
      actions := [];
      for i := 0 to |peer.queue|
        invariant actions == Flush(peer.queue[..i], node)
      {
        actions := actions + [SendPacketTo(peer.queue[i], node)];
      }
      assert peer.queue[..|peer.queue|] == peer.queue;
    }

    method OnPeerDisconnected(node: Key) returns (actions: seq<Action>)
      modifies this
      ensures Core.OnPeerDisconnected(old(Abs()), node) == Answered(Abs(), actions)
    {
      if node !in peers {
        return [NoAction(UnknownPeer)];
      }
      if !peers[node].isConnected {
        return [NoAction(AlreadyDisconnected)];
      }
      peers := peers[node := peers[node].(isConnected := false)];
      actions := [];
    }

    method SendPacket(packet: Packet) returns (actions: Option<seq<Action>>)
      modifies this
      ensures Core.SendPacket(old(Abs()), packet)
           == if actions.None? then Panicked else Answered(Abs(), actions.value)
      ensures actions.None? ==> Abs() == old(Abs())
      ensures forall e :: RefusedToSend(old(Abs()).config, packet, e) ==>
                actions == Some([NoAction(SendPacketError(e))]) && Abs() == old(Abs())
    {
      VerifySendErrors(Abs().config, packet);
      var check := VerifySendPacket(Config(ipv4Addr, routeTable, maxPacketSize), packet);
      if check.Err? {
        return Some([NoAction(SendPacketError(check.error))]);
      }
      var key := routeTable[check.value];
      if key !in peers {
        return None;
      }
      if peers[key].isConnected {
        return Some([SendPacketTo(packet, key)]);
      }
      var queue := peers[key].queue;
      var log: seq<Action> := [];
      if |queue| >= MAX_PACKETS_IN_QUEUE {
        queue := queue[1..];
        log := log + [NoAction(PacketQueueOverflow)];
      }
      queue := queue + [packet];
      log := log + [NoAction(PacketBuffered)];
      peers := peers[key := peers[key].(queue := queue)];
      actions := Some(log);
    }

    method RecvPacket(packet: Packet, from: Key) returns (actions: seq<Action>)
      ensures Core.RecvPacket(Abs(), packet, from) == Answered(Abs(), actions)
      ensures Receivable(Abs().config, packet, from) ==> actions == [WriteToTun(packet)]
      ensures forall e :: RefusedToReceive(Abs().config, packet, from, e) ==> actions == [NoAction(RecvPacketError(e))]
    {
      VerifyRecvExact(Abs().config, packet, from);
      VerifyRecvErrors(Abs().config, packet, from);
      match VerifyRecvPacket(Config(ipv4Addr, routeTable, maxPacketSize), packet, from) {
        case Ok(_) => actions := [WriteToTun(packet)];
        case Err(e) => actions := [NoAction(RecvPacketError(e))];
      }
    }
  }
}
