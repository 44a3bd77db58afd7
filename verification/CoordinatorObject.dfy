/** The `Coordinator` struct as an object: it drives the core and forwards what the core asks for. */
module CoordinatorObject {
  import opened Wire
  import opened Coordinator
  import Core
  import Manager
  import opened CoreObject
  import opened CoreRuns
  import opened CoordinatorRuns

  class CoordinatorActor {
    const core: VpnCore
    var txToIroh: seq<Manager.CoreAction>
    var txToTun: seq<Packet>

    function Out(): (c: Channels)
      reads this
    {
      Channels(txToIroh, txToTun)
    }

    constructor (core: VpnCore)
      ensures this.core == core && Out() == Channels([], [])
    {
      this.core := core;
      this.txToIroh, this.txToTun := [], [];
    }

    /** `panicked` when the core panics; the channels are then untouched. */
    method HandleIrohEvent(event: Manager.IrohEvent) returns (panicked: bool)
      modifies this, core
      ensures match Core.Process(old(core.Abs()), MapIrohEvent(event))
              case Panicked => panicked && Out() == old(Out()) && core.Abs() == old(core.Abs())
              case Answered(s, actions) =>
                && !panicked && core.Abs() == s
                && Out() == HandleAll(old(Out()), actions) && Forwards(old(Out()), actions, Out())
      ensures Sound(old(core.Abs())) ==> !panicked && Sound(core.Abs())
    {
      var r := core.Process(MapIrohEvent(event));
      if r.None? { return true; }
      HandleActions(r.value);
      panicked := false;
    }

    method HandlePacketFromTun(packet: Packet) returns (panicked: bool)
      modifies this, core
      ensures match Core.Process(old(core.Abs()), Core.PacketFromTun(packet))
              case Panicked => panicked && Out() == old(Out()) && core.Abs() == old(core.Abs())
              case Answered(s, actions) =>
                && !panicked && core.Abs() == s
                && Out() == HandleAll(old(Out()), actions) && Forwards(old(Out()), actions, Out())
      ensures Sound(old(core.Abs())) ==> !panicked && Sound(core.Abs())
    {
      var r := core.Process(Core.PacketFromTun(packet));
      if r.None? { return true; }
      HandleActions(r.value);
      panicked := false;
    }

    /** Packets for TUN are appended in order as long as there is room; so are packets for the manager, if no disconnect
        is among the actions; disconnects always get through. */
    method HandleActions(actions: seq<Core.Action>)
      modifies this
      ensures Out() == HandleAll(old(Out()), actions)
      ensures Forwards(old(Out()), actions, Out())
    {
      for i := 0 to |actions|
        invariant Out() == HandleAll(old(Out()), actions[..i])
      {
        assert actions[..i + 1][..i] == actions[..i];
        match actions[i] {
          case ConnectToPeer(_) =>
          case DisconnectFromPeer(key) =>
            txToIroh := txToIroh + [Manager.DisconnectFromPeer(key)];
          case SendPacketTo(packet, to) =>
            if |txToIroh| < CHANNEL_CAPACITY { txToIroh := txToIroh + [Manager.SendPacketTo(packet, to)]; }
          case WriteToTun(packet) =>
            if |txToTun| < CHANNEL_CAPACITY { txToTun := txToTun + [packet]; }
          case NoAction(_) =>
        }
      }
      assert actions[..|actions|] == actions;
      HandleAllForwards(old(Out()), actions);
    }
  }
}
