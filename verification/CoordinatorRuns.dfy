/** What a list of the core's actions leaves in the two channels, told without the loop. */
module CoordinatorRuns {
  import opened Wire
  import opened Seqs
  import opened Coordinator
  import opened CoreRuns
  import Core
  import Manager

  /** The first of `xs` that still fit into a channel holding `queued` packets. */
  function Fitting<T>(queued: nat, xs: seq<T>): (r: seq<T>) {
    if queued + |xs| <= 8192 then xs else if queued <= 8192 then xs[..8192 - queued] else []
  }

  lemma FittingSnoc<T>(queued: nat, xs: seq<T>, x: T)
    ensures Fitting(queued, xs + [x])
         == Fitting(queued, xs) + if queued + |Fitting(queued, xs)| < 8192 then [x] else []
  {}


  /** Packets for TUN are queued in order as long as there is room. */
  lemma {:induction false} HandleAllWrites(c: Channels, actions: seq<Core.Action>)
    ensures HandleAll(c, actions).toTun == c.toTun + Fitting(|c.toTun|, Pick(actions, WrittenBy()))
  {
    if actions != [] {
      var n := |actions| - 1;
      var fitted := Fitting(|c.toTun|, Pick(actions[..n], WrittenBy()));
      HandleAllWrites(c, actions[..n]);
      OneWrite(HandleAll(c, actions[..n]), actions[n]);
      if actions[n].WriteToTun? {
        FittingSnoc(|c.toTun|, Pick(actions[..n], WrittenBy()), actions[n].packet);
        assert c.toTun + (fitted + [actions[n].packet]) == c.toTun + fitted + [actions[n].packet];
      }
    }
  }

  lemma OneWrite(c: Channels, a: Core.Action)
    ensures Handle(c, a).toTun == if a.WriteToTun? && |c.toTun| < 8192 then c.toTun + [a.packet] else c.toTun
  {}

  function OrderedBy(): (f: Core.Action -> seq<Manager.CoreAction>) {
    (a: Core.Action) => if a.SendPacketTo? then [Manager.SendPacketTo(a.packet, a.to)] else []
  }

  ghost predicate NoDisconnects(actions: seq<Core.Action>) {
    forall i :: 0 <= i < |actions| ==> !actions[i].DisconnectFromPeer?
  }

  /** So are packets for the manager, when nothing else is sent to it... */
  lemma {:induction false} HandleAllOrders(c: Channels, actions: seq<Core.Action>)
    requires NoDisconnects(actions)
    ensures HandleAll(c, actions).toIroh == c.toIroh + Fitting(|c.toIroh|, Pick(actions, OrderedBy()))
  {
    if actions != [] {
      var n := |actions| - 1;
      HandleAllOrders(c, actions[..n]);
      if actions[n].SendPacketTo? {
        FittingSnoc(|c.toIroh|, Pick(actions[..n], OrderedBy()), Manager.SendPacketTo(actions[n].packet, actions[n].to));
      }
    }
  }

  function Disconnected(): (f: Manager.CoreAction -> seq<Key>) {
    (a: Manager.CoreAction) => if a.DisconnectFromPeer? then [a.key] else []
  }

  /** The peers whose disconnect is asked for in the channel to the manager. */
  function Asked(c: Channels): (r: seq<Key>) {
    Pick(c.toIroh, Disconnected())
  }

  function DisconnectedBy(): (f: Core.Action -> seq<Key>) {
    (a: Core.Action) => if a.DisconnectFromPeer? then [a.key] else []
  }

  /** ... while a disconnect waits for room and is never dropped. */
  lemma {:induction false} HandleAllDisconnects(c: Channels, actions: seq<Core.Action>)
    ensures Asked(HandleAll(c, actions)) == Asked(c) + Pick(actions, DisconnectedBy())
  {
    if actions != [] {
      var n := |actions| - 1;
      HandleAllDisconnects(c, actions[..n]);
      OneDisconnect(HandleAll(c, actions[..n]), actions[n]);
      var before := Pick(actions[..n], DisconnectedBy());
      assert Asked(c) + (before + DisconnectedBy()(actions[n])) == (Asked(c) + before) + DisconnectedBy()(actions[n]);
    }
  }

  lemma OneDisconnect(c: Channels, a: Core.Action)
    ensures Asked(Handle(c, a)) == Asked(c) + DisconnectedBy()(a)
  {
    var room := |c.toIroh| < CHANNEL_CAPACITY;
    PickConcat(c.toIroh, ToIroh(a, room), Disconnected());
    if ToIroh(a, room) != [] { PickOne(ToIroh(a, room)[0], Disconnected()); }
  }

  /** All three at once. */
  ghost predicate Forwards(c: Channels, actions: seq<Core.Action>, c': Channels) {
    && c'.toTun == c.toTun + Fitting(|c.toTun|, Pick(actions, WrittenBy()))
    && (NoDisconnects(actions) ==> c'.toIroh == c.toIroh + Fitting(|c.toIroh|, Pick(actions, OrderedBy())))
    && Asked(c') == Asked(c) + Pick(actions, DisconnectedBy())
  }

  lemma HandleAllForwards(c: Channels, actions: seq<Core.Action>)
    ensures Forwards(c, actions, HandleAll(c, actions))
  {
    HandleAllWrites(c, actions);
    HandleAllDisconnects(c, actions);
    if NoDisconnects(actions) { HandleAllOrders(c, actions); }
  }
}
