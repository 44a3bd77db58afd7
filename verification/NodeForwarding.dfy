/** Packets keep their order from TUN to the sessions, across any number of reconnects. */
module NodeForwarding {
  import opened Wire
  import opened Seqs
  import opened Manager
  import opened ManagerRuns
  import opened CoreRuns
  import opened Coordinator
  import opened Node
  import Core

  function ParcelFor(k: Key): (f: Parcel -> seq<Packet>) {
    (p: Parcel) => if p.to == k then [p.packet] else []
  }

  function OrderFor(k: Key): (f: Order -> seq<Packet>) {
    (o: Order) => if o.action.SendPacketTo? && o.action.to == k then [o.action.packet] else []
  }

  /** The packets put into the channels of the sessions with `k`, over all its sessions so far. */
  function RelayedTo(n: Node.State, k: Key): (r: seq<Packet>) {
    Pick(n.mgr.relayed, ParcelFor(k))
  }

  function OrderedTo(n: Node.State, k: Key): (r: seq<Packet>) {
    Pick(n.orders, OrderFor(k))
  }

  // ---- the core is where its history leads

  ghost predicate History(n: Node.State, born: Core.State) {
    Feed(born, n.events) == Core.Answered(n.core, n.emitted)
  }

  lemma StepKeepsHistory(n: Node.State, step: Step, born: Core.State)
    requires History(n, born) && CanStep(n, step)
    ensures History(Next(n, step), born)
  {}

  // ---- everything in flight is, in order, part of what the core has sent

  function InFlight(n: Node.State, k: Key): (r: seq<Packet>) {
    RelayedTo(n, k) + OrderedTo(n, k) + SentTo(n.todo, k)
  }

  ghost predicate Forwarded(n: Node.State, k: Key) {
    Subsequence(InFlight(n, k), SentTo(n.emitted, k))
  }

  lemma LocalKeepsRelayed(m: Manager.State, mv: Move)
    requires Enabled(m, mv) && !mv.TakeAction?
    ensures Do(m, mv).relayed == m.relayed
  {}

  lemma FeedsKeepsForwarded(n: Node.State, e: Core.Event, k: Key)
    requires Forwarded(n, k) && n.todo == []
    ensures Forwarded(Feeds(n, e), k)
  {
    var r := Core.Process(n.core, e);
    if r.Answered? {
      PickConcat(n.emitted, r.actions, SendTo(k));
      assert InFlight(n, k) == RelayedTo(n, k) + OrderedTo(n, k);
      SubsequenceTakeAll(InFlight(n, k), SentTo(n.emitted, k), SentTo(r.actions, k));
      assert InFlight(Feeds(n, e), k) == InFlight(n, k) + SentTo(r.actions, k);
    }
  }

  lemma StampPicks(a: Core.Action, room: bool, at: nat, k: Key)
    ensures Pick(Stamp(ToIroh(a, room), at), OrderFor(k)) == if a.SendPacketTo? && room then SendTo(k)(a) else []
  {}

  /** One action moves from the core's list to the channel, or is dropped because there is no room. */
  lemma HandleKeepsForwarded(n: Node.State, k: Key)
    requires Forwarded(n, k) && n.todo != []
    ensures Forwarded(Handles(n), k)
  {
    var n', a := Handles(n), n.todo[0];
    var room := |n.orders| < CHANNEL_CAPACITY;
    PickHead(n.todo, SendTo(k));
    PickConcat(n.orders, Stamp(ToIroh(a, room), n.read), OrderFor(k));
    StampPicks(a, room, n.read, k);
    HandOverLast(RelayedTo(n, k), OrderedTo(n, k), SendTo(k)(a), SentTo(n'.todo, k), SentTo(n.emitted, k));
    if !(a.SendPacketTo? && room) {
      assert OrderedTo(n', k) == OrderedTo(n, k);
    }
  }

  lemma RelayAppends(m: Manager.State, p: Packet, to: Key)
    ensures BeginCoreAction(m, SendPacketTo(p, to)).relayed
         == m.relayed + if Takes(m, to) then [Parcel(to, p, m.table[to].session)] else []
  {}

  /** The manager takes a packet: it goes to the session's channel, or is dropped. */
  lemma TakeOrderKeepsForwarded(n: Node.State, k: Key)
    requires Forwarded(n, k) && CanStep(n, TakeOrder) && n.orders[0].action.SendPacketTo?
    ensures Forwarded(Next(n, TakeOrder), k)
  {
    var n', o := Next(n, TakeOrder), n.orders[0];
    RelayAppends(n.mgr, o.action.packet, o.action.to);
    PickHead(n.orders, OrderFor(k));
    HandOverMiddle(RelayedTo(n, k), OrderFor(k)(o), OrderedTo(n', k), SentTo(n.todo, k), SentTo(n.emitted, k));
    if Takes(n.mgr, o.action.to) {
      PickSnoc(n.mgr.relayed, Parcel(o.action.to, o.action.packet, n.mgr.table[o.action.to].session), ParcelFor(k));
    }
  }

  lemma StepKeepsForwarded(n: Node.State, step: Step, peers: set<Key>, k: Key)
    requires CoordOk(n, peers) && Forwarded(n, k) && CanStep(n, step)
    ensures Forwarded(Next(n, step), k)
  {
    match step
    case Local(mv) => LocalKeepsRelayed(n.mgr, mv);
    case TakeOrder => TakeOrderKeepsForwarded(n, k);
    case TakeReport => FeedsKeepsForwarded(n.(read := n.read + 1), MapIrohEvent(n.mgr.log[n.read]), k);
    case TakePacket => FeedsKeepsForwarded(n.(fromTun := n.fromTun[1..]), Core.PacketFromTun(n.fromTun[0]), k);
    case HandleAction => HandleKeepsForwarded(n, k);
    case TunRead(_) =>
    case TunWrite =>
  }

  lemma {:induction false} RunKeepsForwarded(n: Node.State, self: Key, config: Core.Config, steps: seq<Step>, k: Key)
    requires IsBooted(n, self, config) && Run(n, steps).Some?
    ensures var r := Run(n, steps).value; Forwarded(r, k) && History(r, n.core)
  {
    if steps == [] {
      SubsequenceRefl<Packet>([]);
      assert InFlight(n, k) == [];
    } else {
      var m := |steps| - 1;
      RunKeepsForwarded(n, self, config, steps[..m], k);
      RunKeepsWired(n, self, config, steps[..m]);
      StepKeepsForwarded(Run(n, steps[..m]).value, steps[m], config.routes.Values, k);
      StepKeepsHistory(Run(n, steps[..m]).value, steps[m], n.core);
    }
  }

  // ---- what the core has seen of TUN

  function FromTun(): (f: Core.Event -> seq<Packet>) {
    (e: Core.Event) => if e.PacketFromTun? then [e.packet] else []
  }

  /** The packets of TUN the core has processed, followed by those still in the channel, are all that entered it. */
  ghost predicate TunSeen(n: Node.State) {
    Pick(n.events, FromTun()) + n.fromTun == n.entered
  }

  lemma FeedsSees(n: Node.State, e: Core.Event)
    requires Sound(n.core)
    ensures var r := Feeds(n, e);
            && Pick(r.events, FromTun()) == Pick(n.events, FromTun()) + FromTun()(e)
            && r.fromTun == n.fromTun && r.entered == n.entered
  {
    ProcessSound(n.core, e);
    PickSnoc(n.events, e, FromTun());
  }

  lemma ReportIsNotTun(n: Node.State)
    requires Sound(n.core) && TunSeen(n) && CanStep(n, TakeReport)
    ensures TunSeen(Next(n, TakeReport))
  {
    FeedsSees(n.(read := n.read + 1), MapIrohEvent(n.mgr.log[n.read]));
  }

  lemma PacketIsSeen(n: Node.State)
    requires Sound(n.core) && TunSeen(n) && CanStep(n, TakePacket)
    ensures TunSeen(Next(n, TakePacket))
  {
    var p, rest := n.fromTun[0], n.fromTun[1..];
    FeedsSees(n.(fromTun := rest), Core.PacketFromTun(p));
    assert n.fromTun == [p] + rest;
    Regroup([], Pick(n.events, FromTun()), [p], rest);
  }

  lemma StepKeepsSeen(n: Node.State, step: Step, peers: set<Key>)
    requires CoordOk(n, peers) && TunSeen(n) && CanStep(n, step)
    ensures TunSeen(Next(n, step))
  {
    match step
    case TakeReport => ReportIsNotTun(n);
    case TakePacket => PacketIsSeen(n);
    case TunRead(p) => Regroup([], Pick(n.events, FromTun()), n.fromTun, [p]);
    case _ =>
  }

  lemma {:induction false} RunKeepsSeen(n: Node.State, self: Key, config: Core.Config, steps: seq<Step>)
    requires IsBooted(n, self, config) && Run(n, steps).Some?
    ensures TunSeen(Run(n, steps).value)
  {
    if steps != [] {
      var m := |steps| - 1;
      RunKeepsSeen(n, self, config, steps[..m]);
      RunKeepsWired(n, self, config, steps[..m]);
      StepKeepsSeen(Run(n, steps[..m]).value, steps[m], config.routes.Values);
    }
  }

  /** A packet read from TUN enters exactly if fewer than 8192 are queued, at the end of the queue; otherwise nothing
      changes. */
  lemma ReadEntersWithRoom(n: Node.State, p: Packet)
    ensures CanStep(n, TunRead(p))
    ensures var n' := Next(n, TunRead(p));
            if |n.fromTun| < 8192 then n' == n.(fromTun := n.fromTun + [p], entered := n.entered + [p]) else n' == n
  {}

  function DeliverableTo(config: Core.Config, k: Key): (f: Packet -> seq<Packet>) {
    (p: Packet) => if Deliverable(config, p, k) then [p] else []
  }

  /** What came from TUN for `k`, by the bytes. */
  function EnteredFor(config: Core.Config, packets: seq<Packet>, k: Key): (r: seq<Packet>) {
    Pick(packets, DeliverableTo(config, k))
  }

  lemma {:induction false} AcceptedIsSeen(config: Core.Config, events: seq<Core.Event>, k: Key)
    ensures Accepted(config, events, k) == EnteredFor(config, Pick(events, FromTun()), k)
  {
    if events != [] {
      var n := |events| - 1;
      var e := events[n];
      AcceptedIsSeen(config, events[..n], k);
      PickConcat(Pick(events[..n], FromTun()), FromTun()(e), DeliverableTo(config, k));
      if e.PacketFromTun? { PickOne(e.packet, DeliverableTo(config, k)); }
    }
  }

  /** All that entered from TUN for a peer has been accepted for it by the core or is still in the channel. */
  lemma EnteredSplits(n: Node.State, self: Key, config: Core.Config, steps: seq<Step>, k: Key)
    requires IsBooted(n, self, config) && Run(n, steps).Some?
    ensures var r := Run(n, steps).value;
            EnteredFor(config, r.entered, k) == Accepted(config, r.events, k) + EnteredFor(config, r.fromTun, k)
  {
    RunKeepsSeen(n, self, config, steps);
    var r := Run(n, steps).value;
    AcceptedIsSeen(config, r.events, k);
    PickConcat(Pick(r.events, FromTun()), r.fromTun, DeliverableTo(config, k));
  }

  /** Ordered, duplicate-free forwarding: across any number of reconnects, the packets the manager puts into a peer's
      successive sessions are, in order and each at most once, packets that came from TUN and are, by their bytes,
      deliverable to that peer. */
  lemma OrderedForwarding(n: Node.State, self: Key, config: Core.Config, steps: seq<Step>, k: Key)
    requires IsBooted(n, self, config) && Run(n, steps).Some? && k in config.routes.Values
    ensures var r := Run(n, steps).value;
            Subsequence(RelayedTo(r, k), EnteredFor(config, r.entered, k))
  {
    RunKeepsForwarded(n, self, config, steps, k);
    var r := Run(n, steps).value;
    Conservation(n.core, config, r.events, k);
    var sent := SentTo(r.emitted, k);
    SubsequencePrefix(sent, r.core.peers[k].queue, Accepted(config, r.events, k));
    SubsequencePrefix(RelayedTo(r, k) + OrderedTo(r, k), SentTo(r.todo, k), sent);
    SubsequencePrefix(RelayedTo(r, k), OrderedTo(r, k), sent);
    SubsequenceTrans(RelayedTo(r, k), sent, Accepted(config, r.events, k));
    EnteredSplits(n, self, config, steps, k);
    SubsequenceExtend(RelayedTo(r, k), Accepted(config, r.events, k), EnteredFor(config, r.fromTun, k));
  }

  lemma {:induction false} EnteredAreDeliverable(config: Core.Config, packets: seq<Packet>, k: Key)
    ensures forall p :: p in EnteredFor(config, packets, k) ==> Deliverable(config, p, k) && p in packets
  {
    if packets != [] {
      EnteredAreDeliverable(config, packets[..|packets| - 1], k);
    }
  }

  /** Send safety of the whole node: every packet ever put into a session with `k` came from TUN and is deliverable to
      `k`. */
  lemma RelayedAreDeliverable(n: Node.State, self: Key, config: Core.Config, steps: seq<Step>, k: Key)
    requires IsBooted(n, self, config) && Run(n, steps).Some? && k in config.routes.Values
    ensures var r := Run(n, steps).value;
            forall p :: p in RelayedTo(r, k) ==> Deliverable(config, p, k) && p in r.entered
  {
    OrderedForwarding(n, self, config, steps, k);
    var r := Run(n, steps).value;
    EnteredAreDeliverable(config, r.entered, k);
    SubsequenceIn(RelayedTo(r, k), EnteredFor(config, r.entered, k));
  }
}
