/** What becomes of every packet between TUN and the sessions: nothing is lost without a recorded, explained drop. */
module NodeLosses {
  import opened Wire
  import opened Seqs
  import opened Manager
  import opened ManagerRuns
  import opened ManagerReports
  import opened ManagerTraffic
  import opened ClosedRuns
  import opened CoreRuns
  import opened Coordinator
  import opened Node
  import opened NodeViews
  import opened NodeForwarding
  import Core

  function DropFor(k: Key): (f: Drop -> seq<Packet>) {
    (d: Drop) => if d.to == k then [d.packet] else []
  }

  function DroppedTo(n: Node.State, k: Key): (r: seq<Packet>) {
    Pick(n.drops, DropFor(k))
  }

  // ---- a step that drops nothing keeps what is in flight, in order

  lemma HandleKeepsFlight(n: Node.State, k: Key)
    requires n.todo != [] && HandleDrops(n) == []
    ensures InFlight(Handles(n), k) == InFlight(n, k)
  {
    var n', a, room := Handles(n), n.todo[0], |n.orders| < CHANNEL_CAPACITY;
    PickHead(n.todo, SendTo(k));
    PickConcat(n.orders, Stamp(ToIroh(a, room), n.read), OrderFor(k));
    StampPicks(a, room, n.read, k);
    Regroup(RelayedTo(n, k), OrderedTo(n, k), SendTo(k)(a), SentTo(n'.todo, k));
  }

  lemma TakeKeepsFlight(n: Node.State, k: Key)
    requires CanStep(n, TakeOrder) && n.orders[0].action.SendPacketTo? && OrderDrops(n) == []
    ensures InFlight(Next(n, TakeOrder), k) == InFlight(n, k)
  {
    var n', o := Next(n, TakeOrder), n.orders[0];
    RelayAppends(n.mgr, o.action.packet, o.action.to);
    PickHead(n.orders, OrderFor(k));
    PickSnoc(n.mgr.relayed, Parcel(o.action.to, o.action.packet, n.mgr.table[o.action.to].session), ParcelFor(k));
    Regroup([], RelayedTo(n, k), OrderFor(k)(o), OrderedTo(n', k));
    assert [] + RelayedTo(n, k) == RelayedTo(n, k);
  }

  lemma FeedsGrowsFlight(n: Node.State, e: Core.Event, k: Key)
    requires n.todo == [] && Sound(n.core)
    ensures var n' := Feeds(n, e);
            && InFlight(n', k) == InFlight(n, k) + SentTo(n'.todo, k) && n'.drops == n.drops
            && SentTo(n'.emitted, k) == SentTo(n.emitted, k) + SentTo(n'.todo, k)
  {
    FeedsAnswers(n, e);
    PickConcat(n.emitted, Feeds(n, e).todo, SendTo(k));
    assert SentTo(n.todo, k) == [];
    assert RelayedTo(n, k) + OrderedTo(n, k) + [] == RelayedTo(n, k) + OrderedTo(n, k);
  }

  lemma FeedsAnswers(n: Node.State, e: Core.Event)
    requires Sound(n.core)
    ensures var n' := Feeds(n, e);
            && n'.emitted == n.emitted + n'.todo && n'.mgr == n.mgr && n'.orders == n.orders && n'.drops == n.drops
  {
    ProcessSound(n.core, e);
  }

  /** Between the core and the sessions a packet is lost only at a recorded drop: every other step keeps what is in flight
      to every peer exactly and in order, and a step of the core adds exactly what it sends. */
  lemma LossOnlyAtTrySend(n: Node.State, step: Step, peers: set<Key>, k: Key)
    requires CoordOk(n, peers) && CanStep(n, step) && Next(n, step).drops == n.drops
    ensures InFlight(Next(n, step), k)
         == InFlight(n, k) + if step.TakeReport? || step.TakePacket? then SentTo(Next(n, step).todo, k) else []
  {
    match step
    case Local(mv) => LocalKeepsRelayed(n.mgr, mv);
    case TakeOrder => TakeKeepsFlight(n, k);
    case HandleAction => HandleKeepsFlight(n, k);
    case TakeReport => FeedsGrowsFlight(n.(read := n.read + 1), MapIrohEvent(n.mgr.log[n.read]), k);
    case TakePacket => FeedsGrowsFlight(n.(fromTun := n.fromTun[1..]), Core.PacketFromTun(n.fromTun[0]), k);
    case _ =>
  }

  // ---- a drop takes exactly the dropped packet out of it

  lemma HandleDropsOne(n: Node.State, k: Key)
    requires n.todo != [] && HandleDrops(n) != []
    ensures multiset(InFlight(n, k)) == multiset(InFlight(Handles(n), k)) + multiset(Pick(HandleDrops(n), DropFor(k)))
  {
    var n', a := Handles(n), n.todo[0];
    PickHead(n.todo, SendTo(k));
    assert n'.orders == n.orders;
    PickOne(HandleDrops(n)[0], DropFor(k));
    assert InFlight(n, k) == RelayedTo(n, k) + OrderedTo(n, k) + (SendTo(k)(a) + SentTo(n'.todo, k));
  }

  lemma TakeDropsOne(n: Node.State, k: Key)
    requires CanStep(n, TakeOrder) && OrderDrops(n) != []
    ensures multiset(InFlight(n, k))
         == multiset(InFlight(Next(n, TakeOrder), k)) + multiset(Pick(OrderDrops(n), DropFor(k)))
  {
    var n', o := Next(n, TakeOrder), n.orders[0];
    RelayAppends(n.mgr, o.action.packet, o.action.to);
    PickHead(n.orders, OrderFor(k));
    PickOne(OrderDrops(n)[0], DropFor(k));
    assert InFlight(n, k) == RelayedTo(n, k) + (OrderFor(k)(o) + OrderedTo(n', k)) + SentTo(n.todo, k);
  }

  /** Everything the core has sent to `k` is in flight, has reached a session, or is a recorded drop. */
  ghost predicate Balance(n: Node.State, k: Key) {
    multiset(SentTo(n.emitted, k)) == multiset(InFlight(n, k)) + multiset(DroppedTo(n, k))
  }

  lemma FeedsKeepsBalance(n: Node.State, e: Core.Event, k: Key)
    requires n.todo == [] && Sound(n.core) && Balance(n, k)
    ensures Balance(Feeds(n, e), k)
  {
    FeedsGrowsFlight(n, e, k);
  }

  lemma Rebalance(sent: seq<Packet>, flight: seq<Packet>, flight': seq<Packet>, dropped: seq<Packet>, gone: seq<Packet>)
    requires multiset(sent) == multiset(flight) + multiset(dropped)
    requires multiset(flight) == multiset(flight') + multiset(gone)
    ensures multiset(sent) == multiset(flight') + multiset(dropped + gone)
  {}

  lemma HandleKeepsBalance(n: Node.State, k: Key)
    requires n.todo != [] && Balance(n, k)
    ensures Balance(Handles(n), k)
  {
    var gone := Pick(HandleDrops(n), DropFor(k));
    PickConcat(n.drops, HandleDrops(n), DropFor(k));
    if HandleDrops(n) == [] { HandleKeepsFlight(n, k); } else { HandleDropsOne(n, k); }
    Rebalance(SentTo(n.emitted, k), InFlight(n, k), InFlight(Handles(n), k), DroppedTo(n, k), gone);
  }

  lemma TakeKeepsBalance(n: Node.State, k: Key)
    requires CanStep(n, TakeOrder) && n.orders[0].action.SendPacketTo? && Balance(n, k)
    ensures Balance(Next(n, TakeOrder), k)
  {
    var gone := Pick(OrderDrops(n), DropFor(k));
    PickConcat(n.drops, OrderDrops(n), DropFor(k));
    if OrderDrops(n) == [] { TakeKeepsFlight(n, k); } else { TakeDropsOne(n, k); }
    Rebalance(SentTo(n.emitted, k), InFlight(n, k), InFlight(Next(n, TakeOrder), k), DroppedTo(n, k), gone);
  }

  lemma StepKeepsBalance(n: Node.State, step: Step, peers: set<Key>, k: Key)
    requires CoordOk(n, peers) && Balance(n, k) && CanStep(n, step)
    ensures Balance(Next(n, step), k)
  {
    match step
    case TakeOrder => TakeKeepsBalance(n, k);
    case TakeReport => ReportKeepsBalance(n, k);
    case TakePacket => PacketKeepsBalance(n, k);
    case HandleAction => HandleKeepsBalance(n, k);
    case _ => OthersKeepBalance(n, step, k);
  }

  lemma ReportKeepsBalance(n: Node.State, k: Key)
    requires Sound(n.core) && Balance(n, k) && CanStep(n, TakeReport)
    ensures Balance(Next(n, TakeReport), k)
  {
    FeedsKeepsBalance(n.(read := n.read + 1), MapIrohEvent(n.mgr.log[n.read]), k);
  }

  lemma PacketKeepsBalance(n: Node.State, k: Key)
    requires Sound(n.core) && Balance(n, k) && CanStep(n, TakePacket)
    ensures Balance(Next(n, TakePacket), k)
  {
    FeedsKeepsBalance(n.(fromTun := n.fromTun[1..]), Core.PacketFromTun(n.fromTun[0]), k);
  }

  lemma OthersKeepBalance(n: Node.State, step: Step, k: Key)
    requires Balance(n, k) && CanStep(n, step) && (step.Local? || step.TunRead? || step.TunWrite?)
    ensures Balance(Next(n, step), k)
  {
    OthersKeepFlight(n, step, k);
  }

  lemma OthersKeepFlight(n: Node.State, step: Step, k: Key)
    requires CanStep(n, step) && (step.Local? || step.TunRead? || step.TunWrite?)
    ensures var n' := Next(n, step);
            InFlight(n', k) == InFlight(n, k) && n'.emitted == n.emitted && n'.drops == n.drops
  {
    if step.Local? { LocalKeepsRelayed(n.mgr, step.mv); }
  }

  lemma {:induction false} RunKeepsBalance(n: Node.State, self: Key, config: Core.Config, steps: seq<Step>, k: Key)
    requires IsBooted(n, self, config) && Run(n, steps).Some?
    ensures Balance(Run(n, steps).value, k)
  {
    if steps != [] {
      var m := |steps| - 1;
      RunKeepsBalance(n, self, config, steps[..m], k);
      RunKeepsWired(n, self, config, steps[..m]);
      StepKeepsBalance(Run(n, steps[..m]).value, steps[m], config.routes.Values, k);
    }
  }

  /** Conservation across the whole node, over every run: each packet that entered from TUN and is deliverable to a peer
      is still in the TUN channel, queued in the core, lost to the core's overflow, in flight to the manager, in one of
      the peer's sessions, or a recorded drop, exactly once. */
  lemma NodeConservation(n: Node.State, self: Key, config: Core.Config, steps: seq<Step>, k: Key)
    requires IsBooted(n, self, config) && Run(n, steps).Some? && k in config.routes.Values
    ensures var r := Run(n, steps).value;
            var b := Books(config, r.events, k);
            && k in r.core.peers
            && multiset(EnteredFor(config, r.entered, k))
               == multiset(EnteredFor(config, r.fromTun, k)) + multiset(r.core.peers[k].queue)
                + multiset(b.lost + Surplus(b.backlog)) + multiset(SentTo(r.todo, k)) + multiset(OrderedTo(r, k))
                + multiset(RelayedTo(r, k)) + multiset(DroppedTo(r, k))
  {
    var r := Run(n, steps).value;
    RunKeepsForwarded(n, self, config, steps, k);
    RunKeepsBalance(n, self, config, steps, k);
    EnteredSplits(n, self, config, steps, k);
    Conservation(n.core, config, r.events, k);
  }

  // ---- every drop is explained

  /** A packet dropped because its peer was down had been overtaken by a disconnect the core had not processed when it
      sent it; one dropped by a session met one that had returned, or that had been given as many packets as a channel
      holds. */
  ghost predicate Explained(n: Node.State, d: Drop) {
    match d.why
    case ChannelFull => d.at <= n.read
    case PeerDown => exists i :: d.at <= i < |n.mgr.log| && n.mgr.log[i] == DisconnectedFromPeer(d.to)
    case SessionOver(s) =>
      s < |n.mgr.sessions| && n.mgr.sessions[s].conn.remote == d.to && n.mgr.sessions[s].stage == Over
    case SessionFull(s) =>
      && s < |n.mgr.sessions| && n.mgr.sessions[s].conn.remote == d.to
      && |Pick(n.mgr.relayed, FedTo(s))| >= CHANNEL_CAPACITY
  }

  ghost predicate AllExplained(n: Node.State) {
    forall i :: 0 <= i < |n.drops| ==> Explained(n, n.drops[i])
  }

  /** What explains a drop never goes away: the log and the sessions only grow, and a session that has returned stays so. */
  ghost predicate Later(m: Manager.State, m': Manager.State) {
    && m.log <= m'.log && m.relayed <= m'.relayed && |m.sessions| <= |m'.sessions|
    && (forall s :: 0 <= s < |m.sessions| ==>
          m'.sessions[s].conn == m.sessions[s].conn && (m.sessions[s].stage == Over ==> m'.sessions[s].stage == Over))
  }

  lemma TaskIsLater(m: Manager.State, mv: Move)
    requires Enabled(m, mv) && !OfManager(mv)
    ensures Later(m, Do(m, mv))
  {}

  lemma EventIsLater(m: Manager.State, ev: ConnectionEvent)
    ensures Later(m, BeginConnEvent(m, ev))
  {}

  lemma SendIsLater(m: Manager.State, p: Packet, to: Key)
    ensures Later(m, BeginCoreAction(m, SendPacketTo(p, to)))
  {}

  lemma FinishIsLater(m: Manager.State)
    ensures Later(m, Finish(m))
  {}

  lemma MoveIsLater(m: Manager.State, mv: Move)
    requires Enabled(m, mv) && Closed(mv)
    ensures Later(m, Do(m, mv))
  {
    match mv
    case TakeEvent => EventIsLater(m.(inbox := m.inbox[1..]), m.inbox[0]);
    case TakeAction(a) => SendIsLater(m, a.packet, a.to);
    case FinishHandler => FinishIsLater(m);
    case SendReport =>
    case _ => TaskIsLater(m, mv);
  }

  lemma StillExplained(n: Node.State, n': Node.State, d: Drop)
    requires Explained(n, d) && Later(n.mgr, n'.mgr) && n.read <= n'.read
    ensures Explained(n', d)
  {
    match d.why
    case PeerDown =>
      var i :| d.at <= i < |n.mgr.log| && n.mgr.log[i] == DisconnectedFromPeer(d.to);
      assert n'.mgr.log[i] == DisconnectedFromPeer(d.to);
    case SessionFull(s) =>
      var more := n'.mgr.relayed[|n.mgr.relayed|..];
      assert n'.mgr.relayed == n.mgr.relayed + more;
      PickConcat(n.mgr.relayed, more, FedTo(s));
    case _ =>
  }

  lemma RefusalExplained(n: Node.State, o: Order, peers: set<Key>)
    requires ClosedInv(n.mgr, peers) && Carries(n.mgr) && OrderStamped(n, o) && o.action.SendPacketTo?
    requires Told(n.mgr, o.action.to) && !Takes(n.mgr, o.action.to) && n.mgr.phase == Idle && o.action.to in peers
    ensures Explained(n, Drop(o.action.packet, o.action.to, o.at, Refusal(n.mgr, o.action.to)))
  {
    var k := o.action.to;
    assert EntryOk(n.mgr, k);
    if n.mgr.table[k].Connected? {
      var s := n.mgr.table[k].session;
      assert Pick(n.mgr.relayed, FedTo(s)) == n.mgr.sessions[s].carried + n.mgr.sessions[s].outbox;
    } else {
      WentDown(n.mgr.log, o.at, k);
    }
  }

  /** What a reachable node offers for explaining a drop. */
  ghost predicate CanExplain(n: Node.State, peers: set<Key>) {
    Wired(n, peers) && Carries(n.mgr) && Stamped(n) && (forall k :: k in peers ==> Viewed(n, k))
  }

  lemma OrderIsExplained(n: Node.State, peers: set<Key>)
    requires CanExplain(n, peers) && CanStep(n, TakeOrder)
    ensures forall i :: 0 <= i < |OrderDrops(n)| ==> Explained(n, OrderDrops(n)[i])
  {
    var o := n.orders[0];
    assert OrderStamped(n, o);
    OnlyPeersFlagged(n.mgr.log[..o.at], peers, o.action.to);
    if OrderDrops(n) != [] {
      assert Viewed(n, o.action.to);
      RefusalExplained(n, o, peers);
    }
  }

  lemma NewDropsExplained(n: Node.State, step: Step, peers: set<Key>)
    requires CanExplain(n, peers) && CanStep(n, step)
    ensures exists more :: Next(n, step).drops == n.drops + more && forall i :: 0 <= i < |more| ==> Explained(n, more[i])
  {
    DropsGrow(n, step);
    if step.TakeOrder? {
      OrderIsExplained(n, peers);
    } else if step.HandleAction? {
      HandleIsExplained(n);
    }
  }

  lemma HandleIsExplained(n: Node.State)
    requires n.todo != []
    ensures forall i :: 0 <= i < |HandleDrops(n)| ==> Explained(n, HandleDrops(n)[i])
  {}

  lemma DropsGrow(n: Node.State, step: Step)
    requires CanStep(n, step)
    ensures Next(n, step).drops
         == n.drops + if step.TakeOrder? then OrderDrops(n) else if step.HandleAction? then HandleDrops(n) else []
  {}

  lemma StepIsLater(n: Node.State, step: Step, peers: set<Key>)
    requires Wired(n, peers) && CanStep(n, step)
    ensures Later(n.mgr, Next(n, step).mgr) && n.read <= Next(n, step).read
  {
    StepIsClosedMove(n, step, peers);
    if MoveOf(n, step).Some? { MoveIsLater(n.mgr, MoveOf(n, step).value); }
  }

  lemma StepKeepsExplained(n: Node.State, step: Step, peers: set<Key>)
    requires CanExplain(n, peers) && AllExplained(n) && CanStep(n, step)
    ensures AllExplained(Next(n, step))
  {
    var n' := Next(n, step);
    NewDropsExplained(n, step, peers);
    StepIsLater(n, step, peers);
    var more :| n'.drops == n.drops + more && forall i :: 0 <= i < |more| ==> Explained(n, more[i]);
    forall i | 0 <= i < |n'.drops| ensures Explained(n', n'.drops[i]) {
      assert i < |n.drops| ==> Explained(n, n.drops[i]);
      StillExplained(n, n', n'.drops[i]);
    }
  }

  lemma ReachableCanExplain(n: Node.State, self: Key, config: Core.Config, steps: seq<Step>)
    requires IsBooted(n, self, config) && Run(n, steps).Some?
    ensures CanExplain(Run(n, steps).value, config.routes.Values)
  {
    RunKeepsWired(n, self, config, steps);
    RunKeepsStamped(n, self, config, steps);
    var moves := NodeRunsClosedManager(n, self, config, steps);
    SessionsCarryTheirParcels(n.mgr, self, config.routes.Values, moves);
    forall k | k in config.routes.Values ensures Viewed(Run(n, steps).value, k) {
      RunKeepsViewed(n, self, config, steps, k);
    }
  }

  /** Over every run, every packet dropped between the core and the sessions is explained. */
  lemma {:induction false} DropsExplained(n: Node.State, self: Key, config: Core.Config, steps: seq<Step>)
    requires IsBooted(n, self, config) && Run(n, steps).Some?
    ensures AllExplained(Run(n, steps).value)
  {
    if steps != [] {
      var m := |steps| - 1;
      DropsExplained(n, self, config, steps[..m]);
      ReachableCanExplain(n, self, config, steps[..m]);
      StepKeepsExplained(Run(n, steps[..m]).value, steps[m], config.routes.Values);
    }
  }
}
