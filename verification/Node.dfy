/** One node as main wires it (src/main.rs:38-84): the manager with its tasks, the coordinator with the core, and the
    bounded channels between them. */
module Node {
  import opened Wire
  import opened Manager
  import opened ManagerRuns
  import opened ManagerReports
  import opened ClosedRuns
  import opened CoreRuns
  import opened Coordinator
  import Core

  /** A message to the manager; `at` remembers how many reports the core had processed when it asked for it. */
  datatype Order = Order(action: CoreAction, at: nat)

  /** Why a packet on its way to a session was dropped. */
  datatype Reason =
    | ChannelFull                  // the coordinator found no room in the channel to the manager
    | PeerDown                     // the manager found no Connected entry
    | SessionOver(session: nat)    // ... or one whose session had returned
    | SessionFull(session: nat)    // ... or whose channel was full

  datatype Drop = Drop(packet: Packet, to: Key, at: nat, why: Reason)

  /** A packet for TUN that found `queued` packets waiting in its channel and was dropped. */
  datatype Spill = Spill(packet: Packet, queued: nat)

  datatype State = State(
    mgr: Manager.State,
    read: nat,                    // reports taken by the coordinator; the channel holds mgr.log[read..]
    core: Core.State,
    todo: seq<Core.Action>,       // what the core last asked for and the coordinator has not handled yet
    orders: seq<Order>,           // the channel to the manager
    fromTun: seq<Packet>,
    toTun: seq<Packet>,
    written: seq<Packet>,         // packets the TUN writer has taken, in order
    crashed: bool,                // the coordinator panicked
    events: seq<Core.Event>,      // every event the core has processed, and everything it asked for
    emitted: seq<Core.Action>,
    entered: seq<Packet>,         // every packet from TUN that found room in its channel
    drops: seq<Drop>,             // every packet dropped between the core and the sessions
    spills: seq<Spill>)           // every packet dropped between the core and TUN

  datatype Step =
    | Local(mv: Move)             // the manager or one of its tasks
    | TakeOrder                   // the manager takes a message from the coordinator
    | TakeReport                  // the coordinator takes a report
    | TakePacket                  // the coordinator takes a packet read from TUN
    | HandleAction                // the coordinator handles one action of the core
    | TunRead(packet: Packet)
    | TunWrite

  predicate Room(n: State) {
    |n.mgr.log| < n.read + CHANNEL_CAPACITY
  }

  predicate CanLocal(n: State, mv: Move) {
    && Enabled(n.mgr, mv) && !mv.TakeAction?
    && (mv.SendReport? ==> Room(n))
    && (mv.SessionReceive? ==> mv.room == Room(n))
  }

  predicate CanStep(n: State, step: Step) {
    match step
    case Local(mv) => CanLocal(n, mv)
    case TakeOrder => n.mgr.phase == Idle && n.orders != []
    case TakeReport => !n.crashed && n.todo == [] && n.read < |n.mgr.log|
    case TakePacket => !n.crashed && n.todo == [] && n.fromTun != []
    case HandleAction => !n.crashed && n.todo != [] && (n.todo[0].DisconnectFromPeer? ==> |n.orders| < CHANNEL_CAPACITY)
    case TunRead(_) => true
    case TunWrite => n.toTun != []
  }

  function Feeds(n: State, e: Core.Event): (r: State) {
    match Core.Process(n.core, e)
    case Panicked => n.(crashed := true)
    case Answered(s, actions) =>
      n.(core := s, todo := actions, events := n.events + [e], emitted := n.emitted + actions)
  }

  function Stamp(actions: seq<CoreAction>, at: nat): (r: seq<Order>) {
    seq(|actions|, i requires 0 <= i < |actions| => Order(actions[i], at))
  }

  function Handles(n: State): (r: State)
    requires n.todo != []
  {
    var a := n.todo[0];
    n.(todo := n.todo[1..],
       orders := n.orders + Stamp(ToIroh(a, |n.orders| < CHANNEL_CAPACITY), n.read),
       toTun := n.toTun + ToTun(a, |n.toTun| < CHANNEL_CAPACITY),
       drops := n.drops + HandleDrops(n), spills := n.spills + HandleSpills(n))
  }

  function HandleDrops(n: State): (r: seq<Drop>)
    requires n.todo != []
  {
    var a := n.todo[0];
    if a.SendPacketTo? && |n.orders| >= CHANNEL_CAPACITY then [Drop(a.packet, a.to, n.read, ChannelFull)] else []
  }

  function HandleSpills(n: State): (r: seq<Spill>)
    requires n.todo != []
  {
    var a := n.todo[0];
    if a.WriteToTun? && |n.toTun| >= CHANNEL_CAPACITY then [Spill(a.packet, |n.toTun|)] else []
  }

  /** Why the session with `to` does not take a packet. */
  function Refusal(m: Manager.State, to: Key): (r: Reason) {
    if to !in m.table || !m.table[to].Connected? then PeerDown
    else if m.table[to].session < |m.sessions| && m.sessions[m.table[to].session].stage == Over
    then SessionOver(m.table[to].session)
    else SessionFull(m.table[to].session)
  }

  function OrderDrops(n: State): (r: seq<Drop>)
    requires n.orders != []
  {
    var o := n.orders[0];
    if o.action.SendPacketTo? && !Takes(n.mgr, o.action.to)
    then [Drop(o.action.packet, o.action.to, o.at, Refusal(n.mgr, o.action.to))] else []
  }

  function Next(n: State, step: Step): (r: State)
    requires CanStep(n, step)
  {
    match step
    case Local(mv) => n.(mgr := Do(n.mgr, mv))
    case TakeOrder =>
      n.(orders := n.orders[1..], mgr := BeginCoreAction(n.mgr, n.orders[0].action), drops := n.drops + OrderDrops(n))
    case TakeReport => Feeds(n.(read := n.read + 1), MapIrohEvent(n.mgr.log[n.read]))
    case TakePacket => Feeds(n.(fromTun := n.fromTun[1..]), Core.PacketFromTun(n.fromTun[0]))
    case HandleAction => Handles(n)
    case TunRead(p) => if |n.fromTun| < CHANNEL_CAPACITY then n.(fromTun := n.fromTun + [p], entered := n.entered + [p]) else n
    case TunWrite => n.(toTun := n.toTun[1..], written := n.written + [n.toTun[0]])
  }

  function Run(n: State, steps: seq<Step>): (r: Option<State>) {
    if steps == [] then Some(n)
    else
      match Run(n, steps[..|steps| - 1])
      case None => None
      case Some(n1) => if CanStep(n1, steps[|steps| - 1]) then Some(Next(n1, steps[|steps| - 1])) else None
  }

  /** Right after start-up: the manager's whitelist is the set of keys in the core's route table. */
  ghost predicate IsBooted(n: State, self: Key, config: Core.Config) {
    && IsStarted(n.mgr, self, config.routes.Values)
    && Core.IsNew(n.core, config)
    && n.read == 0 && n.todo == [] && n.orders == [] && n.fromTun == [] && n.toTun == []
    && n.written == [] && !n.crashed && n.events == [] && n.emitted == [] && n.entered == [] && n.drops == []
    && n.spills == []
  }

  // ---- the wiring keeps the system closed

  predicate Benign(a: Core.Action) {
    !a.ConnectToPeer? && !a.DisconnectFromPeer?
  }

  /** The coordinator's side of the wiring. */
  ghost predicate CoordOk(n: State, peers: set<Key>) {
    && !n.crashed && Sound(n.core) && n.core.peers.Keys == peers
    && (forall i :: 0 <= i < |n.todo| ==> Benign(n.todo[i]))
    && (forall i :: 0 <= i < |n.orders| ==> n.orders[i].action.SendPacketTo?)
  }

  predicate Bounded(n: State) {
    && n.read <= |n.mgr.log| <= n.read + CHANNEL_CAPACITY
    && |n.orders| <= CHANNEL_CAPACITY && |n.fromTun| <= CHANNEL_CAPACITY && |n.toTun| <= CHANNEL_CAPACITY
  }

  ghost predicate Wired(n: State, peers: set<Key>) {
    ClosedInv(n.mgr, peers) && CoordOk(n, peers) && Bounded(n)
  }

  lemma FeedsKeepsCoord(n: State, e: Core.Event, peers: set<Key>)
    requires CoordOk(n, peers) && (e.PeerConnected? ==> e.key in peers)
    ensures CoordOk(Feeds(n, e), peers)
  {
    ProcessSound(n.core, e);
    var r := Core.Process(n.core, e);
    forall i | 0 <= i < |r.actions| ensures Benign(r.actions[i]) {
      assert ActionSound(r.state, r.actions[i]);
      assert e.PeerConnected? && e.key in n.core.peers ==> !r.actions[i].DisconnectFromPeer?;
    }
  }

  lemma HandlesKeepsCoord(n: State, peers: set<Key>)
    requires CoordOk(n, peers) && n.todo != []
    ensures CoordOk(Handles(n), peers)
  {}

  lemma StepKeepsBounded(n: State, step: Step)
    requires Bounded(n) && CanStep(n, step)
    ensures Bounded(Next(n, step))
  {
    if step.Local? && step.mv.TakeEvent? {
      EventKeepsShown(n.mgr.(inbox := n.mgr.inbox[1..]), n.mgr.inbox[0], 0);
    } else if step.TakeOrder? {
      ActionKeepsShown(n.mgr, n.orders[0].action, 0);
    } else if step.Local? && step.mv.FinishHandler? {
      FinishKeepsShown(n.mgr, 0);
    }
  }

  lemma StepKeepsCoord(n: State, step: Step, peers: set<Key>)
    requires CoordOk(n, peers) && CanStep(n, step)
    requires forall i :: 0 <= i < |n.mgr.log| ==> About(n.mgr.log[i], peers)
    ensures CoordOk(Next(n, step), peers)
  {
    match step
    case TakeReport =>
      assert About(n.mgr.log[n.read], peers);
      FeedsKeepsCoord(n.(read := n.read + 1), MapIrohEvent(n.mgr.log[n.read]), peers);
    case TakePacket => FeedsKeepsCoord(n.(fromTun := n.fromTun[1..]), Core.PacketFromTun(n.fromTun[0]), peers);
    case HandleAction => HandlesKeepsCoord(n, peers);
    case _ =>
  }

  /** What a step does to the manager: a closed move of it, or nothing. */
  function MoveOf(n: State, step: Step): (r: Option<Move>)
    requires CanStep(n, step)
  {
    match step
    case Local(mv) => Some(mv)
    case TakeOrder => Some(TakeAction(n.orders[0].action))
    case _ => None
  }

  lemma StepIsClosedMove(n: State, step: Step, peers: set<Key>)
    requires CoordOk(n, peers) && CanStep(n, step)
    ensures match MoveOf(n, step)
            case Some(mv) => Enabled(n.mgr, mv) && Closed(mv) && Next(n, step).mgr == Do(n.mgr, mv)
            case None => Next(n, step).mgr == n.mgr
  {}

  lemma StepKeepsWired(n: State, step: Step, peers: set<Key>)
    requires Wired(n, peers) && CanStep(n, step)
    ensures Wired(Next(n, step), peers)
  {
    StepIsClosedMove(n, step, peers);
    StepKeepsBounded(n, step);
    StepKeepsCoord(n, step, peers);
    match MoveOf(n, step)
    case Some(mv) => MoveKeepsClosed(n.mgr, mv, peers);
    case None =>
  }

  lemma {:induction false} RunKeepsWired(n: State, self: Key, config: Core.Config, steps: seq<Step>)
    requires IsBooted(n, self, config) && Run(n, steps).Some?
    ensures Wired(Run(n, steps).value, config.routes.Values)
  {
    if steps == [] {
      StartedClosed(n.mgr, self, config.routes.Values);
      NewIsSound(n.core, config);
    } else {
      var m := |steps| - 1;
      RunKeepsWired(n, self, config, steps[..m]);
      StepKeepsWired(Run(n, steps[..m]).value, steps[m], config.routes.Values);
    }
  }

  /** The wired node closes the manager: whatever the node does, its manager has made a closed run, so that every result
      about closed runs of the manager holds of it. */
  lemma {:induction false} NodeRunsClosedManager(n: State, self: Key, config: Core.Config, steps: seq<Step>)
    returns (moves: seq<Move>)
    requires IsBooted(n, self, config) && Run(n, steps).Some?
    ensures Exec(n.mgr, moves) == Some(Run(n, steps).value.mgr)
    ensures forall i :: 0 <= i < |moves| ==> Closed(moves[i])
  {
    moves := [];
    if steps != [] {
      var m := |steps| - 1;
      moves := NodeRunsClosedManager(n, self, config, steps[..m]);
      var before := Run(n, steps[..m]).value;
      RunKeepsWired(n, self, config, steps[..m]);
      StepIsClosedMove(before, steps[m], config.routes.Values);
      if MoveOf(before, steps[m]).Some? {
        var mv := MoveOf(before, steps[m]).value;
        ExecSnoc(n.mgr, moves, before.mgr, mv);
        moves := moves + [mv];
      }
    }
  }
}
