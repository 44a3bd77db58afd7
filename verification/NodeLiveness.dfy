/** With bounded channels no schedule of a node deadlocks, and without new input every schedule drains. */
module NodeLiveness {
  import opened Wire
  import opened Manager
  import opened ManagerRuns
  import opened Node
  import opened NodeViews
  import Core

  /** The two actors that own state: the manager and the coordinator. */
  predicate Central(step: Step) {
    match step
    case Local(mv) => mv.TakeEvent? || mv.SendReport? || mv.FinishHandler?
    case TakeOrder => true
    case TakeReport => true
    case TakePacket => true
    case HandleAction => true
    case _ => false
  }

  /** A task that has something to send and waits for room, or a packet waiting to be written to TUN. */
  predicate Outer(step: Step) {
    match step
    case Local(mv) => mv.DialSend? || mv.AcceptSend? || mv.SessionReport?
    case TunWrite => true
    case _ => false
  }

  /** The manager or the coordinator has work. */
  predicate CentralWork(n: Node.State) {
    || n.mgr.inbox != [] || n.mgr.phase != Idle
    || n.orders != [] || n.read < |n.mgr.log| || n.fromTun != [] || n.todo != []
  }

  ghost predicate TaskWaits(n: Node.State) {
    || (exists t :: 0 <= t < |n.mgr.dials| && n.mgr.dials[t].stage.Sending?)
    || (exists s :: 0 <= s < |n.mgr.sessions| && n.mgr.sessions[s].stage == Reporting)
    || n.mgr.accepts != {} || n.toTun != []
  }

  lemma CentralCanStep(n: Node.State, peers: set<Key>)
    requires Wired(n, peers) && CentralWork(n)
    ensures exists step :: Central(step) && CanStep(n, step)
  {
    if n.todo != [] {
      assert Benign(n.todo[0]);
      assert CanStep(n, HandleAction);
    } else if n.read < |n.mgr.log| {
      assert CanStep(n, TakeReport);
    } else if n.fromTun != [] {
      assert CanStep(n, TakePacket);
    } else if n.mgr.phase.AnnounceUp? || n.mgr.phase.AnnounceDown? {
      assert CanStep(n, Local(SendReport));
    } else if n.mgr.phase != Idle {
      assert CanStep(n, Local(FinishHandler));
    } else if n.mgr.inbox != [] {
      assert CanStep(n, Local(TakeEvent));
    } else {
      assert CanStep(n, TakeOrder);
    }
  }

  lemma OuterCanStep(n: Node.State)
    requires TaskWaits(n) && n.mgr.inbox == []
    ensures exists step :: Outer(step) && CanStep(n, step)
  {
    if t :| 0 <= t < |n.mgr.dials| && n.mgr.dials[t].stage.Sending? {
      assert CanStep(n, Local(DialSend(t)));
    } else if s :| 0 <= s < |n.mgr.sessions| && n.mgr.sessions[s].stage == Reporting {
      assert CanStep(n, Local(SessionReport(s)));
    } else if n.mgr.accepts != {} {
      var conn :| conn in n.mgr.accepts;
      assert CanStep(n, Local(AcceptSend(conn)));
    } else {
      assert CanStep(n, TunWrite);
    }
  }

  /** Deadlock freedom: at every point of every run, if any channel holds a message, a handler is unfinished or any task
      waits to send, then some actor can step; and it is the manager or the coordinator unless only tasks have work. */
  lemma DeadlockFreedom(n: Node.State, self: Key, config: Core.Config, steps: seq<Step>)
    requires IsBooted(n, self, config) && Run(n, steps).Some?
    ensures var r := Run(n, steps).value;
            && (CentralWork(r) ==> exists step :: Central(step) && CanStep(r, step))
            && (TaskWaits(r) ==> exists step :: (Central(step) || Outer(step)) && CanStep(r, step))
  {
    RunKeepsWired(n, self, config, steps);
    var r := Run(n, steps).value;
    if CentralWork(r) {
      CentralCanStep(r, config.routes.Values);
    } else if TaskWaits(r) {
      OuterCanStep(r);
    }
  }

  /** The claim rests on the core never asking for a disconnect: with one at the coordinator's blocking send, the
      channel to the manager full and the manager itself waiting for room, neither can ever step. */
  lemma BlockingSendWouldDeadlock(n: Node.State)
    requires n.todo != [] && n.todo[0].DisconnectFromPeer? && |n.orders| >= CHANNEL_CAPACITY
    requires n.mgr.phase.AnnounceUp? || n.mgr.phase.AnnounceDown?
    requires !Room(n)
    ensures CentralWork(n) && forall step :: Central(step) ==> !CanStep(n, step)
  {
    forall step | Central(step) ensures !CanStep(n, step) {}
  }

  // ---- draining

  predicate DrainStep(n: Node.State, n': Node.State, step: Step) {
    Central(step) && CanStep(n, step) && n' == Next(n, step)
  }

  function PhaseRank(phase: Phase): (r: nat) {
    match phase
    case AnnounceUp(_) => 2
    case AnnounceDown(_, _) => 2
    case Install(_) => 1
    case Retire(_, _) => 1
    case _ => 0
  }

  function Unread(n: Node.State): (r: nat) {
    (if n.read <= |n.mgr.log| then |n.mgr.log| - n.read else 0) + |n.fromTun|
  }

  /** The lexicographic order on (task events, handler phase, reports and TUN packets, core actions, orders). */
  predicate Lower(n': Node.State, n: Node.State) {
    || |n'.mgr.inbox| < |n.mgr.inbox|
    || (|n'.mgr.inbox| == |n.mgr.inbox| &&
        (|| PhaseRank(n'.mgr.phase) < PhaseRank(n.mgr.phase)
         || (PhaseRank(n'.mgr.phase) == PhaseRank(n.mgr.phase) &&
             (|| Unread(n') < Unread(n)
              || (Unread(n') == Unread(n) &&
                  (|n'.todo| < |n.todo| || (|n'.todo| == |n.todo| && |n'.orders| < |n.orders|)))))))
  }

  lemma TakeEventLowers(m: Manager.State)
    requires Enabled(m, TakeEvent)
    ensures |Do(m, TakeEvent).inbox| < |m.inbox|
  {}

  lemma FinishLowers(m: Manager.State)
    requires Enabled(m, FinishHandler)
    ensures Finish(m).inbox == m.inbox && Finish(m).phase == Idle
  {}

  lemma RelayChangesNoQueue(m: Manager.State, p: Packet, to: Key)
    ensures var m' := BeginCoreAction(m, SendPacketTo(p, to));
            m'.inbox == m.inbox && m'.phase == m.phase && m'.log == m.log
  {}

  lemma ManagerLowers(n: Node.State, step: Step, peers: set<Key>)
    requires CoordOk(n, peers) && Central(step) && CanStep(n, step) && (step.Local? || step.TakeOrder?)
    ensures Lower(Next(n, step), n)
  {
    if step.TakeOrder? {
      var a := n.orders[0].action;
      RelayChangesNoQueue(n.mgr, a.packet, a.to);
    } else if step.mv.TakeEvent? {
      TakeEventLowers(n.mgr);
    } else if step.mv.FinishHandler? {
      FinishLowers(n.mgr);
    }
  }

  lemma CoordLowers(n: Node.State, step: Step, peers: set<Key>)
    requires CoordOk(n, peers) && Central(step) && CanStep(n, step) && !step.Local? && !step.TakeOrder?
    ensures Lower(Next(n, step), n)
  {}

  lemma DrainLowers(n: Node.State, step: Step, peers: set<Key>)
    requires CoordOk(n, peers) && Central(step) && CanStep(n, step)
    ensures Lower(Next(n, step), n)
  {
    if step.Local? || step.TakeOrder? { ManagerLowers(n, step, peers); } else { CoordLowers(n, step, peers); }
  }

  /** A schedule in which only the manager and the coordinator act, and one of them does while either can. */
  ghost predicate DrainsTo(n: Node.State, n': Node.State) {
    if exists step :: Central(step) && CanStep(n, step) then exists step :: DrainStep(n, n', step) else n' == n
  }

  ghost predicate Drains(run: nat -> Node.State, i: nat) {
    DrainsTo(run(i), run(i + 1))
  }

  ghost predicate Agreed(n: Node.State, peers: set<Key>) {
    Wired(n, peers) && forall k :: k in peers ==> Viewed(n, k)
  }

  lemma DrainKeepsAgreed(n: Node.State, step: Step, peers: set<Key>)
    requires Agreed(n, peers) && CanStep(n, step)
    ensures Agreed(Next(n, step), peers)
  {
    StepKeepsWired(n, step, peers);
    forall k | k in peers ensures Viewed(Next(n, step), k) {
      assert Viewed(n, k);
      if MoveOf(n, step).Some? {
        ManagerKeepsViewed(n, step, peers, k);
      } else {
        CoordKeepsViewed(n, step, peers, k);
      }
    }
  }

  lemma {:induction false} DrainReachesRest(run: nat -> Node.State, i: nat, peers: set<Key>) returns (j: nat)
    requires Agreed(run(i), peers) && forall x: nat :: Drains(run, x)
    ensures Agreed(run(j), peers) && !exists step :: Central(step) && CanStep(run(j), step)
    decreases |run(i).mgr.inbox|, PhaseRank(run(i).mgr.phase), Unread(run(i)), |run(i).todo|, |run(i).orders|
  {
    assert Drains(run, i);
    if exists step :: Central(step) && CanStep(run(i), step) {
      var step :| DrainStep(run(i), run(i + 1), step);
      DrainKeepsAgreed(run(i), step, peers);
      DrainLowers(run(i), step, peers);
      j := DrainReachesRest(run, i + 1, peers);
    } else {
      j := i;
    }
  }

  /** Nothing is queued, and the core's flags are exactly the manager's Connected entries. */
  ghost predicate Settled(n: Node.State) {
    && !CentralWork(n) && n.core.peers.Keys == n.mgr.table.Keys
    && (forall k :: k in n.core.peers ==> (n.core.peers[k].isConnected <==> n.mgr.table[k].Connected?))
  }

  lemma RestIsSettled(n: Node.State, peers: set<Key>)
    requires Agreed(n, peers) && !exists step :: Central(step) && CanStep(n, step)
    ensures Settled(n)
  {
    if CentralWork(n) {
      CentralCanStep(n, peers);
    }
    forall k | k in n.core.peers ensures n.core.peers[k].isConnected <==> n.mgr.table[k].Connected? {
      assert Viewed(n, k);
      assert n.mgr.log[..n.read] == n.mgr.log;
    }
  }

  lemma ReachableAgrees(n: Node.State, self: Key, config: Core.Config, steps: seq<Step>)
    requires IsBooted(n, self, config) && Run(n, steps).Some?
    ensures Agreed(Run(n, steps).value, config.routes.Values)
  {
    RunKeepsWired(n, self, config, steps);
    forall k | k in config.routes.Values ensures Viewed(Run(n, steps).value, k) {
      RunKeepsViewed(n, self, config, steps, k);
    }
  }

  /** Drain termination and convergence: from any reachable state, every schedule of manager and coordinator steps with
      a silent environment comes to rest, and there the core's connection flags equal the manager's Connected set. */
  lemma DrainConverges(n: Node.State, self: Key, config: Core.Config, steps: seq<Step>, run: nat -> Node.State)
    requires IsBooted(n, self, config) && Run(n, steps) == Some(run(0))
    requires forall x: nat :: Drains(run, x)
    ensures exists j: nat :: Settled(run(j))
  {
    ReachableAgrees(n, self, config, steps);
    var j := DrainReachesRest(run, 0, config.routes.Values);
    RestIsSettled(run(j), config.routes.Values);
  }
}
