/** The core's delayed view of the connections agrees with the manager's, over every run of a node. */
module NodeViews {
  import opened Wire
  import opened Manager
  import opened ManagerRuns
  import opened ManagerReports
  import opened ClosedRuns
  import opened CoreRuns
  import opened Coordinator
  import opened Node
  import Core

  // ---- the core has seen a prefix of the reports

  ghost predicate Viewed(n: Node.State, k: Key) {
    && Told(n.mgr, k)
    && k in n.core.peers && n.read <= |n.mgr.log|
    && n.core.peers[k].isConnected == FlagAfter(n.mgr.log[..n.read], k)
  }

  lemma PrefixStable(log: seq<IrohEvent>, more: seq<IrohEvent>, at: nat)
    requires log <= more && at <= |log|
    ensures more[..at] == log[..at]
  {}

  lemma ProcessSetsFlag(s: Core.State, e: Core.Event, k: Key)
    requires Sound(s) && k in s.peers
    ensures var r := Core.Process(s, e);
            && r.Answered? && k in r.state.peers
            && r.state.peers[k].isConnected ==
               if e == Core.PeerConnected(k) then true
               else if e == Core.PeerDisconnected(k) then false else s.peers[k].isConnected
  {}

  lemma ReadSetsFlag(log: seq<IrohEvent>, i: nat, k: Key)
    requires i < |log|
    ensures FlagAfter(log[..i + 1], k) ==
            if log[i] == ConnectedToPeer(k) then true
            else if log[i] == DisconnectedFromPeer(k) then false else FlagAfter(log[..i], k)
  {
    assert log[..i + 1][..i] == log[..i];
  }

  lemma ManagerKeepsViewed(n: Node.State, step: Step, peers: set<Key>, k: Key)
    requires Wired(n, peers) && Viewed(n, k) && CanStep(n, step) && MoveOf(n, step).Some?
    ensures Viewed(Next(n, step), k)
  {
    var mv := MoveOf(n, step).value;
    StepIsClosedMove(n, step, peers);
    MoveKeepsTold(n.mgr, mv, k);
    PrefixStable(n.mgr.log, Do(n.mgr, mv).log, n.read);
  }

  lemma CoordKeepsViewed(n: Node.State, step: Step, peers: set<Key>, k: Key)
    requires CoordOk(n, peers) && Viewed(n, k) && CanStep(n, step) && MoveOf(n, step).None?
    ensures Viewed(Next(n, step), k)
  {
    match step
    case TakeReport =>
      ProcessSetsFlag(n.core, MapIrohEvent(n.mgr.log[n.read]), k);
      ReadSetsFlag(n.mgr.log, n.read, k);
    case TakePacket => ProcessSetsFlag(n.core, Core.PacketFromTun(n.fromTun[0]), k);
    case _ =>
  }

  lemma {:induction false} RunKeepsViewed(n: Node.State, self: Key, config: Core.Config, steps: seq<Step>, k: Key)
    requires IsBooted(n, self, config) && Run(n, steps).Some? && k in config.routes.Values
    ensures Viewed(Run(n, steps).value, k)
  {
    if steps != [] {
      var m := |steps| - 1;
      var before := Run(n, steps[..m]).value;
      RunKeepsViewed(n, self, config, steps[..m], k);
      RunKeepsWired(n, self, config, steps[..m]);
      if MoveOf(before, steps[m]).Some? {
        ManagerKeepsViewed(before, steps[m], config.routes.Values, k);
      } else {
        CoordKeepsViewed(before, steps[m], config.routes.Values, k);
      }
    }
  }

  /** A connection flag after more reports have been applied to it. */
  predicate Replay(flag: bool, reports: seq<IrohEvent>, k: Key)
    decreases reports
  {
    if reports == [] then flag
    else if reports[0] == ConnectedToPeer(k) then Replay(true, reports[1..], k)
    else if reports[0] == DisconnectedFromPeer(k) then Replay(false, reports[1..], k)
    else Replay(flag, reports[1..], k)
  }

  lemma {:induction false} ReplayRest(log: seq<IrohEvent>, i: nat, k: Key)
    requires i <= |log|
    ensures Replay(FlagAfter(log[..i], k), log[i..], k) == FlagAfter(log, k)
    decreases |log| - i
  {
    if i == |log| {
      assert log[..i] == log;
    } else {
      ReadSetsFlag(log, i, k);
      ReplayRest(log, i + 1, k);
      assert log[i..][1..] == log[i + 1..];
    }
  }

  /** View coupling: at every point of every run, applying the reports still in the channel to the core's flag for a
      peer gives exactly whether the manager's entry is Connected (as shown while a handler is between its report and
      its table write). */
  lemma ViewCoupling(n: Node.State, self: Key, config: Core.Config, steps: seq<Step>, k: Key)
    requires IsBooted(n, self, config) && Run(n, steps).Some? && k in config.routes.Values
    ensures var r := Run(n, steps).value;
            && k in r.core.peers && r.read <= |r.mgr.log|
            && Replay(r.core.peers[k].isConnected, r.mgr.log[r.read..], k) == Shown(r.mgr, k)
            && Grammatical(r.mgr.log, k)
  {
    RunKeepsViewed(n, self, config, steps, k);
    var r := Run(n, steps).value;
    ReplayRest(r.mgr.log, r.read, k);
  }

  // ---- what the core never says in a wired node

  predicate Expected(a: Core.Action) {
    && Benign(a)
    && a != Core.NoAction(Core.UnknownPeer)
    && a != Core.NoAction(Core.AlreadyDisconnected)
    && a != Core.NoAction(Core.InternalStateError)
  }

  lemma ReportIsExpected(n: Node.State, peers: set<Key>)
    requires CoordOk(n, peers) && n.read < |n.mgr.log| && About(n.mgr.log[n.read], peers)
    requires Viewed(n, n.mgr.log[n.read].key)
    ensures var r := Core.Process(n.core, MapIrohEvent(n.mgr.log[n.read]));
            r.Answered? && (forall i :: 0 <= i < |r.actions| ==> Expected(r.actions[i]))
  {}

  lemma PacketIsExpected(s: Core.State, p: Packet)
    requires Sound(s)
    ensures var r := Core.Process(s, Core.PacketFromTun(p));
            r.Answered? && (forall i :: 0 <= i < |r.actions| ==> Expected(r.actions[i]))
  {}

  lemma StepKeepsExpected(n: Node.State, step: Step, peers: set<Key>)
    requires CoordOk(n, peers) && CanStep(n, step)
    requires step.TakeReport? ==> About(n.mgr.log[n.read], peers) && Viewed(n, n.mgr.log[n.read].key)
    requires forall i :: 0 <= i < |n.emitted| ==> Expected(n.emitted[i])
    ensures forall i :: 0 <= i < |Next(n, step).emitted| ==> Expected(Next(n, step).emitted[i])
  {
    match step
    case TakeReport => ReportIsExpected(n, peers);
    case TakePacket => PacketIsExpected(n.core, n.fromTun[0]);
    case _ =>
  }

  /** Closed system: the core never asks for a disconnect, never meets a disconnect it did not expect or a peer it does
      not know, and the coordinator never panics. */
  lemma {:induction false} NothingUnexpected(n: Node.State, self: Key, config: Core.Config, steps: seq<Step>)
    requires IsBooted(n, self, config) && Run(n, steps).Some?
    ensures var r := Run(n, steps).value;
            !r.crashed && (forall i :: 0 <= i < |r.emitted| ==> Expected(r.emitted[i]))
  {
    RunKeepsWired(n, self, config, steps);
    if steps != [] {
      var m := |steps| - 1;
      var before := Run(n, steps[..m]).value;
      NothingUnexpected(n, self, config, steps[..m]);
      RunKeepsWired(n, self, config, steps[..m]);
      if steps[m].TakeReport? {
        assert About(before.mgr.log[before.read], config.routes.Values);
        RunKeepsViewed(n, self, config, steps[..m], before.mgr.log[before.read].key);
      }
      StepKeepsExpected(before, steps[m], config.routes.Values);
    }
  }

  /** Closed-system whitelist: in every state of every run the manager's table holds exactly the keys of the route table
      and no Disconnected entry, every report names one of them, and the manager is only ever asked to send packets. */
  lemma ClosedSystem(n: Node.State, self: Key, config: Core.Config, steps: seq<Step>)
    requires IsBooted(n, self, config) && Run(n, steps).Some?
    ensures var r := Run(n, steps).value;
            && r.mgr.table.Keys == r.core.peers.Keys == config.routes.Values
            && (forall k :: k in r.mgr.table ==> !r.mgr.table[k].Disconnected?)
            && (forall i :: 0 <= i < |r.mgr.log| ==> About(r.mgr.log[i], config.routes.Values))
            && (forall i :: 0 <= i < |r.orders| ==> r.orders[i].action.SendPacketTo?)
  {
    RunKeepsWired(n, self, config, steps);
    var r := Run(n, steps).value;
    forall k | k in r.mgr.table ensures RoleOk(r.mgr.self, k, r.mgr.table[k]) {}
  }

  // ---- drop attribution

  /** Everything on its way to the manager was asked for while the core saw the peer connected. */
  predicate OrderStamped(n: Node.State, o: Order) {
    o.action.SendPacketTo? ==> o.at <= n.read <= |n.mgr.log| && FlagAfter(n.mgr.log[..o.at], o.action.to)
  }

  predicate TodoStamped(n: Node.State, a: Core.Action) {
    a.SendPacketTo? ==> n.read <= |n.mgr.log| && FlagAfter(n.mgr.log[..n.read], a.to)
  }

  ghost predicate Stamped(n: Node.State) {
    && (forall i :: 0 <= i < |n.orders| ==> OrderStamped(n, n.orders[i]))
    && (forall i :: 0 <= i < |n.todo| ==> TodoStamped(n, n.todo[i]))
  }

  lemma ManagerKeepsStamped(n: Node.State, step: Step, peers: set<Key>)
    requires CoordOk(n, peers) && Stamped(n) && CanStep(n, step) && MoveOf(n, step).Some?
    ensures Stamped(Next(n, step))
  {
    StepIsClosedMove(n, step, peers);
    var n' := Next(n, step);
    forall i | 0 <= i < |n'.orders| ensures OrderStamped(n', n'.orders[i]) {
      var o := if step.TakeOrder? then n.orders[i + 1] else n.orders[i];
      assert OrderStamped(n, o);
      if o.action.SendPacketTo? { PrefixStable(n.mgr.log, n'.mgr.log, o.at); }
    }
    forall i | 0 <= i < |n'.todo| ensures TodoStamped(n', n'.todo[i]) {
      assert TodoStamped(n, n.todo[i]);
      if n.todo[i].SendPacketTo? { PrefixStable(n.mgr.log, n'.mgr.log, n.read); }
    }
  }

  /** What the core asks to send goes to a peer it has just seen connected. */
  lemma FeedsStamps(n: Node.State, e: Core.Event, peers: set<Key>)
    requires CoordOk(n, peers) && (forall k :: k in peers ==> Viewed(Feeds(n, e), k))
    ensures forall i :: 0 <= i < |Feeds(n, e).todo| ==> TodoStamped(Feeds(n, e), Feeds(n, e).todo[i])
  {}

  lemma FeedsKeepsStamped(n: Node.State, e: Core.Event, peers: set<Key>)
    requires CoordOk(n, peers) && (forall k :: k in peers ==> Viewed(Feeds(n, e), k))
    requires forall i :: 0 <= i < |n.orders| ==> OrderStamped(n, n.orders[i])
    ensures Stamped(Feeds(n, e))
  {
    FeedsStamps(n, e, peers);
    forall i | 0 <= i < |n.orders| ensures OrderStamped(Feeds(n, e), n.orders[i]) {
      assert OrderStamped(n, n.orders[i]);
    }
  }

  lemma HandleKeepsStamped(n: Node.State)
    requires Stamped(n) && n.todo != []
    ensures Stamped(Handles(n))
  {
    var n' := Handles(n);
    assert TodoStamped(n, n.todo[0]);
    forall i | 0 <= i < |n'.orders| ensures OrderStamped(n', n'.orders[i]) {
      assert i < |n.orders| ==> OrderStamped(n, n.orders[i]);
    }
    forall i | 0 <= i < |n'.todo| ensures TodoStamped(n', n'.todo[i]) {
      assert n'.todo[i] == n.todo[1 + i] && TodoStamped(n, n.todo[1 + i]);
    }
  }

  lemma SameStamped(n: Node.State, n': Node.State)
    requires Stamped(n) && n'.orders == n.orders && n'.todo == n.todo && n'.read == n.read && n'.mgr == n.mgr
    ensures Stamped(n')
  {
    forall i | 0 <= i < |n.orders| ensures OrderStamped(n', n.orders[i]) { assert OrderStamped(n, n.orders[i]); }
    forall i | 0 <= i < |n.todo| ensures TodoStamped(n', n.todo[i]) { assert TodoStamped(n, n.todo[i]); }
  }

  lemma CoordKeepsStamped(n: Node.State, step: Step, peers: set<Key>)
    requires CoordOk(n, peers) && Stamped(n) && CanStep(n, step) && MoveOf(n, step).None?
    requires forall k :: k in peers ==> Viewed(Next(n, step), k)
    ensures Stamped(Next(n, step))
  {
    match step
    case TakeReport => FeedsKeepsStamped(n.(read := n.read + 1), MapIrohEvent(n.mgr.log[n.read]), peers);
    case TakePacket => FeedsKeepsStamped(n.(fromTun := n.fromTun[1..]), Core.PacketFromTun(n.fromTun[0]), peers);
    case HandleAction => HandleKeepsStamped(n);
    case TunRead(_) => SameStamped(n, Next(n, step));
    case TunWrite => SameStamped(n, Next(n, step));
    case _ =>
  }

  lemma {:induction false} RunKeepsStamped(n: Node.State, self: Key, config: Core.Config, steps: seq<Step>)
    requires IsBooted(n, self, config) && Run(n, steps).Some?
    ensures Stamped(Run(n, steps).value)
  {
    if steps != [] {
      var m := |steps| - 1;
      var before := Run(n, steps[..m]).value;
      RunKeepsStamped(n, self, config, steps[..m]);
      RunKeepsWired(n, self, config, steps[..m]);
      if MoveOf(before, steps[m]).Some? {
        ManagerKeepsStamped(before, steps[m], config.routes.Values);
      } else {
        forall k | k in config.routes.Values ensures Viewed(Next(before, steps[m]), k) {
          RunKeepsViewed(n, self, config, steps, k);
        }
        CoordKeepsStamped(before, steps[m], config.routes.Values);
      }
    }
  }

  /** A flag that was up and is down went down somewhere in between. */
  lemma {:induction false} WentDown(log: seq<IrohEvent>, at: nat, k: Key)
    requires at <= |log| && FlagAfter(log[..at], k) && !FlagAfter(log, k)
    ensures exists i :: at <= i < |log| && log[i] == DisconnectedFromPeer(k)
    decreases |log| - at
  {
    assert log[..|log|] == log;
    if log[at] != DisconnectedFromPeer(k) {
      ReadSetsFlag(log, at, k);
      WentDown(log, at + 1, k);
    }
  }

  /** Drop attribution: if the manager takes a packet for a peer that is not Connected, then it had by then reported a
      disconnect of that peer which the core had not processed when it asked for the packet to be sent. So a packet
      flushed on connect is never lost to the gap between that report and the table write. A packet for a Connected peer
      is lost only when that session's channel is full or its task has returned. */
  lemma DropAttribution(n: Node.State, self: Key, config: Core.Config, steps: seq<Step>)
    requires IsBooted(n, self, config) && Run(n, steps).Some?
    requires CanStep(Run(n, steps).value, TakeOrder)
    ensures var r := Run(n, steps).value;
            var o := r.orders[0];
            && o.action.SendPacketTo? && o.at <= r.read
            && o.action.to in r.mgr.table
            && (!r.mgr.table[o.action.to].Connected? ==>
                  exists i :: o.at <= i < |r.mgr.log| && r.mgr.log[i] == DisconnectedFromPeer(o.action.to))
            && (r.mgr.table[o.action.to].Connected? && !Takes(r.mgr, o.action.to) ==>
                  var s := r.mgr.table[o.action.to].session;
                  && s < |r.mgr.sessions|
                  && (r.mgr.sessions[s].stage == Over || |r.mgr.sessions[s].outbox| >= CHANNEL_CAPACITY))
  {
    RunKeepsWired(n, self, config, steps);
    RunKeepsStamped(n, self, config, steps);
    var r := Run(n, steps).value;
    OrderIsForPeer(r, config.routes.Values);
    var k := r.orders[0].action.to;
    RunKeepsViewed(n, self, config, steps, k);
    assert EntryOk(r.mgr, k);
    if !r.mgr.table[k].Connected? {
      WentDown(r.mgr.log, r.orders[0].at, k);
    }
  }

  lemma OrderIsForPeer(n: Node.State, peers: set<Key>)
    requires Wired(n, peers) && Stamped(n) && n.orders != []
    ensures var o := n.orders[0];
            && o.action.SendPacketTo? && o.at <= n.read <= |n.mgr.log|
            && FlagAfter(n.mgr.log[..o.at], o.action.to) && o.action.to in peers
  {
    var o := n.orders[0];
    assert OrderStamped(n, o);
    OnlyPeersFlagged(n.mgr.log[..o.at], peers, o.action.to);
  }

  lemma {:induction false} OnlyPeersFlagged(log: seq<IrohEvent>, peers: set<Key>, k: Key)
    requires FlagAfter(log, k) && (forall i :: 0 <= i < |log| ==> About(log[i], peers))
    ensures k in peers
  {
    var n := |log| - 1;
    assert About(log[n], peers);
    if log[n] != ConnectedToPeer(k) {
      OnlyPeersFlagged(log[..n], peers, k);
    }
  }
}
