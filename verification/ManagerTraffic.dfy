/** Roles, whole handlers and the traffic of the sessions, over every run and under any actions. */
module ManagerTraffic {
  import opened Wire
  import opened Seqs
  import opened Manager
  import opened ManagerRuns
  import opened ManagerReports

  // ---- roles under any actions

  /** Only peers with a key no larger than ours are dialed, only peers with a larger one are awaited. */
  ghost predicate Roles(m: State) {
    && (forall k :: k in m.table ==>
          && (m.table[k].Connecting? ==> k <= m.self)
          && (m.table[k].WaitingIncomingConnection? ==> m.self < k))
    && (forall t :: 0 <= t < |m.dials| ==> m.dials[t].peer <= m.self)
  }

  lemma FinishKeepsRoles(m: State)
    requires Roles(m)
    ensures Roles(Finish(m))
  {}

  lemma ActionKeepsRoles(m: State, a: CoreAction)
    requires Roles(m)
    ensures Roles(BeginCoreAction(m, a))
  {}

  lemma MoveKeepsRoles(m: State, mv: Move)
    requires Roles(m) && Enabled(m, mv)
    ensures Roles(Do(m, mv))
  {
    match mv
    case TakeAction(a) => ActionKeepsRoles(m, a);
    case FinishHandler => FinishKeepsRoles(m);
    case TakeEvent => assert Do(m, mv).table == m.table && Do(m, mv).dials == m.dials;
    case _ =>
  }

  /** Role asymmetry over every run and under any actions: entries follow the order of the keys, and no outgoing
      connection is ever queued for a peer this node waits for. */
  lemma {:induction false} RolesUnderAnyActions(m: State, self: Key, peers: set<Key>, moves: seq<Move>)
    requires IsStarted(m, self, peers) && Exec(m, moves).Some?
    ensures var r := Exec(m, moves).value;
            && Roles(r)
            && (forall i :: 0 <= i < |r.inbox| && r.inbox[i].OutgoingConnection? && r.inbox[i].conn.remote in r.table ==>
                  !r.table[r.inbox[i].conn.remote].WaitingIncomingConnection?)
  {
    if moves != [] {
      var n := |moves| - 1;
      RolesUnderAnyActions(m, self, peers, moves[..n]);
      MoveKeepsRoles(Exec(m, moves[..n]).value, moves[n]);
    }
    StartedInv(m, self, peers);
    RunKeepsInv(m, moves);
    var r := Exec(m, moves).value;
    forall i | 0 <= i < |r.inbox| && r.inbox[i].OutgoingConnection? ensures r.inbox[i].conn.remote <= r.self {
      assert EventOk(r.dials, r.sessions, r.inbox[i]) && DialOk(r.dials[r.inbox[i].dial]);
    }
  }

  // ---- whole handlers

  /** A connection that meets a Connected entry replaces it: the old session is aborted, unplugged and its connection
      closed, the new one is reported once and takes its place, and no other entry or session changes. */
  lemma ReplacementIsComplete(m: State, ev: ConnectionEvent)
    requires Inv(m) && m.phase == Idle && (ev.OutgoingConnection? || ev.IncomingConnection?)
    requires ev.conn.remote in m.table && m.table[ev.conn.remote].Connected?
    ensures var k := ev.conn.remote;
            var s := m.table[k].session;
            var r := Settle(BeginConnEvent(m, ev));
            && r.phase == Idle && r.log == m.log + [ConnectedToPeer(k)]
            && r.table == m.table[k := Connected(|m.sessions|, ev.conn)]
            && s < |m.sessions| && |r.sessions| == |m.sessions| + 1
            && r.sessions[s].aborted && !r.sessions[s].senderOpen && m.table[k].conn.id in r.closed
            && r.sessions[|m.sessions|].conn == ev.conn && r.sessions[|m.sessions|].senderOpen
            && (forall i :: 0 <= i < |m.sessions| && i != s ==> r.sessions[i] == m.sessions[i])
  {}

  /** The task of an entry is called off: a session is aborted and unplugged and its connection closed, a dial aborted. */
  predicate CalledOff(m: State, e: Entry, m': State) {
    match e
    case Connected(s, conn) =>
      && s < |m.sessions| && conn.id in m'.closed
      && m'.sessions == m.sessions[s := m.sessions[s].(aborted := true, senderOpen := false)] && m'.dials == m.dials
    case Connecting(t) =>
      t < |m.dials| && m'.dials == m.dials[t := m.dials[t].(aborted := true)] && m'.sessions == m.sessions
    case _ => m'.dials == m.dials && m'.sessions == m.sessions
  }

  /** Disconnecting a peer and connecting to it again leaves it in its role with a fresh dial if it is to be dialed; a
      disconnect was reported exactly if it was connected; its task is called off and no other; every other entry is as
      before; and asking once more changes nothing. */
  lemma DisconnectThenConnect(m: State, k: Key)
    requires Inv(m) && m.phase == Idle
    ensures var d := Settle(BeginCoreAction(m, DisconnectFromPeer(k)));
            var r := Settle(BeginCoreAction(d, ConnectToPeer(k)));
            && d.phase == Idle && d.table == m.table[k := Disconnected] && (k in m.table ==> CalledOff(m, m.table[k], d))
            && d.log == m.log + (if k in m.table && m.table[k].Connected? then [DisconnectedFromPeer(k)] else [])
            && r.log == d.log && r.phase == Idle
            && (if m.self < k then r.table == m.table[k := WaitingIncomingConnection] && r.dials == d.dials
                else r.table == m.table[k := Connecting(|m.dials|)] && r.dials == d.dials + [Dial(k, Resting, false)])
            && Settle(BeginCoreAction(r, ConnectToPeer(k))) == r
  {
    assert k in m.table ==> EntryOk(m, k);
    var d := Settle(BeginCoreAction(m, DisconnectFromPeer(k)));
    assert m.table[k := Disconnected][k := WaitingIncomingConnection] == m.table[k := WaitingIncomingConnection];
    assert m.table[k := Disconnected][k := Connecting(|m.dials|)] == m.table[k := Connecting(|m.dials|)];
    assert |d.dials| == |m.dials|;
  }

  /** An internal error is the end of the manager: whatever happens after it is taken, no entry is ever written again and
      no connection reported. */
  lemma {:induction false} InternalErrorStops(m: State, moves: seq<Move>)
    requires Enabled(m, TakeEvent) && m.inbox[0].InternalError? && Exec(Do(m, TakeEvent), moves).Some?
    ensures var r := Exec(Do(m, TakeEvent), moves).value;
            && r.phase == Stopped && r.table == m.table && (forall mv :: OfManager(mv) ==> !Enabled(r, mv))
            && (forall k :: FlagAfter(r.log, k) == FlagAfter(m.log, k))
  {
    if moves != [] {
      var n := |moves| - 1;
      InternalErrorStops(m, moves[..n]);
      var before := Exec(Do(m, TakeEvent), moves[..n]).value;
      TasksKeepTable(before, moves[n]);
    }
  }

  lemma TasksKeepTable(m: State, mv: Move)
    requires Enabled(m, mv) && !OfManager(mv)
    ensures var m' := Do(m, mv);
            m'.phase == m.phase && m'.table == m.table && (forall k :: FlagAfter(m'.log, k) == FlagAfter(m.log, k))
  {
    if mv.SessionReceive? && mv.room {
      assert Do(m, mv).log[..|m.log|] == m.log;
    }
  }

  // ---- what a session carries

  function FedTo(s: nat): (f: Parcel -> seq<Packet>) {
    (p: Parcel) => if p.session == s then [p.packet] else []
  }

  ghost predicate Carries(m: State) {
    && (forall i :: 0 <= i < |m.relayed| ==>
          && m.relayed[i].session < |m.sessions|
          && m.sessions[m.relayed[i].session].conn.remote == m.relayed[i].to)
    && (forall s :: 0 <= s < |m.sessions| ==>
          Pick(m.relayed, FedTo(s)) == m.sessions[s].carried + m.sessions[s].outbox)
  }

  lemma {:induction false} FedNothing(relayed: seq<Parcel>, s: nat)
    requires forall i :: 0 <= i < |relayed| ==> relayed[i].session != s
    ensures Pick(relayed, FedTo(s)) == []
  {
    if relayed != [] {
      FedNothing(relayed[..|relayed| - 1], s);
    }
  }

  lemma RelayKeepsCarries(m: State, p: Packet, to: Key)
    requires Inv(m) && Carries(m)
    ensures Carries(BeginCoreAction(m, SendPacketTo(p, to)))
  {
    var m' := BeginCoreAction(m, SendPacketTo(p, to));
    if m'.relayed != m.relayed {
      assert EntryOk(m, to);
      var s := m.table[to].session;
      forall i | 0 <= i < |m'.sessions|
        ensures Pick(m'.relayed, FedTo(i)) == m'.sessions[i].carried + m'.sessions[i].outbox
      {
        PickSnoc(m.relayed, Parcel(to, p, s), FedTo(i));
      }
    }
  }

  /** The sessions keep their peers and loads, and new ones start empty. */
  predicate SameLoad(x: Session, y: Session) {
    x.conn == y.conn && x.carried + x.outbox == y.carried + y.outbox
  }

  ghost predicate SameLoads(m: State, m': State) {
    && m'.relayed == m.relayed && |m.sessions| <= |m'.sessions|
    && (forall s :: 0 <= s < |m.sessions| ==> SameLoad(m.sessions[s], m'.sessions[s]))
    && (forall s :: |m.sessions| <= s < |m'.sessions| ==> m'.sessions[s].carried + m'.sessions[s].outbox == [])
  }

  lemma SameLoadsCarry(m: State, m': State)
    requires Carries(m) && SameLoads(m, m')
    ensures Carries(m')
  {
    forall s | 0 <= s < |m'.sessions| ensures Pick(m'.relayed, FedTo(s)) == m'.sessions[s].carried + m'.sessions[s].outbox {
      if s < |m.sessions| {
        assert SameLoad(m.sessions[s], m'.sessions[s]);
      } else {
        FedNothing(m.relayed, s);
      }
    }
  }

  lemma TakeEventSameLoads(m: State, ev: ConnectionEvent)
    ensures SameLoads(m, BeginConnEvent(m, ev))
  {}

  lemma ActionSameLoads(m: State, a: CoreAction)
    requires !a.SendPacketTo?
    ensures SameLoads(m, BeginCoreAction(m, a))
  {}

  lemma FinishSameLoads(m: State)
    ensures SameLoads(m, Finish(m))
  {}

  lemma TaskSameLoads(m: State, mv: Move)
    requires Enabled(m, mv) && !mv.TakeEvent? && !mv.TakeAction? && !mv.FinishHandler?
    ensures SameLoads(m, Do(m, mv))
  {
    if mv.SessionTransmit? {
      var out, carried := m.sessions[mv.s].outbox, m.sessions[mv.s].carried;
      assert carried + [out[0]] + out[1..] == carried + out;
    }
  }

  lemma MoveSameLoads(m: State, mv: Move)
    requires Enabled(m, mv) && !(mv.TakeAction? && mv.action.SendPacketTo?)
    ensures SameLoads(m, Do(m, mv))
  {
    match mv
    case TakeEvent => TakeEventSameLoads(m.(inbox := m.inbox[1..]), m.inbox[0]);
    case TakeAction(a) => ActionSameLoads(m, a);
    case FinishHandler => FinishSameLoads(m);
    case _ => TaskSameLoads(m, mv);
  }

  lemma MoveKeepsCarries(m: State, mv: Move)
    requires Inv(m) && Carries(m) && Enabled(m, mv)
    ensures Carries(Do(m, mv))
  {
    if mv.TakeAction? && mv.action.SendPacketTo? {
      RelayKeepsCarries(m, mv.action.packet, mv.action.to);
    } else {
      MoveSameLoads(m, mv);
      SameLoadsCarry(m, Do(m, mv));
    }
  }

  /** Over every run, what a session has handed to its connection followed by what waits in its channel is exactly what
      the manager put into it, in order, and all of it is addressed to that session's peer. */
  lemma {:induction false} SessionsCarryTheirParcels(m: State, self: Key, peers: set<Key>, moves: seq<Move>)
    requires IsStarted(m, self, peers) && Exec(m, moves).Some?
    ensures Carries(Exec(m, moves).value)
  {
    if moves != [] {
      var n := |moves| - 1;
      SessionsCarryTheirParcels(m, self, peers, moves[..n]);
      StartedInv(m, self, peers);
      RunKeepsInv(m, moves[..n]);
      MoveKeepsCarries(Exec(m, moves[..n]).value, moves[n]);
    }
  }

  // ---- what sessions receive is reported

  function HeardFrom(k: Key): (f: IrohEvent -> seq<Packet>) {
    (e: IrohEvent) => if e.RecvPacketFrom? && e.key == k then [e.packet] else []
  }

  function Heard(m: State, k: Key): (r: seq<Packet>) {
    Pick(m.log, HeardFrom(k))
  }

  lemma HandlersHearNothing(m: State, mv: Move)
    requires Enabled(m, mv) && (mv.TakeEvent? || mv.TakeAction? || mv.FinishHandler?)
    ensures Do(m, mv).log == m.log
  {
    match mv
    case TakeEvent => EventKeepsShown(m.(inbox := m.inbox[1..]), m.inbox[0], 0);
    case TakeAction(a) => ActionKeepsShown(m, a, 0);
    case FinishHandler => FinishKeepsShown(m, 0);
  }

  /** What a move hears from `k`: a datagram of a session with `k`, if the report finds room. */
  function HeardBy(m: State, mv: Move, k: Key): (r: seq<Packet>)
    requires Enabled(m, mv)
  {
    if mv.SessionReceive? && mv.room && m.sessions[mv.s].conn.remote == k then [mv.packet] else []
  }

  lemma MoveHears(m: State, mv: Move, k: Key)
    requires Enabled(m, mv)
    ensures Heard(Do(m, mv), k) == Heard(m, k) + HeardBy(m, mv, k)
  {
    if mv.TakeEvent? || mv.TakeAction? || mv.FinishHandler? { HandlersHearNothing(m, mv); }
  }

  /** The datagrams that arrived from `k` along a schedule while there was room for the report, in order. */
  function ArrivedIn(m: State, moves: seq<Move>, k: Key): (r: seq<Packet>)
    requires Exec(m, moves).Some?
  {
    if moves == [] then []
    else
      var n := |moves| - 1;
      ArrivedIn(m, moves[..n], k) + HeardBy(Exec(m, moves[..n]).value, moves[n], k)
  }

  /** Over every run, the datagrams reported from a peer are exactly those its sessions received while there was room,
      each once and in order. */
  lemma {:induction false} ReceivedAreReported(m: State, self: Key, peers: set<Key>, moves: seq<Move>, k: Key)
    requires IsStarted(m, self, peers) && Exec(m, moves).Some?
    ensures Heard(Exec(m, moves).value, k) == ArrivedIn(m, moves, k)
  {
    if moves != [] {
      var n := |moves| - 1;
      ReceivedAreReported(m, self, peers, moves[..n], k);
      MoveHears(Exec(m, moves[..n]).value, moves[n], k);
    }
  }
}
