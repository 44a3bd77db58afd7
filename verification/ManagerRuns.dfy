/** Every run of the connection manager under arbitrary interleavings and arbitrary actions from the coordinator. */
module ManagerRuns {
  import opened Wire
  import opened Manager

  /** One step of the manager, of a task it spawned, or of the network at this node. */
  datatype Move =
    | DialAttempt(t: nat, conn: Conn)        // endpoint.connect() starts a handshake
    | DialFail(t: nat)                       // ... which fails
    | DialUp(t: nat)                         // ... or completes
    | DialSend(t: nat)                       // the message finds room in the manager's queue
    | DialCancel(t: nat)                     // an abort takes effect
    | AcceptUp(conn: Conn)                   // an incoming handshake completes
    | AcceptSend(conn: Conn)
    | SessionFail(s: nat)                    // read_datagram() reports an error
    | SessionReport(s: nat)                  // Disconnected finds room in the manager's queue
    | SessionOrphan(s: nat)                  // the packet channel is closed and drained
    | SessionCancel(s: nat)
    | SessionTransmit(s: nat, ok: bool)      // send_datagram() of the oldest queued packet
    | SessionReceive(s: nat, packet: Packet, room: bool)
    | TakeEvent
    | TakeAction(action: CoreAction)
    | SendReport
    | FinishHandler

  predicate Enabled(m: State, mv: Move) {
    match mv
    case DialAttempt(t, conn) =>
      && t < |m.dials| && m.dials[t].stage == Resting
      && conn.remote == m.dials[t].peer && conn.side == Dialer && conn !in m.begun
    case DialFail(t) => t < |m.dials| && m.dials[t].stage.Handshaking?
    case DialUp(t) => t < |m.dials| && m.dials[t].stage.Handshaking?
    case DialSend(t) => t < |m.dials| && m.dials[t].stage.Sending? && |m.inbox| < CHANNEL_CAPACITY
    case DialCancel(t) => t < |m.dials| && m.dials[t].aborted && !m.dials[t].stage.Sent?
    case AcceptUp(conn) => conn.side == Listener && conn !in m.begun
    case AcceptSend(conn) => conn in m.accepts && |m.inbox| < CHANNEL_CAPACITY
    case SessionFail(s) => s < |m.sessions| && m.sessions[s].stage == Relaying
    case SessionReport(s) => s < |m.sessions| && m.sessions[s].stage == Reporting && |m.inbox| < CHANNEL_CAPACITY
    case SessionOrphan(s) =>
      s < |m.sessions| && m.sessions[s].stage == Relaying && !m.sessions[s].senderOpen && m.sessions[s].outbox == []
    case SessionCancel(s) => s < |m.sessions| && m.sessions[s].aborted
    case SessionTransmit(s, _) => s < |m.sessions| && m.sessions[s].stage == Relaying && m.sessions[s].outbox != []
    case SessionReceive(s, _, _) => s < |m.sessions| && m.sessions[s].stage == Relaying
    case TakeEvent => m.phase == Idle && m.inbox != []
    case TakeAction(_) => m.phase == Idle
    case SendReport => m.phase.AnnounceUp? || m.phase.AnnounceDown?
    case FinishHandler => m.phase.Install? || m.phase.Retire?
  }

  function SetDial(m: State, t: nat, stage: DialStage): (r: State)
    requires t < |m.dials|
  {
    m.(dials := m.dials[t := m.dials[t].(stage := stage)])
  }

  function SetSession(m: State, s: nat, stage: SessionStage): (r: State)
    requires s < |m.sessions|
  {
    m.(sessions := m.sessions[s := m.sessions[s].(stage := stage)])
  }

  function Do(m: State, mv: Move): (r: State)
    requires Enabled(m, mv)
    ensures r.self == m.self && m.log <= r.log && |r.log| <= |m.log| + 1
  {
    match mv
    case DialAttempt(t, conn) => SetDial(m, t, Handshaking(conn)).(begun := m.begun + {conn})
    case DialFail(t) => SetDial(m, t, Resting)
    case DialUp(t) => SetDial(m, t, Sending(m.dials[t].stage.conn))
    case DialSend(t) =>
      var conn := m.dials[t].stage.conn;
      SetDial(m, t, Sent(conn)).(inbox := m.inbox + [OutgoingConnection(conn, t)], handed := m.handed + {conn})
    case DialCancel(t) => SetDial(m, t, Cancelled)
    case AcceptUp(conn) => m.(accepts := m.accepts + {conn}, begun := m.begun + {conn})
    case AcceptSend(conn) =>
      m.(accepts := m.accepts - {conn}, inbox := m.inbox + [IncomingConnection(conn)], handed := m.handed + {conn})
    case SessionFail(s) => SetSession(m, s, Reporting)
    case SessionReport(s) =>
      SetSession(m, s, Over).(inbox := m.inbox + [SessionEnded(m.sessions[s].conn.remote, s)])
    case SessionOrphan(s) => SetSession(m, s, Over)
    case SessionCancel(s) => SetSession(m, s, Over)
    case SessionTransmit(s, ok) =>
      var sess := m.sessions[s];
      m.(sessions := m.sessions[s := sess.(outbox := sess.outbox[1..], carried := sess.carried + [sess.outbox[0]],
                                           stage := if ok then Relaying else Reporting)])
    case SessionReceive(s, p, room) =>
      if room then m.(log := m.log + [RecvPacketFrom(p, m.sessions[s].conn.remote)]) else m
    case TakeEvent => BeginConnEvent(m.(inbox := m.inbox[1..]), m.inbox[0])
    case TakeAction(a) => BeginCoreAction(m, a)
    case SendReport => Report(m)
    case FinishHandler => Finish(m)
  }

  /** The state after a schedule, if every move of it was possible. */
  function Exec(m: State, moves: seq<Move>): (r: Option<State>) {
    if moves == [] then Some(m)
    else
      match Exec(m, moves[..|moves| - 1])
      case None => None
      case Some(m1) => if Enabled(m1, moves[|moves| - 1]) then Some(Do(m1, moves[|moves| - 1])) else None
  }

  lemma ExecSnoc(m: State, moves: seq<Move>, at: State, mv: Move)
    requires Exec(m, moves) == Some(at) && Enabled(at, mv)
    ensures Exec(m, moves + [mv]) == Some(Do(at, mv))
  {}

  // ---- no lost dial, no dead session kept

  /** The handler in progress is about to rewrite the entry of `k`. */
  predicate Touched(phase: Phase, k: Key) {
    match phase
    case AnnounceUp(conn) => conn.remote == k
    case Install(conn) => conn.remote == k
    case AnnounceDown(j, _) => j == k
    case Retire(j, _) => j == k
    case _ => false
  }

  /** The dial task is still at work, or the message it sent is still queued. */
  predicate Pending(m: State, t: nat)
    requires t < |m.dials|
  {
    match m.dials[t].stage
    case Sent(conn) => OutgoingConnection(conn, t) in m.inbox
    case Cancelled => false
    case _ => true
  }

  /** The session task has not returned, or its own farewell is still queued. */
  predicate Attended(m: State, s: nat, k: Key)
    requires s < |m.sessions|
  {
    !m.sessions[s].aborted && (m.sessions[s].stage != Over || SessionEnded(k, s) in m.inbox)
  }

  /** The entry names its own task. */
  predicate Rooted(m: State, k: Key)
    requires k in m.table
  {
    match m.table[k]
    case Connected(s, conn) =>
      s < |m.sessions| && m.sessions[s].conn == conn && conn.remote == k && m.sessions[s].senderOpen
    case Connecting(t) => t < |m.dials| && m.dials[t].peer == k && !m.dials[t].aborted
    case _ => true
  }

  /** The task of the entry will still be heard of. */
  predicate Alive(m: State, k: Key)
    requires k in m.table && Rooted(m, k)
  {
    match m.table[k]
    case Connected(s, _) => Attended(m, s, k)
    case Connecting(t) => Pending(m, t)
    case _ => true
  }

  predicate EntryOk(m: State, k: Key)
    requires k in m.table
  {
    Rooted(m, k) && (Touched(m.phase, k) || Alive(m, k))
  }

  /** Only the session in the table has an open packet sender. */
  predicate SessionOk(table: map<Key, Entry>, s: nat, session: Session) {
    session.senderOpen ==> session.conn.remote in table && table[session.conn.remote] == Connected(s, session.conn)
  }

  predicate DialOk(d: Dial) {
    d.stage.Handshaking? || d.stage.Sending? || d.stage.Sent? ==>
      d.stage.conn.remote == d.peer && d.stage.conn.side == Dialer
  }

  /** A queued message is the last act of the task it names. */
  predicate EventOk(dials: seq<Dial>, sessions: seq<Session>, ev: ConnectionEvent) {
    match ev
    case OutgoingConnection(conn, t) => t < |dials| && dials[t].stage == Sent(conn)
    case SessionEnded(k, s) => s < |sessions| && sessions[s].conn.remote == k && sessions[s].stage == Over
    case _ => true
  }

  predicate PhaseOk(m: State) {
    match m.phase
    case AnnounceUp(conn) => conn.remote in m.table && !m.table[conn.remote].Disconnected?
    case Install(conn) => conn.remote in m.table && !m.table[conn.remote].Disconnected?
    case AnnounceDown(k, _) => k in m.table && m.table[k].Connected?
    case Retire(k, _) => k in m.table && m.table[k].Connected?
    case _ => true
  }

  /** Everything but the liveness of the entry of `k`. */
  ghost predicate InvBut(m: State, k: Key) {
    && (forall j :: j in m.table ==> Rooted(m, j) && (j != k ==> EntryOk(m, j)))
    && (forall s :: 0 <= s < |m.sessions| ==> SessionOk(m.table, s, m.sessions[s]))
    && (forall t :: 0 <= t < |m.dials| ==> DialOk(m.dials[t]))
    && (forall i :: 0 <= i < |m.inbox| ==> EventOk(m.dials, m.sessions, m.inbox[i]))
    && |m.inbox| <= CHANNEL_CAPACITY
  }

  ghost predicate Inv(m: State) {
    && (forall k :: k in m.table ==> EntryOk(m, k))
    && (forall s :: 0 <= s < |m.sessions| ==> SessionOk(m.table, s, m.sessions[s]))
    && (forall t :: 0 <= t < |m.dials| ==> DialOk(m.dials[t]))
    && (forall i :: 0 <= i < |m.inbox| ==> EventOk(m.dials, m.sessions, m.inbox[i]))
    && |m.inbox| <= CHANNEL_CAPACITY && PhaseOk(m)
  }

  lemma StartedInv(m: State, self: Key, peers: set<Key>)
    requires IsStarted(m, self, peers)
    ensures Inv(m)
  {}

  predicate OfDial(mv: Move) {
    mv.DialAttempt? || mv.DialFail? || mv.DialUp? || mv.DialSend? || mv.DialCancel?
  }

  predicate OfAccept(mv: Move) {
    mv.AcceptUp? || mv.AcceptSend?
  }

  predicate OfManager(mv: Move) {
    mv.TakeEvent? || mv.TakeAction? || mv.SendReport? || mv.FinishHandler?
  }

  lemma DialKeepsInv(m: State, mv: Move)
    requires Inv(m) && Enabled(m, mv) && OfDial(mv)
    ensures Inv(Do(m, mv))
  {
    var m' := Do(m, mv);
    assert m.inbox <= m'.inbox;
    forall k | k in m'.table ensures EntryOk(m', k) {
      assert EntryOk(m, k);
    }
  }

  lemma AcceptKeepsInv(m: State, mv: Move)
    requires Inv(m) && Enabled(m, mv) && OfAccept(mv)
    ensures Inv(Do(m, mv))
  {
    var m' := Do(m, mv);
    assert m.inbox <= m'.inbox;
    forall k | k in m'.table ensures EntryOk(m', k) {
      assert EntryOk(m, k);
    }
  }

  lemma SessionKeepsInv(m: State, mv: Move)
    requires Inv(m) && Enabled(m, mv) && !OfDial(mv) && !OfAccept(mv) && !OfManager(mv)
    ensures Inv(Do(m, mv))
  {
    var m' := Do(m, mv);
    assert m.inbox <= m'.inbox;
    forall k | k in m'.table ensures EntryOk(m', k) {
      assert EntryOk(m, k);
    }
  }

  function Subject(ev: ConnectionEvent): (k: Key) {
    match ev
    case OutgoingConnection(conn, _) => conn.remote
    case IncomingConnection(conn) => conn.remote
    case SessionEnded(k, _) => k
    case InternalError => 0
  }

  predicate Concerns(ev: ConnectionEvent, k: Key) {
    !ev.InternalError? && Subject(ev) == k
  }

  /** Taking a message off the queue can only leave the peer it is about unattended... */
  lemma DequeueKeeps(m: State)
    requires Inv(m) && m.inbox != [] && m.phase == Idle
    ensures var m1, ev := m.(inbox := m.inbox[1..]), m.inbox[0];
            && InvBut(m1, Subject(ev))
            && (Subject(ev) in m.table ==> EntryOk(m, Subject(ev)))
  {}

  lemma CloseKeeps(m: State, conn: Conn, k: Key)
    requires InvBut(m, k)
    ensures InvBut(Close(m, conn), k)
  {}

  lemma AbortSessionKeeps(m: State, k: Key)
    requires InvBut(m, k) && k in m.table && m.table[k].Connected?
    ensures InvBut(AbortSession(m, m.table[k].session), k)
  {}

  /** ... which the handler then either rewrites, or leaves because it does not depend on the message. */
  lemma TouchRestores(m: State, k: Key, phase: Phase)
    requires InvBut(m, k) && m.phase == Idle && Touched(phase, k) && PhaseOk(m.(phase := phase))
    ensures Inv(m.(phase := phase))
  {}

  lemma ReplaceKeeps(m: State, k: Key, conn: Conn)
    requires InvBut(m, k) && m.phase == Idle && k in m.table && m.table[k].Connected? && conn.remote == k
    ensures Inv(Close(AbortSession(m, m.table[k].session), m.table[k].conn).(phase := AnnounceUp(conn)))
  {}

  /** A message that changes no entry leaves the peer it is about as attended as before. */
  lemma IgnoredKeeps(m: State, ev: ConnectionEvent)
    requires Inv(m) && m.phase == Idle && m.inbox != [] && ev == m.inbox[0]
    requires var m1 := m.(inbox := m.inbox[1..]); BeginConnEvent(m1, ev).phase == Idle || ev.InternalError?
    ensures Inv(BeginConnEvent(m.(inbox := m.inbox[1..]), ev))
  {
    var m1 := m.(inbox := m.inbox[1..]);
    var m', k := BeginConnEvent(m1, ev), Subject(ev);
    DequeueKeeps(m);
    assert EventOk(m.dials, m.sessions, ev);
    assert m.inbox == [ev] + m.inbox[1..];
    forall j | j in m'.table ensures EntryOk(m', j) {
      assert EntryOk(m, j) && Rooted(m1, j) && (j != k ==> EntryOk(m1, j));
    }
  }

  lemma TakeEventKeepsInv(m: State)
    requires Inv(m) && Enabled(m, TakeEvent)
    ensures Inv(Do(m, TakeEvent))
  {
    var ev := m.inbox[0];
    var m1, m' := m.(inbox := m.inbox[1..]), Do(m, TakeEvent);
    var k := Subject(ev);
    DequeueKeeps(m);
    if m'.phase.AnnounceUp? && m.table[k].Connected? {
      ReplaceKeeps(m1, k, ev.conn);
    } else if m'.phase.AnnounceUp? || m'.phase.AnnounceDown? {
      TouchRestores(m1, k, m'.phase);
    } else {
      IgnoredKeeps(m, ev);
    }
  }

  /** Rewriting an entry that no other session shares keeps everything about the other peers. */
  lemma PutKeeps(m: State, k: Key, e: Entry)
    requires InvBut(m, k) && PhaseOk(m) && !Touched(m.phase, k)
    requires !e.Connected? && (e.Connecting? ==> EntryOk(m.(table := m.table[k := e]), k))
    ensures Inv(Put(m, k, e))
  {}

  lemma InitNewKeeps(m: State, k: Key)
    requires InvBut(m, k) && PhaseOk(m) && !Touched(m.phase, k)
    ensures Inv(InitNewConnection(m, k))
  {
    if m.self < k {
      PutKeeps(m, k, WaitingIncomingConnection);
    } else {
      var m1 := m.(dials := m.dials + [Dial(k, Resting, false)]);
      forall j | j in m1.table ensures Rooted(m1, j) && (j != k ==> EntryOk(m1, j)) {
        assert Rooted(m, j) && (j != k ==> EntryOk(m, j));
      }
      PutKeeps(m1, k, Connecting(|m.dials|));
    }
  }

  lemma AbortDialKeeps(m: State, k: Key)
    requires Inv(m) && m.phase == Idle && k in m.table && m.table[k].Connecting?
    ensures Inv(Put(AbortDial(m, m.table[k].dial), k, Disconnected))
  {}

  lemma RelayKeeps(m: State, s: nat, p: Packet, k: Key)
    requires Inv(m)
    ensures Inv(TryRelay(m, s, p, k))
  {}

  lemma TakeActionKeepsInv(m: State, a: CoreAction)
    requires Inv(m) && m.phase == Idle
    ensures Inv(BeginCoreAction(m, a))
  {
    match a
    case SendPacketTo(p, to) =>
      if to in m.table && m.table[to].Connected? { RelayKeeps(m, m.table[to].session, p, to); }
    case ConnectToPeer(k) =>
      if k in m.table && m.table[k].Disconnected? { InitNewKeeps(m, k); }
    case DisconnectFromPeer(k) =>
      if k in m.table && m.table[k].Connected? {
        assert EntryOk(m, k);
        AbortSessionKeeps(m, k);
        var m1 := AbortSession(m, m.table[k].session);
        CloseKeeps(m1, m.table[k].conn, k);
        TouchRestores(Close(m1, m.table[k].conn), k, AnnounceDown(k, false));
      } else if k in m.table && m.table[k].Connecting? {
        AbortDialKeeps(m, k);
      } else {
        PutKeeps(m, k, Disconnected);
      }
  }

  lemma SendReportKeepsInv(m: State)
    requires Inv(m)
    ensures Inv(Report(m))
  {}

  /** Leaving a handler, only the entry it was about to rewrite may be unattended. */
  lemma LeaveKeeps(m: State, k: Key)
    requires Inv(m) && Touched(m.phase, k)
    ensures InvBut(m.(phase := Idle), k)
  {}

  lemma InstallKeeps(m: State, conn: Conn)
    requires InvBut(m, conn.remote) && m.phase == Idle
    ensures Inv(InstallConnection(m, conn))
  {}

  lemma FinishKeepsInv(m: State)
    requires Inv(m)
    ensures Inv(Finish(m))
  {
    match m.phase
    case Install(conn) =>
      LeaveKeeps(m, conn.remote);
      InstallKeeps(m.(phase := Idle), conn);
    case Retire(k, redial) =>
      LeaveKeeps(m, k);
      if redial { InitNewKeeps(m.(phase := Idle), k); } else { PutKeeps(m.(phase := Idle), k, Disconnected); }
    case _ =>
  }

  lemma MoveKeepsInv(m: State, mv: Move)
    requires Inv(m) && Enabled(m, mv)
    ensures Inv(Do(m, mv))
  {
    match mv
    case TakeEvent => TakeEventKeepsInv(m);
    case TakeAction(a) => TakeActionKeepsInv(m, a);
    case SendReport => SendReportKeepsInv(m);
    case FinishHandler => FinishKeepsInv(m);
    case _ =>
      if OfDial(mv) {
        DialKeepsInv(m, mv);
      } else if OfAccept(mv) {
        AcceptKeepsInv(m, mv);
      } else {
        SessionKeepsInv(m, mv);
      }
  }

  lemma {:induction false} RunKeepsInv(m: State, moves: seq<Move>)
    requires Inv(m) && Exec(m, moves).Some?
    ensures Inv(Exec(m, moves).value)
  {
    if moves != [] {
      var n := |moves| - 1;
      RunKeepsInv(m, moves[..n]);
      MoveKeepsInv(Exec(m, moves[..n]).value, moves[n]);
    }
  }

  // ---- main results under arbitrary actions

  /** No stuck peer: an entry that no handler is rewriting and that is Connecting has its own, unaborted dial task at
      work or that task's message queued; one that is Connected has its own, unaborted session task running or a
      that task's farewell queued. */
  lemma NoStuckPeer(m: State, self: Key, peers: set<Key>, moves: seq<Move>)
    requires IsStarted(m, self, peers) && Exec(m, moves).Some?
    ensures var r := Exec(m, moves).value;
            forall k :: k in r.table && !Touched(r.phase, k) ==>
              && (r.table[k].Connecting? ==>
                    var t := r.table[k].dial;
                    t < |r.dials| && r.dials[t].peer == k && !r.dials[t].aborted && Pending(r, t))
              && (r.table[k].Connected? ==>
                    var s := r.table[k].session;
                    s < |r.sessions| && r.sessions[s].conn == r.table[k].conn && Attended(r, s, k))
  {
    StartedInv(m, self, peers);
    RunKeepsInv(m, moves);
    var r := Exec(m, moves).value;
    forall k | k in r.table && !Touched(r.phase, k) ensures EntryOk(r, k) && Alive(r, k) {
      assert EntryOk(r, k);
    }
  }

  /** Session uniqueness: a session still fed by the manager is the one in the table, so there is at most one for each
      peer, and every other session ever spawned has lost its packet sender. */
  lemma SessionUniqueness(m: State, self: Key, peers: set<Key>, moves: seq<Move>)
    requires IsStarted(m, self, peers) && Exec(m, moves).Some?
    ensures var r := Exec(m, moves).value;
            && (forall s :: 0 <= s < |r.sessions| ==>
                  var conn := r.sessions[s].conn;
                  r.sessions[s].senderOpen <==> conn.remote in r.table && r.table[conn.remote] == Connected(s, conn))
            && (forall i, j :: 0 <= i < j < |r.sessions| && r.sessions[i].conn.remote == r.sessions[j].conn.remote ==>
                  !(r.sessions[i].senderOpen && r.sessions[j].senderOpen))
  {
    StartedInv(m, self, peers);
    RunKeepsInv(m, moves);
    var r := Exec(m, moves).value;
    forall s | 0 <= s < |r.sessions|
      ensures var conn := r.sessions[s].conn;
              r.sessions[s].senderOpen <==> conn.remote in r.table && r.table[conn.remote] == Connected(s, conn)
    {
      assert SessionOk(r.table, s, r.sessions[s]);
      var k := r.sessions[s].conn.remote;
      assert k in r.table ==> EntryOk(r, k);
    }
  }

  /** Whoever is aborted has had its connection closed as well. */
  ghost predicate AbortsClose(m: State) {
    forall s :: 0 <= s < |m.sessions| && m.sessions[s].aborted ==> m.sessions[s].conn.id in m.closed
  }

  lemma ExpireCloses(m: State, k: Key)
    requires AbortsClose(m) && k in m.table && m.table[k].Connected? && Rooted(m, k)
    ensures AbortsClose(Close(AbortSession(m, m.table[k].session), m.table[k].conn))
  {}

  lemma TakeAbortsClose(m: State, mv: Move)
    requires AbortsClose(m) && Inv(m) && Enabled(m, mv) && (mv.TakeEvent? || mv.TakeAction?)
    ensures AbortsClose(Do(m, mv))
  {
    match mv
    case TakeEvent =>
      var k := Subject(m.inbox[0]);
      if k in m.table && m.table[k].Connected? {
        assert EntryOk(m, k);
        ExpireCloses(m.(inbox := m.inbox[1..]), k);
      }
    case TakeAction(a) =>
      if a.DisconnectFromPeer? && a.key in m.table && m.table[a.key].Connected? {
        assert EntryOk(m, a.key);
        ExpireCloses(m, a.key);
      }
  }

  lemma FinishAbortsClose(m: State)
    requires AbortsClose(m)
    ensures AbortsClose(Finish(m))
  {}

  lemma MoveAbortsClose(m: State, mv: Move)
    requires AbortsClose(m) && Inv(m) && Enabled(m, mv)
    ensures AbortsClose(Do(m, mv))
  {
    match mv
    case TakeEvent => TakeAbortsClose(m, mv);
    case TakeAction(_) => TakeAbortsClose(m, mv);
    case FinishHandler => FinishAbortsClose(m);
    case _ =>
  }

  lemma {:induction false} AbortedAreClosed(m: State, self: Key, peers: set<Key>, moves: seq<Move>)
    requires IsStarted(m, self, peers) && Exec(m, moves).Some?
    ensures AbortsClose(Exec(m, moves).value)
  {
    if moves != [] {
      var n := |moves| - 1;
      AbortedAreClosed(m, self, peers, moves[..n]);
      StartedInv(m, self, peers);
      RunKeepsInv(m, moves[..n]);
      MoveAbortsClose(Exec(m, moves[..n]).value, moves[n]);
    }
  }
}
