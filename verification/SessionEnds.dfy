/** How sessions end: a failed one always says so, nobody else does, and its peer comes back to its role. */
module SessionEnds {
  import opened Wire
  import opened Seqs
  import opened Manager
  import opened ManagerRuns
  import opened ClosedRuns
  import opened Schedules
  import opened Farewells
  import Connections

  // ---- over every run, under any actions

  /** The session's connection failed it: while reading, or while sending for a reason other than size. */
  predicate Fails(mv: Move, s: nat) {
    mv == SessionFail(s) || mv == SessionTransmit(s, false)
  }

  ghost predicate FailedIn(moves: seq<Move>, s: nat) {
    exists n :: 0 <= n < |moves| && Fails(moves[n], s)
  }

  predicate HeadIsFarewell(m: State, s: nat) {
    m.inbox != [] && m.inbox[0].SessionEnded? && m.inbox[0].session == s
  }

  /** The manager took the session's farewell at the `n`th move. */
  ghost predicate TakenAt(m: State, moves: seq<Move>, s: nat, n: nat) {
    && n < |moves| && moves[n] == TakeEvent && Exec(m, moves[..n]).Some?
    && HeadIsFarewell(Exec(m, moves[..n]).value, s)
  }

  ghost predicate TakenIn(m: State, moves: seq<Move>, s: nat) {
    exists n: nat :: TakenAt(m, moves, s, n)
  }

  predicate Queued(m: State, s: nat)
    requires s < |m.sessions|
  {
    SessionEnded(m.sessions[s].conn.remote, s) in m.inbox
  }

  /** A session that has failed is waiting to say so, has said so, or was aborted before it could. */
  ghost predicate Parting(m: State, s: nat, taken: bool) {
    && s < |m.sessions| && m.sessions[s].stage != Relaying
    && (m.sessions[s].stage == Reporting || m.sessions[s].aborted || Queued(m, s) || taken)
  }

  /** Only a session that has failed waits to say so, or has said so. */
  predicate Honest(m: State, s: nat, failed: bool) {
    s < |m.sessions| && (m.sessions[s].stage == Reporting || Queued(m, s)) ==> failed
  }

  predicate SameSession(x: Session, y: Session) {
    y.conn == x.conn && y.stage == x.stage && (x.aborted ==> y.aborted)
  }

  lemma EventKeepsSession(m: State, ev: ConnectionEvent, s: nat)
    requires s < |m.sessions|
    ensures var m' := BeginConnEvent(m, ev); s < |m'.sessions| && SameSession(m.sessions[s], m'.sessions[s])
  {}

  lemma ActionKeepsSession(m: State, a: CoreAction, s: nat)
    requires s < |m.sessions|
    ensures var m' := BeginCoreAction(m, a); s < |m'.sessions| && SameSession(m.sessions[s], m'.sessions[s])
  {}

  lemma FinishKeepsSession(m: State, s: nat)
    requires s < |m.sessions|
    ensures var m' := Finish(m); s < |m'.sessions| && SameSession(m.sessions[s], m'.sessions[s])
  {}

  lemma HandlerKeepsSession(m: State, mv: Move, s: nat)
    requires Enabled(m, mv) && OfManager(mv) && s < |m.sessions|
    ensures var m' := Do(m, mv); s < |m'.sessions| && SameSession(m.sessions[s], m'.sessions[s])
  {
    match mv
    case TakeEvent => EventKeepsSession(m.(inbox := m.inbox[1..]), m.inbox[0], s);
    case TakeAction(a) => ActionKeepsSession(m, a, s);
    case FinishHandler => FinishKeepsSession(m, s);
    case SendReport =>
  }

  /** A session spawned by the manager relays. */
  lemma NewSessionRelays(m: State, mv: Move, s: nat)
    requires Enabled(m, mv) && |m.sessions| <= s < |Do(m, mv).sessions|
    ensures Do(m, mv).sessions[s].stage == Relaying && mv.FinishHandler?
  {
    if mv.TakeEvent? { Connections.EventMoves(m.(inbox := m.inbox[1..]), m.inbox[0]); }
    else if mv.TakeAction? { Connections.ActionMoves(m, mv.action); }
    else if mv.FinishHandler? { Connections.FinishMoves(m); }
  }

  lemma TaskKeepsParting(m: State, mv: Move, s: nat, failed: bool, taken: bool)
    requires Inv(m) && Enabled(m, mv) && !OfManager(mv)
    requires (failed ==> Parting(m, s, taken)) && Honest(m, s, failed)
    ensures var m', now := Do(m, mv), failed || Fails(mv, s);
            (now ==> Parting(m', s, taken)) && Honest(m', s, now)
  {
    assert m.inbox <= Do(m, mv).inbox;
  }

  lemma HandlerKeepsParting(m: State, mv: Move, s: nat, failed: bool, taken: bool)
    requires Inv(m) && Enabled(m, mv) && OfManager(mv)
    requires (failed ==> Parting(m, s, taken)) && Honest(m, s, failed)
    ensures var m', took := Do(m, mv), taken || (mv.TakeEvent? && HeadIsFarewell(m, s));
            (failed ==> Parting(m', s, took)) && Honest(m', s, failed)
  {
    var m' := Do(m, mv);
    HandlersOnlyDequeue(m, mv);
    if mv.TakeEvent? { assert m.inbox == [m.inbox[0]] + m'.inbox; }
    forall i | 0 <= i < |m.inbox| && m.inbox[i].SessionEnded? ensures m.inbox[i].session < |m.sessions| {
      assert EventOk(m.dials, m.sessions, m.inbox[i]);
    }
    if s < |m.sessions| {
      HandlerKeepsSession(m, mv, s);
    } else if s < |m'.sessions| {
      NewSessionRelays(m, mv, s);
    }
  }

  lemma TakenBefore(m: State, moves: seq<Move>, n: nat, s: nat)
    requires n <= |moves| && TakenIn(m, moves[..n], s)
    ensures TakenIn(m, moves, s)
  {
    var i: nat :| TakenAt(m, moves[..n], s, i);
    assert moves[..n][..i] == moves[..i];
    assert TakenAt(m, moves, s, i);
  }

  lemma FailedSnoc(moves: seq<Move>, s: nat)
    requires moves != []
    ensures FailedIn(moves, s) <==> FailedIn(moves[..|moves| - 1], s) || Fails(moves[|moves| - 1], s)
  {
    var n := |moves| - 1;
    if i :| 0 <= i < |moves| && Fails(moves[i], s) {
      assert i < n ==> Fails(moves[..n][i], s);
    }
  }

  /** Over every run and under any actions: a session whose read or send has failed is no longer relaying; it waits to say
      so, its farewell is queued or has been taken, or it was aborted. And a farewell is waiting or queued only for a
      session that has failed. */
  lemma {:induction false} FailedSessionsPart(m: State, self: Key, peers: set<Key>, moves: seq<Move>, s: nat)
    requires IsStarted(m, self, peers) && Exec(m, moves).Some?
    ensures var r := Exec(m, moves).value;
            && (FailedIn(moves, s) ==> Parting(r, s, TakenIn(m, moves, s)))
            && (s < |r.sessions| && (r.sessions[s].stage == Reporting || Queued(r, s)) ==> FailedIn(moves, s))
  {
    if moves != [] {
      var n := |moves| - 1;
      var before, failed, taken := Exec(m, moves[..n]).value, FailedIn(moves[..n], s), TakenIn(m, moves[..n], s);
      FailedSessionsPart(m, self, peers, moves[..n], s);
      StartedInv(m, self, peers);
      RunKeepsInv(m, moves[..n]);
      FailedSnoc(moves, s);
      if taken { TakenBefore(m, moves, n, s); }
      if moves[n].TakeEvent? && HeadIsFarewell(before, s) { assert TakenAt(m, moves, s, n); }
      if OfManager(moves[n]) {
        HandlerKeepsParting(before, moves[n], s, failed, taken);
      } else {
        TaskKeepsParting(before, moves[n], s, failed, taken);
      }
    }
  }

  // ---- the peer of a failed session comes back to its role

  /** The manager's own steps, and session `s` saying that it has failed. */
  function Telling(s: nat): (p: Move -> bool) {
    (mv: Move) => Handling(mv) || mv == SessionReport(s)
  }

  predicate InRole(m: State, k: Key) {
    k in m.table && if m.self < k then m.table[k].WaitingIncomingConnection? else m.table[k].Connecting?
  }

  lemma {:induction false} HandlingKeepsSession(m: State, moves: seq<Move>, s: nat)
    requires Exec(m, moves).Some? && (forall i :: 0 <= i < |moves| ==> Handling(moves[i])) && s < |m.sessions|
    ensures var r := Exec(m, moves).value; s < |r.sessions| && SameSession(m.sessions[s], r.sessions[s])
  {
    if moves != [] {
      var n := |moves| - 1;
      HandlingKeepsSession(m, moves[..n], s);
      HandlerKeepsSession(Exec(m, moves[..n]).value, moves[n], s);
    }
  }

  /** The manager handles everything it has queued. */
  lemma HandlesAll(m: State, peers: set<Key>, s: nat) returns (m': State)
    requires ClosedInv(m, peers) && s < |m.sessions|
    ensures Gets(Handling, m, m') && Quiet(m') && s < |m'.sessions| && SameSession(m.sessions[s], m'.sessions[s])
  {
    m' := FinishesHandler(Handling, m);
    m' := Drains(Handling, m, m', peers);
    var moves :| Exec(m, moves) == Some(m') && forall i :: 0 <= i < |moves| ==> Handling(moves[i]);
    HandlingKeepsSession(m, moves, s);
  }

  lemma GetsMore(p: Move -> bool, q: Move -> bool, m: State, m': State)
    requires Gets(p, m, m') && (forall mv :: p(mv) ==> q(mv))
    ensures Gets(q, m, m')
  {
    var moves :| Exec(m, moves) == Some(m') && forall i :: 0 <= i < |moves| ==> p(moves[i]);
    assert forall i :: 0 <= i < |moves| ==> q(moves[i]);
  }

  lemma FarewellRestoresRole(m: State, k: Key, s: nat)
    requires m.phase == Idle && m.inbox == [SessionEnded(k, s)] && k in m.table && RoleOk(m.self, k, m.table[k])
    ensures InRole(Handled(m), k)
    ensures m.table[k].Connected? ==> Handled(m).log == m.log + [DisconnectedFromPeer(k)]
  {}

  /** A quiet manager hears of the failure. */
  lemma Hears(m: State, at: State, k: Key, s: nat) returns (m': State)
    requires Gets(Telling(s), m, at) && Quiet(at) && s < |at.sessions|
    requires at.sessions[s].stage == Reporting && at.sessions[s].conn.remote == k
    requires k in at.table && RoleOk(at.self, k, at.table[k])
    ensures Gets(Telling(s), m, m') && InRole(m', k)
    ensures at.table[k].Connected? ==> m'.log == at.log + [DisconnectedFromPeer(k)]
  {
    GetsOn(Telling(s), m, at, SessionReport(s));
    var at1 := Do(at, SessionReport(s));
    assert at1.inbox == [SessionEnded(k, s)];
    FarewellRestoresRole(at1, k, s);
    HandleHead(Telling(s), m, at1);
    m' := Handled(at1);
  }

  /** Nothing the manager has queued or is doing is about `k`. */
  ghost predicate Unconcerned(m: State, k: Key) {
    !Touched(m.phase, k) && forall i :: 0 <= i < |m.inbox| ==> !Concerns(m.inbox[i], k)
  }

  function Reports(k: Key): (f: IrohEvent -> seq<IrohEvent>) {
    (e: IrohEvent) => if e == ConnectedToPeer(k) || e == DisconnectedFromPeer(k) then [e] else []
  }

  lemma HandlingLeavesAlone(m: State, mv: Move, k: Key)
    requires ManagerRuns.Inv(m) && Unconcerned(m, k) && Enabled(m, mv) && Handling(mv) && k in m.table
    ensures var m' := Do(m, mv);
            && Unconcerned(m', k) && k in m'.table && m'.table[k] == m.table[k]
            && Pick(m'.log, Reports(k)) == Pick(m.log, Reports(k))
  {
    match mv
    case TakeEvent =>
      assert !Concerns(m.inbox[0], k);
      TakingLeavesAlone(m.(inbox := m.inbox[1..]), m.inbox[0], k);
    case FinishHandler => FinishLeavesAlone(m, k);
    case SendReport => ReportLeavesAlone(m, k);
  }

  lemma ReportLeavesAlone(m: State, k: Key)
    requires !Touched(m.phase, k)
    ensures var m' := Report(m);
            && !Touched(m'.phase, k) && m'.table == m.table && m'.inbox == m.inbox
            && Pick(m'.log, Reports(k)) == Pick(m.log, Reports(k))
  {
    match m.phase
    case AnnounceUp(conn) => PickSnoc(m.log, ConnectedToPeer(conn.remote), Reports(k));
    case AnnounceDown(j, _) => PickSnoc(m.log, DisconnectedFromPeer(j), Reports(k));
    case _ =>
  }

  lemma TakingLeavesAlone(m: State, ev: ConnectionEvent, k: Key)
    requires m.phase == Idle && !Concerns(ev, k)
    ensures var m' := BeginConnEvent(m, ev);
            !Touched(m'.phase, k) && m'.table == m.table && m'.log == m.log && m'.inbox == m.inbox
  {}

  lemma FinishLeavesAlone(m: State, k: Key)
    requires !Touched(m.phase, k) && k in m.table
    ensures var m' := Finish(m);
            !Touched(m'.phase, k) && k in m'.table && m'.table[k] == m.table[k] && m'.log == m.log && m'.inbox == m.inbox
  {}

  lemma {:induction false} HandlingAllLeavesAlone(m: State, moves: seq<Move>, k: Key)
    requires ManagerRuns.Inv(m) && Unconcerned(m, k) && k in m.table && Exec(m, moves).Some?
    requires forall i :: 0 <= i < |moves| ==> Handling(moves[i])
    ensures var r := Exec(m, moves).value;
            && Unconcerned(r, k) && k in r.table && r.table[k] == m.table[k]
            && Pick(r.log, Reports(k)) == Pick(m.log, Reports(k))
  {
    if moves != [] {
      var n := |moves| - 1;
      HandlingAllLeavesAlone(m, moves[..n], k);
      RunKeepsInv(m, moves[..n]);
      HandlingLeavesAlone(Exec(m, moves[..n]).value, moves[n], k);
    }
  }

  lemma UnconcernedThroughout(m: State, at: State, k: Key)
    requires ManagerRuns.Inv(m) && Unconcerned(m, k) && k in m.table && Gets(Handling, m, at)
    ensures k in at.table && at.table[k] == m.table[k] && Pick(at.log, Reports(k)) == Pick(m.log, Reports(k))
  {
    var moves :| Exec(m, moves) == Some(at) && forall i :: 0 <= i < |moves| ==> Handling(moves[i]);
    HandlingAllLeavesAlone(m, moves, k);
  }

  lemma ComesBack(m: State, peers: set<Key>, k: Key, s: nat) returns (m': State)
    requires ClosedInv(m, peers) && k in m.table && m.table[k].Connected? && m.table[k].session == s
    requires s < |m.sessions| && m.sessions[s].stage == Reporting && m.sessions[s].conn.remote == k
    ensures Gets(Telling(s), m, m') && InRole(m', k)
    ensures Unconcerned(m, k) ==> Pick(m'.log, Reports(k)) == Pick(m.log, Reports(k)) + [DisconnectedFromPeer(k)]
  {
    var at := HandlesAll(m, peers, s);
    GetsClosed(Handling, m, at, peers);
    GetsMore(Handling, Telling(s), m, at);
    m' := Hears(m, at, k, s);
    if Unconcerned(m, k) {
      UnconcernedThroughout(m, at, k);
      PickSnoc(at.log, DisconnectedFromPeer(k), Reports(k));
    }
  }

  /** From any state of a closed run in which the session of a Connected entry fails, its own farewell and the manager's
      steps alone bring the peer back to its role, to be awaited or dialed again; and if nothing else about that peer was
      under way, exactly one disconnect is reported for it, and no connect. */
  lemma FailedPeerComesBack(m: State, peers: set<Key>, k: Key, mv: Move) returns (m': State)
    requires ClosedInv(m, peers) && k in m.table && m.table[k].Connected?
    requires Enabled(m, mv) && Fails(mv, m.table[k].session)
    ensures Gets(Telling(m.table[k].session), Do(m, mv), m') && InRole(m', k)
    ensures Unconcerned(m, k) ==> Pick(m'.log, Reports(k)) == Pick(m.log, Reports(k)) + [DisconnectedFromPeer(k)]
  {
    var s := m.table[k].session;
    assert EntryOk(m, k);
    MoveKeepsClosed(m, mv, peers);
    m' := ComesBack(Do(m, mv), peers, k, s);
  }

  // ---- a session that lost its sender, or was aborted, can always end

  function Winding(s: nat): (p: Move -> bool) {
    (mv: Move) => mv == SessionTransmit(s, true) || mv == SessionOrphan(s)
  }

  /** It hands over what is left in its channel, in order, and returns without a farewell. */
  lemma {:induction false} WindsDown(m: State, at: State, s: nat) returns (m': State)
    requires Gets(Winding(s), m, at) && s < |at.sessions| && at.sessions[s].stage == Relaying && !at.sessions[s].senderOpen
    ensures Gets(Winding(s), m, m') && m'.inbox == at.inbox && s < |m'.sessions|
    ensures m'.sessions[s].stage == Over && m'.sessions[s].outbox == []
    ensures m'.sessions[s].carried == at.sessions[s].carried + at.sessions[s].outbox
    decreases |at.sessions[s].outbox|
  {
    if at.sessions[s].outbox == [] {
      OrphanReturns(at, s);
      GetsOn(Winding(s), m, at, SessionOrphan(s));
      m' := Do(at, SessionOrphan(s));
    } else {
      TransmitHandsOver(at, s);
      GetsOn(Winding(s), m, at, SessionTransmit(s, true));
      m' := WindsDown(m, Do(at, SessionTransmit(s, true)), s);
    }
  }

  lemma OrphanReturns(m: State, s: nat)
    requires s < |m.sessions| && m.sessions[s].stage == Relaying && !m.sessions[s].senderOpen && m.sessions[s].outbox == []
    ensures Enabled(m, SessionOrphan(s))
    ensures var m' := Do(m, SessionOrphan(s));
            && m'.inbox == m.inbox && |m'.sessions| == |m.sessions|
            && m'.sessions[s] == m.sessions[s].(stage := Over)
            && m.sessions[s].carried == m.sessions[s].carried + m.sessions[s].outbox
  {}

  lemma TransmitHandsOver(m: State, s: nat)
    requires s < |m.sessions| && m.sessions[s].stage == Relaying && m.sessions[s].outbox != []
    ensures Enabled(m, SessionTransmit(s, true))
    ensures var m', was := Do(m, SessionTransmit(s, true)), m.sessions[s];
            && m'.inbox == m.inbox && |m'.sessions| == |m.sessions|
            && var now := m'.sessions[s];
               && now.stage == Relaying && now.senderOpen == was.senderOpen && now.outbox == was.outbox[1..]
               && now.carried + now.outbox == was.carried + was.outbox
  {
    var was := m.sessions[s];
    assert was.carried + [was.outbox[0]] + was.outbox[1..] == was.carried + was.outbox;
  }

  /** Over every run: a session that still relays but that no entry names any more can hand over all it was given and
      return, by its own steps; and one that was aborted can return at once. */
  lemma DisplacedSessionsEnd(m: State, self: Key, peers: set<Key>, moves: seq<Move>, s: nat) returns (m': State)
    requires IsStarted(m, self, peers) && Exec(m, moves).Some?
    requires var r := Exec(m, moves).value;
             && s < |r.sessions| && r.sessions[s].stage == Relaying
             && !(r.sessions[s].conn.remote in r.table && r.table[r.sessions[s].conn.remote] == Connected(s, r.sessions[s].conn))
    ensures var r := Exec(m, moves).value;
            && Gets(Winding(s), r, m') && m'.inbox == r.inbox && s < |m'.sessions| && m'.sessions[s].stage == Over
            && m'.sessions[s].carried == r.sessions[s].carried + r.sessions[s].outbox
    ensures var r := Exec(m, moves).value;
            r.sessions[s].aborted ==> Enabled(r, SessionCancel(s)) && Do(r, SessionCancel(s)).sessions[s].stage == Over
  {
    var r := Exec(m, moves).value;
    SessionUniqueness(m, self, peers, moves);
    GetsNowhere(Winding(s), r);
    m' := WindsDown(r, r, s);
  }

  // ---- an aborted dial is silent from then on

  lemma CancelledStays(m: State, mv: Move, t: nat)
    requires Enabled(m, mv) && t < |m.dials| && m.dials[t].stage == Cancelled
    ensures t < |Do(m, mv).dials| && Do(m, mv).dials[t].stage == Cancelled
  {
    if OfManager(mv) { Connections.HandlerMoves(m, mv); }
  }

  lemma {:induction false} CancelledForGood(m: State, moves: seq<Move>, t: nat)
    requires Exec(m, moves).Some? && t < |m.dials| && m.dials[t].stage == Cancelled
    ensures var r := Exec(m, moves).value; t < |r.dials| && r.dials[t].stage == Cancelled
  {
    if moves != [] {
      var n := |moves| - 1;
      CancelledForGood(m, moves[..n], t);
      CancelledStays(Exec(m, moves[..n]).value, moves[n], t);
    }
  }

  /** An aborted dial that has not handed its connection over can end at once, and then nothing ever comes of it, whatever
      happens afterwards. */
  lemma AbortedDialsEnd(m: State, t: nat, moves: seq<Move>)
    requires ManagerRuns.Inv(m) && t < |m.dials| && m.dials[t].aborted && !m.dials[t].stage.Sent?
    ensures Enabled(m, DialCancel(t))
    ensures Exec(Do(m, DialCancel(t)), moves).Some? ==>
              var r := Exec(Do(m, DialCancel(t)), moves).value;
              forall i :: 0 <= i < |r.inbox| && r.inbox[i].OutgoingConnection? ==> r.inbox[i].dial != t
  {
    var m1 := Do(m, DialCancel(t));
    if Exec(m1, moves).Some? {
      MoveKeepsInv(m, DialCancel(t));
      RunKeepsInv(m1, moves);
      CancelledForGood(m1, moves, t);
      var r := Exec(m1, moves).value;
      forall i | 0 <= i < |r.inbox| && r.inbox[i].OutgoingConnection? ensures r.inbox[i].dial != t {
        assert EventOk(r.dials, r.sessions, r.inbox[i]);
      }
    }
  }
}
