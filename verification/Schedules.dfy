/** Schedules built move by move, to show that a state can be reached. */
module Schedules {
  import opened Wire
  import opened Manager
  import opened ManagerRuns
  import opened ClosedRuns

  /** Some schedule of moves that all satisfy `p` leads from `m` to `m'`. */
  ghost predicate Gets(p: Move -> bool, m: State, m': State) {
    exists moves :: Exec(m, moves) == Some(m') && forall i :: 0 <= i < |moves| ==> p(moves[i])
  }

  lemma GetsNowhere(p: Move -> bool, m: State)
    ensures Gets(p, m, m)
  {
    assert Exec(m, []) == Some(m);
  }

  lemma GetsOn(p: Move -> bool, m: State, at: State, mv: Move)
    requires Gets(p, m, at) && Enabled(at, mv) && p(mv)
    ensures Gets(p, m, Do(at, mv))
  {
    var moves :| Exec(m, moves) == Some(at) && forall i :: 0 <= i < |moves| ==> p(moves[i]);
    ExecSnoc(m, moves, at, mv);
    assert Exec(m, moves + [mv]) == Some(Do(at, mv));
  }

  lemma {:induction false} GetsKeepsClosed(p: Move -> bool, m: State, moves: seq<Move>, peers: set<Key>)
    requires ClosedInv(m, peers) && Exec(m, moves).Some?
    requires forall i :: 0 <= i < |moves| ==> p(moves[i]) && Closed(moves[i])
    ensures ClosedInv(Exec(m, moves).value, peers) && Exec(m, moves).value.self == m.self
  {
    if moves != [] {
      var n := |moves| - 1;
      GetsKeepsClosed(p, m, moves[..n], peers);
      MoveKeepsClosed(Exec(m, moves[..n]).value, moves[n], peers);
    }
  }

  /** An accepted connection completes its handshake and is queued. */
  function Arrived(m: State, conn: Conn): (r: State) {
    m.(inbox := m.inbox + [IncomingConnection(conn)], begun := m.begun + {conn}, handed := m.handed + {conn})
  }

  /** The manager takes its next message and runs the handler to its end. */
  function Handled(m: State): (r: State)
    requires m.inbox != []
  {
    Settle(BeginConnEvent(m.(inbox := m.inbox[1..]), m.inbox[0]))
  }

  lemma QueueArrival(m: State, at: State, conn: Conn)
    requires Gets(Closed, m, at) && conn.side == Listener && conn !in at.begun && conn !in at.accepts
    requires |at.inbox| < CHANNEL_CAPACITY
    ensures Gets(Closed, m, Arrived(at, conn))
  {
    GetsOn(Closed, m, at, AcceptUp(conn));
    GetsOn(Closed, m, Do(at, AcceptUp(conn)), AcceptSend(conn));
    assert at.accepts + {conn} - {conn} == at.accepts;
  }

  lemma BeginsOrIgnores(m: State, ev: ConnectionEvent)
    requires m.phase == Idle && !ev.InternalError?
    ensures var m' := BeginConnEvent(m, ev); m'.phase == Idle || m'.phase.AnnounceUp? || m'.phase.AnnounceDown?
  {}

  lemma SettlesToIdle(m: State)
    requires m.phase == Idle || m.phase.AnnounceUp? || m.phase.AnnounceDown?
    ensures Settle(m).phase == Idle && (m.phase == Idle ==> Settle(m) == m)
    ensures m.phase != Idle ==> Report(m).phase.Install? || Report(m).phase.Retire?
  {}

  lemma HandleHead(p: Move -> bool, m: State, at: State)
    requires Gets(p, m, at) && at.phase == Idle && at.inbox != [] && !at.inbox[0].InternalError?
    requires p(TakeEvent) && p(SendReport) && p(FinishHandler)
    ensures Gets(p, m, Handled(at)) && Handled(at).phase == Idle
  {
    var at1 := Do(at, TakeEvent);
    GetsOn(p, m, at, TakeEvent);
    BeginsOrIgnores(at.(inbox := at.inbox[1..]), at.inbox[0]);
    SettlesToIdle(at1);
    if at1.phase != Idle {
      GetsOn(p, m, at1, SendReport);
      GetsOn(p, m, Report(at1), FinishHandler);
    }
  }

  predicate Handling(mv: Move) {
    mv.TakeEvent? || mv.SendReport? || mv.FinishHandler?
  }

  lemma GetsClosed(p: Move -> bool, m: State, at: State, peers: set<Key>)
    requires ClosedInv(m, peers) && Gets(p, m, at) && (forall mv :: p(mv) ==> Closed(mv))
    ensures ClosedInv(at, peers) && at.self == m.self
  {
    var moves :| Exec(m, moves) == Some(at) && forall i :: 0 <= i < |moves| ==> p(moves[i]);
    GetsKeepsClosed(p, m, moves, peers);
  }

  // ---- a node handles everything it has queued

  predicate Quiet(m: State) {
    m.phase == Idle && m.inbox == []
  }

  lemma BeginningKeepsInbox(m: State, ev: ConnectionEvent)
    ensures BeginConnEvent(m, ev).inbox == m.inbox
  {}

  lemma SettlingKeepsInbox(m: State)
    ensures Settle(m).inbox == m.inbox
  {}

  lemma HandlingDequeues(m: State)
    requires m.inbox != []
    ensures Handled(m).inbox == m.inbox[1..]
  {
    BeginningKeepsInbox(m.(inbox := m.inbox[1..]), m.inbox[0]);
    SettlingKeepsInbox(BeginConnEvent(m.(inbox := m.inbox[1..]), m.inbox[0]));
  }

  lemma {:induction false} Drains(p: Move -> bool, m: State, at: State, peers: set<Key>) returns (m': State)
    requires ClosedInv(m, peers) && Gets(p, m, at) && at.phase == Idle
    requires p(TakeEvent) && p(SendReport) && p(FinishHandler) && (forall mv :: p(mv) ==> Closed(mv))
    ensures Gets(p, m, m') && Quiet(m')
    decreases |at.inbox|
  {
    if at.inbox == [] {
      m' := at;
    } else {
      GetsClosed(p, m, at, peers);
      HandleHead(p, m, at);
      HandlingDequeues(at);
      m' := Drains(p, m, Handled(at), peers);
    }
  }

  lemma FinishesToIdle(m: State)
    requires m.phase.Install? || m.phase.Retire?
    ensures Finish(m).phase == Idle
  {}

  lemma FinishesHandler(p: Move -> bool, m: State) returns (m': State)
    requires m.phase != Stopped && p(SendReport) && p(FinishHandler)
    ensures Gets(p, m, m') && m'.phase == Idle
  {
    GetsNowhere(p, m);
    if m.phase.AnnounceUp? || m.phase.AnnounceDown? {
      SettlesToIdle(m);
      GetsOn(p, m, m, SendReport);
      GetsOn(p, m, Report(m), FinishHandler);
      m' := Settle(m);
    } else if m.phase != Idle {
      FinishesToIdle(m);
      GetsOn(p, m, m, FinishHandler);
      m' := Finish(m);
    } else {
      m' := m;
    }
  }
}
