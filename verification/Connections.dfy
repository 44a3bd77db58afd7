/** Where every connection is, over every run of the manager and under any actions. */
module Connections {
  import opened Wire
  import opened Manager
  import opened ManagerRuns

  /** The places a connection can be in at a node. */
  datatype Place = WithDial(t: nat) | WithAccept | Queued(i: nat) | Installing | InSession(s: nat)

  predicate CarriesConn(ev: ConnectionEvent) {
    ev.OutgoingConnection? || ev.IncomingConnection?
  }

  predicate IsAt(m: State, conn: Conn, p: Place) {
    match p
    case WithDial(t) => t < |m.dials| && (m.dials[t].stage == Handshaking(conn) || m.dials[t].stage == Sending(conn))
    case WithAccept => conn in m.accepts
    case Queued(i) => i < |m.inbox| && CarriesConn(m.inbox[i]) && m.inbox[i].conn == conn
    case Installing => (m.phase.AnnounceUp? || m.phase.Install?) && m.phase.conn == conn
    case InSession(s) => s < |m.sessions| && m.sessions[s].conn == conn
  }

  /** A task that has not yet handed the connection over. */
  predicate Before(p: Place) {
    p.WithDial? || p.WithAccept?
  }

  predicate Located(m: State, conn: Conn, p: Place) {
    IsAt(m, conn, p) ==> conn in m.begun && (conn in m.handed <==> !Before(p))
  }

  ghost predicate Somewhere(m: State, conn: Conn) {
    exists p :: IsAt(m, conn, p)
  }

  /** No connection is in two places; those handed over are somewhere or have been closed. */
  ghost predicate Accounted(m: State) {
    && m.handed <= m.begun
    && (forall conn, p :: Located(m, conn, p))
    && (forall conn, p, q :: IsAt(m, conn, p) && IsAt(m, conn, q) ==> p == q)
    && (forall conn :: conn in m.handed ==> conn.id in m.closed || Somewhere(m, conn))
  }

  lemma StartedAccounted(m: State, self: Key, peers: set<Key>)
    requires IsStarted(m, self, peers)
    ensures Accounted(m)
  {}

  // ---- a move changes the place of at most one connection

  predicate Begins(mv: Move, conn: Conn) {
    (mv.DialAttempt? || mv.AcceptUp?) && mv.conn == conn
  }

  /** Where a connection found at `p` after the move was before it. */
  function Back(m: State, mv: Move, p: Place): (q: Place) {
    match mv
    case DialSend(t) => if p == Queued(|m.inbox|) then WithDial(t) else p
    case AcceptSend(_) => if p == Queued(|m.inbox|) then WithAccept else p
    case TakeEvent => if p.Queued? then Queued(p.i + 1) else if p == Installing then Queued(0) else p
    case FinishHandler => if p == InSession(|m.sessions|) then Installing else p
    case _ => p
  }

  /** The sessions keep their connections, and the dial tasks theirs. */
  ghost predicate SameHolders(m: State, m': State) {
    && |m'.sessions| >= |m.sessions| && (forall s :: 0 <= s < |m.sessions| ==> m'.sessions[s].conn == m.sessions[s].conn)
    && |m'.dials| >= |m.dials| && (forall t :: 0 <= t < |m.dials| ==> m'.dials[t].stage == m.dials[t].stage)
    && (forall t :: |m.dials| <= t < |m'.dials| ==> m'.dials[t].stage == Resting)
    && m'.accepts == m.accepts && m'.begun == m.begun && m'.handed == m.handed && m.closed <= m'.closed
  }

  lemma EventMoves(m: State, ev: ConnectionEvent)
    requires m.phase == Idle
    ensures var m' := BeginConnEvent(m, ev);
            && SameHolders(m, m') && |m'.sessions| == |m.sessions| && m'.inbox == m.inbox && !m'.phase.Install?
            && (m'.phase.AnnounceUp? ==> CarriesConn(ev) && ev.conn == m'.phase.conn)
            && (CarriesConn(ev) && !m'.phase.AnnounceUp? ==> ev.conn.id in m'.closed)
  {}

  lemma ActionMoves(m: State, a: CoreAction)
    requires m.phase == Idle
    ensures var m' := BeginCoreAction(m, a);
            && SameHolders(m, m') && |m'.sessions| == |m.sessions| && m'.inbox == m.inbox
            && !m'.phase.AnnounceUp? && !m'.phase.Install?
  {}

  lemma FinishMoves(m: State)
    requires m.phase.Install? || m.phase.Retire?
    ensures var m' := Finish(m);
            && SameHolders(m, m') && m'.inbox == m.inbox && m'.phase == Idle
            && |m'.sessions| == |m.sessions| + (if m.phase.Install? then 1 else 0)
            && (m.phase.Install? ==> m'.sessions[|m.sessions|].conn == m.phase.conn)
  {}

  lemma HandlerMoves(m: State, mv: Move)
    requires Enabled(m, mv) && OfManager(mv)
    ensures SameHolders(m, Do(m, mv))
  {
    match mv
    case TakeEvent => EventMoves(m.(inbox := m.inbox[1..]), m.inbox[0]);
    case TakeAction(a) => ActionMoves(m, a);
    case FinishHandler => FinishMoves(m);
    case SendReport =>
  }

  lemma HandlerPlaceBack(m: State, mv: Move, conn: Conn, p: Place)
    requires Enabled(m, mv) && OfManager(mv) && IsAt(Do(m, mv), conn, p)
    ensures IsAt(m, conn, Back(m, mv, p))
  {
    match mv
    case TakeEvent => EventMoves(m.(inbox := m.inbox[1..]), m.inbox[0]);
    case TakeAction(a) => ActionMoves(m, a);
    case FinishHandler => FinishMoves(m);
    case SendReport =>
  }

  lemma TaskPlaceBack(m: State, mv: Move, conn: Conn, p: Place)
    requires Enabled(m, mv) && !OfManager(mv) && IsAt(Do(m, mv), conn, p) && !Begins(mv, conn)
    ensures IsAt(m, conn, Back(m, mv, p))
  {}

  lemma PlaceBack(m: State, mv: Move, conn: Conn, p: Place)
    requires Enabled(m, mv) && IsAt(Do(m, mv), conn, p) && !Begins(mv, conn)
    ensures IsAt(m, conn, Back(m, mv, p))
  {
    if OfManager(mv) { HandlerPlaceBack(m, mv, conn, p); } else { TaskPlaceBack(m, mv, conn, p); }
  }

  /** A connection that begins is only where it begins. */
  lemma BegunAtOnePlace(m: State, mv: Move, p: Place)
    requires Accounted(m) && Enabled(m, mv) && (mv.DialAttempt? || mv.AcceptUp?) && IsAt(Do(m, mv), mv.conn, p)
    ensures p == if mv.DialAttempt? then WithDial(mv.t) else WithAccept
  {
    assert Located(m, mv.conn, p);
  }

  lemma HandlerBackApart(m: State, mv: Move, conn: Conn, p: Place, q: Place)
    requires Enabled(m, mv) && OfManager(mv) && IsAt(Do(m, mv), conn, p) && IsAt(Do(m, mv), conn, q)
    requires Back(m, mv, p) == Back(m, mv, q)
    ensures p == q
  {}

  lemma TaskBackApart(m: State, mv: Move, conn: Conn, p: Place, q: Place)
    requires Enabled(m, mv) && !OfManager(mv) && IsAt(Do(m, mv), conn, p) && IsAt(Do(m, mv), conn, q)
    requires Back(m, mv, p) == Back(m, mv, q)
    ensures p == q
  {}

  lemma StillOnePlace(m: State, mv: Move, conn: Conn, p: Place, q: Place)
    requires Accounted(m) && Enabled(m, mv) && IsAt(Do(m, mv), conn, p) && IsAt(Do(m, mv), conn, q)
    ensures p == q
  {
    if Begins(mv, conn) {
      BegunAtOnePlace(m, mv, p);
      BegunAtOnePlace(m, mv, q);
    } else {
      PlaceBack(m, mv, conn, p);
      PlaceBack(m, mv, conn, q);
      if OfManager(mv) { HandlerBackApart(m, mv, conn, p, q); } else { TaskBackApart(m, mv, conn, p, q); }
    }
  }

  function Hands(m: State, mv: Move): (r: set<Conn>)
    requires Enabled(m, mv)
  {
    match mv
    case DialSend(t) => {m.dials[t].stage.conn}
    case AcceptSend(conn) => {conn}
    case _ => {}
  }

  lemma SetsGrow(m: State, mv: Move)
    requires Enabled(m, mv)
    ensures var m' := Do(m, mv);
            && m'.handed == m.handed + Hands(m, mv) && m.closed <= m'.closed
            && m'.begun == m.begun + if mv.DialAttempt? || mv.AcceptUp? then {mv.conn} else {}
  {
    if OfManager(mv) { HandlerMoves(m, mv); }
  }

  /** What is handed over was with its task before, and is queued after. */
  lemma HandedOver(m: State, mv: Move, conn: Conn)
    requires Enabled(m, mv) && conn in Hands(m, mv)
    ensures IsAt(Do(m, mv), conn, Queued(|m.inbox|))
    ensures IsAt(m, conn, Back(m, mv, Queued(|m.inbox|))) && Before(Back(m, mv, Queued(|m.inbox|)))
  {}

  lemma StillLocated(m: State, mv: Move, conn: Conn, p: Place)
    requires Accounted(m) && Enabled(m, mv)
    ensures Located(Do(m, mv), conn, p)
  {
    SetsGrow(m, mv);
    if IsAt(Do(m, mv), conn, p) {
      if Begins(mv, conn) {
        BegunAtOnePlace(m, mv, p);
      } else {
        PlaceBack(m, mv, conn, p);
        assert Located(m, conn, Back(m, mv, p));
        if conn in Hands(m, mv) {
          HandedOver(m, mv, conn);
          StillOnePlace(m, mv, conn, p, Queued(|m.inbox|));
        }
      }
    }
  }

  /** Where a connection handed over earlier is after the move, unless the handler turns it away. */
  function Onward(m: State, mv: Move, p: Place): (q: Place) {
    match mv
    case TakeEvent => if p.Queued? then (if p.i == 0 then Installing else Queued(p.i - 1)) else p
    case FinishHandler => if p == Installing then InSession(|m.sessions|) else p
    case _ => p
  }

  lemma HandlerKeepsPlace(m: State, mv: Move, conn: Conn, p: Place)
    requires Enabled(m, mv) && OfManager(mv) && IsAt(m, conn, p) && !Before(p)
    ensures IsAt(Do(m, mv), conn, Onward(m, mv, p)) || conn.id in Do(m, mv).closed
  {
    match mv
    case TakeEvent => EventMoves(m.(inbox := m.inbox[1..]), m.inbox[0]);
    case TakeAction(a) => ActionMoves(m, a);
    case FinishHandler => FinishMoves(m);
    case SendReport =>
  }

  lemma TaskKeepsPlace(m: State, mv: Move, conn: Conn, p: Place)
    requires Enabled(m, mv) && !OfManager(mv) && IsAt(m, conn, p) && !Before(p)
    ensures IsAt(Do(m, mv), conn, p)
  {}

  lemma StillSomewhere(m: State, mv: Move, conn: Conn)
    requires Accounted(m) && Enabled(m, mv) && conn in Do(m, mv).handed
    ensures conn.id in Do(m, mv).closed || Somewhere(Do(m, mv), conn)
  {
    SetsGrow(m, mv);
    if conn in Hands(m, mv) {
      HandedOver(m, mv, conn);
    } else if conn.id !in m.closed {
      var p :| IsAt(m, conn, p);
      assert Located(m, conn, p);
      if OfManager(mv) { HandlerKeepsPlace(m, mv, conn, p); } else { TaskKeepsPlace(m, mv, conn, p); }
    }
  }

  lemma MoveKeepsAccounted(m: State, mv: Move)
    requires Accounted(m) && Enabled(m, mv)
    ensures Accounted(Do(m, mv))
  {
    SetsGrow(m, mv);
    forall conn | conn in Hands(m, mv) ensures conn in m.begun {
      HandedOver(m, mv, conn);
      assert Located(m, conn, Back(m, mv, Queued(|m.inbox|)));
    }
    forall conn, p ensures Located(Do(m, mv), conn, p) {
      StillLocated(m, mv, conn, p);
    }
    forall conn, p, q | IsAt(Do(m, mv), conn, p) && IsAt(Do(m, mv), conn, q) ensures p == q {
      StillOnePlace(m, mv, conn, p, q);
    }
    forall conn | conn in Do(m, mv).handed ensures conn.id in Do(m, mv).closed || Somewhere(Do(m, mv), conn) {
      StillSomewhere(m, mv, conn);
    }
  }

  lemma {:induction false} RunKeepsAccounted(m: State, self: Key, peers: set<Key>, moves: seq<Move>)
    requires IsStarted(m, self, peers) && Exec(m, moves).Some?
    ensures Accounted(Exec(m, moves).value)
  {
    if moves == [] {
      StartedAccounted(m, self, peers);
    } else {
      var n := |moves| - 1;
      RunKeepsAccounted(m, self, peers, moves[..n]);
      MoveKeepsAccounted(Exec(m, moves[..n]).value, moves[n]);
    }
  }

  /** In exactly one place, and that is `p`. */
  ghost predicate OnlyAt(m: State, conn: Conn, p: Place) {
    IsAt(m, conn, p) && forall q :: IsAt(m, conn, q) ==> q == p
  }

  /** No connection is lost or shared, over every run and under any actions: each one a task has handed to the manager
      is in exactly one place, its queue, the handler that installs it or one session, or has been closed; and one that
      no task has handed over is with at most one task and nowhere else. */
  lemma NoConnectionLost(m: State, self: Key, peers: set<Key>, moves: seq<Move>, conn: Conn)
    requires IsStarted(m, self, peers) && Exec(m, moves).Some?
    ensures var r := Exec(m, moves).value;
            && (conn in r.handed ==>
                  conn.id in r.closed || exists p :: OnlyAt(r, conn, p) && (p.Queued? || p.Installing? || p.InSession?))
            && (conn !in r.handed ==> forall p :: IsAt(r, conn, p) ==> OnlyAt(r, conn, p) && Before(p))
  {
    RunKeepsAccounted(m, self, peers, moves);
    var r := Exec(m, moves).value;
    forall p | IsAt(r, conn, p) ensures OnlyAt(r, conn, p) && (conn in r.handed <==> !Before(p)) {
      assert Located(r, conn, p);
    }
    if conn in r.handed && conn.id !in r.closed {
      var p :| IsAt(r, conn, p);
      assert OnlyAt(r, conn, p);
    }
  }
}
