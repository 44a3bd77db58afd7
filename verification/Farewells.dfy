/** Which session a farewell ends (src/iroh.rs:244-253). The message carries only the peer's key, so the manager ends
    whatever session the entry names by then. */
module Farewells {
  import opened Wire
  import opened Manager
  import opened ManagerRuns
  import opened ClosedRuns
  import opened Schedules

  /** The table no longer names the session, or a handler is about to rewrite the entry that does. */
  predicate Displaced(m: State, s: nat)
    requires s < |m.sessions|
  {
    !m.sessions[s].senderOpen || Touched(m.phase, m.sessions[s].conn.remote)
  }

  /** The session task has not returned, or its farewell is queued: the manager may still hear of it. */
  predicate Unheard(m: State, s: nat)
    requires s < |m.sessions|
  {
    m.sessions[s].stage != Over || SessionEnded(m.sessions[s].conn.remote, s) in m.inbox
  }

  predicate Haunts(m: State, s: nat, k: Key) {
    s < |m.sessions| && m.sessions[s].conn.remote == k && Displaced(m, s) && Unheard(m, s)
  }

  /** No displaced session of `k` can still be heard of. */
  ghost predicate Calm(m: State, k: Key) {
    forall s :: 0 <= s < |m.sessions| ==> !Haunts(m, s, k)
  }

  /** No two queued farewells come from the same session. */
  ghost predicate OncePerSession(inbox: seq<ConnectionEvent>) {
    forall i, j :: 0 <= i < j < |inbox| && inbox[i].SessionEnded? && inbox[j].SessionEnded? ==>
                     inbox[i].session != inbox[j].session
  }

  /** The move takes the entry of `k` away from a session that may still be heard of: a new connection meets it
      Connected, or the coordinator asks for a disconnect. */
  predicate Displaces(m: State, mv: Move, k: Key) {
    && k in m.table && m.table[k].Connected?
    && match mv
       case TakeEvent =>
         && m.inbox != [] && (m.inbox[0].OutgoingConnection? || m.inbox[0].IncomingConnection?)
         && m.inbox[0].conn.remote == k
       case TakeAction(a) => a == DisconnectFromPeer(k)
       case _ => false
  }

  // ---- farewells are sent once

  lemma MoveKeepsOnce(m: State, mv: Move)
    requires Inv(m) && OncePerSession(m.inbox) && Enabled(m, mv)
    ensures OncePerSession(Do(m, mv).inbox)
  {
    var m' := Do(m, mv);
    if mv.SessionReport? {
      forall i | 0 <= i < |m.inbox| && m.inbox[i].SessionEnded? ensures m.inbox[i].session != mv.s {
        assert EventOk(m.dials, m.sessions, m.inbox[i]);
      }
    } else if OfManager(mv) {
      HandlersOnlyDequeue(m, mv);
    }
  }

  lemma HandlersOnlyDequeue(m: State, mv: Move)
    requires Enabled(m, mv) && OfManager(mv)
    ensures Do(m, mv).inbox == if mv.TakeEvent? then m.inbox[1..] else m.inbox
  {}

  // ---- calm ends exactly when an entry is taken from an unheard session

  lemma TaskKeepsCalm(m: State, mv: Move, k: Key)
    requires Calm(m, k) && Enabled(m, mv) && !OfManager(mv)
    ensures Calm(Do(m, mv), k)
  {
    var m' := Do(m, mv);
    forall s | 0 <= s < |m'.sessions| ensures !Haunts(m', s, k) {
      assert !Haunts(m, s, k);
    }
  }

  /** A calm peer's unheard session is the one its entry names. */
  lemma UnheardIsNamed(m: State, s: nat, k: Key)
    requires Inv(m) && Calm(m, k) && s < |m.sessions| && m.sessions[s].conn.remote == k && Unheard(m, s)
    ensures k in m.table && m.table[k] == Connected(s, m.sessions[s].conn) && !Touched(m.phase, k)
  {
    assert !Haunts(m, s, k) && SessionOk(m.table, s, m.sessions[s]);
  }

  lemma FarewellKeepsCalm(m: State, k: Key)
    requires Inv(m) && OncePerSession(m.inbox) && Calm(m, k) && Enabled(m, TakeEvent) && m.inbox[0].SessionEnded?
    ensures Calm(Do(m, TakeEvent), k)
  {
    var m', ev := Do(m, TakeEvent), m.inbox[0];
    assert m.inbox == [ev] + m'.inbox && m'.sessions == m.sessions;
    assert EventOk(m.dials, m.sessions, ev);
    forall s | 0 <= s < |m'.sessions| ensures !Haunts(m', s, k) {
      assert !Haunts(m, s, k);
      if ev.key == k && m.sessions[s].conn.remote == k && Unheard(m, s) {
        UnheardIsNamed(m, s, k);
        UnheardIsNamed(m, ev.session, k);
      }
    }
  }

  lemma ConnectionKeepsCalm(m: State, k: Key)
    requires Inv(m) && Calm(m, k) && Enabled(m, TakeEvent) && !m.inbox[0].SessionEnded? && !Displaces(m, TakeEvent, k)
    ensures Calm(Do(m, TakeEvent), k)
  {
    var m', ev := Do(m, TakeEvent), m.inbox[0];
    assert m.inbox == [ev] + m'.inbox && |m'.sessions| == |m.sessions|;
    assert Subject(ev) in m.table ==> EntryOk(m, Subject(ev));
    forall s | 0 <= s < |m'.sessions| ensures !Haunts(m', s, k) {
      assert !Haunts(m, s, k);
      if m.sessions[s].conn.remote == k && Unheard(m, s) {
        UnheardIsNamed(m, s, k);
      }
    }
  }

  lemma ActionKeepsCalm(m: State, a: CoreAction, k: Key)
    requires Inv(m) && Calm(m, k) && m.phase == Idle && !Displaces(m, TakeAction(a), k)
    ensures Calm(BeginCoreAction(m, a), k)
  {
    var m' := BeginCoreAction(m, a);
    assert a.DisconnectFromPeer? && a.key in m.table ==> EntryOk(m, a.key);
    forall s | 0 <= s < |m'.sessions| ensures !Haunts(m', s, k) {
      assert !Haunts(m, s, k);
    }
  }

  lemma FinishKeepsCalm(m: State, k: Key)
    requires Inv(m) && Calm(m, k)
    ensures Calm(Finish(m), k)
  {
    var m' := Finish(m);
    forall j | j in m.table ensures Rooted(m, j) {
      assert EntryOk(m, j);
    }
    forall s | 0 <= s < |m'.sessions| ensures !Haunts(m', s, k) {
      assert s < |m.sessions| ==> !Haunts(m, s, k);
    }
  }

  /** Displacing leaves the displaced session unheard. */
  lemma DisplacedHaunts(m: State, mv: Move, k: Key)
    requires Inv(m) && Enabled(m, mv) && Displaces(m, mv, k)
    ensures Haunts(Do(m, mv), m.table[k].session, k)
  {
    assert EntryOk(m, k);
    if mv.TakeEvent? { assert m.inbox == [m.inbox[0]] + m.inbox[1..]; }
  }

  /** The exact guard: a calm peer stays calm except when a move displaces its session. */
  lemma CalmExact(m: State, mv: Move, k: Key)
    requires Inv(m) && OncePerSession(m.inbox) && Calm(m, k) && Enabled(m, mv)
    ensures Calm(Do(m, mv), k) <==> !Displaces(m, mv, k)
  {
    if Displaces(m, mv, k) {
      DisplacedHaunts(m, mv, k);
    } else {
      match mv
      case TakeEvent => if m.inbox[0].SessionEnded? { FarewellKeepsCalm(m, k); } else { ConnectionKeepsCalm(m, k); }
      case TakeAction(a) => ActionKeepsCalm(m, a, k);
      case SendReport =>
        forall s | 0 <= s < |m.sessions| ensures !Haunts(Report(m), s, k) {
          assert !Haunts(m, s, k);
        }
      case FinishHandler => FinishKeepsCalm(m, k);
      case _ => TaskKeepsCalm(m, mv, k);
    }
  }

  // ---- whole runs

  /** Along the schedule no move displaces a session of `k`. */
  ghost predicate Undisturbed(m: State, moves: seq<Move>, k: Key)
    decreases |moves|
  {
    moves != [] ==>
      var n := |moves| - 1;
      && Undisturbed(m, moves[..n], k)
      && Exec(m, moves[..n]).Some? && !Displaces(Exec(m, moves[..n]).value, moves[n], k)
  }

  lemma {:induction false} RunKeepsOnce(m: State, moves: seq<Move>)
    requires Inv(m) && OncePerSession(m.inbox) && Exec(m, moves).Some?
    ensures OncePerSession(Exec(m, moves).value.inbox)
  {
    if moves != [] {
      var n := |moves| - 1;
      RunKeepsOnce(m, moves[..n]);
      RunKeepsInv(m, moves[..n]);
      MoveKeepsOnce(Exec(m, moves[..n]).value, moves[n]);
    }
  }

  lemma {:induction false} RunKeepsCalm(m: State, moves: seq<Move>, k: Key)
    requires Inv(m) && OncePerSession(m.inbox) && Calm(m, k) && Exec(m, moves).Some? && Undisturbed(m, moves, k)
    ensures Calm(Exec(m, moves).value, k)
  {
    if moves != [] {
      var n := |moves| - 1;
      RunKeepsCalm(m, moves[..n], k);
      RunKeepsInv(m, moves[..n]);
      RunKeepsOnce(m, moves[..n]);
      CalmExact(Exec(m, moves[..n]).value, moves[n], k);
    }
  }

  /** Every queued farewell of `k` comes from the very session its entry names, which has returned; so there is at most
      one. */
  ghost predicate OwnFarewells(m: State, k: Key) {
    && (forall i :: 0 <= i < |m.inbox| && m.inbox[i].SessionEnded? && m.inbox[i].key == k ==>
          var s := m.inbox[i].session;
          && s < |m.sessions| && m.sessions[s].stage == Over && !Touched(m.phase, k)
          && k in m.table && m.table[k] == Connected(s, m.sessions[s].conn))
    && (forall i, j :: 0 <= i < j < |m.inbox| && m.inbox[i].SessionEnded? && m.inbox[j].SessionEnded? ==>
          !(m.inbox[i].key == k && m.inbox[j].key == k))
  }

  lemma CalmMeansOwn(m: State, k: Key)
    requires Inv(m) && OncePerSession(m.inbox) && Calm(m, k)
    ensures OwnFarewells(m, k)
  {
    forall i | 0 <= i < |m.inbox| && m.inbox[i].SessionEnded? && m.inbox[i].key == k
      ensures var s := m.inbox[i].session;
              && s < |m.sessions| && m.sessions[s].stage == Over && !Touched(m.phase, k)
              && k in m.table && m.table[k] == Connected(s, m.sessions[s].conn)
    {
      assert EventOk(m.dials, m.sessions, m.inbox[i]);
      UnheardIsNamed(m, m.inbox[i].session, k);
    }
  }

  /** While nothing displaces it, no session of `k` is ever aborted. */
  ghost predicate NoneAborted(m: State, k: Key) {
    forall s :: 0 <= s < |m.sessions| && m.sessions[s].conn.remote == k ==> !m.sessions[s].aborted
  }

  lemma TakeKeepsUnaborted(m: State, mv: Move, k: Key)
    requires Inv(m) && NoneAborted(m, k) && Enabled(m, mv) && !Displaces(m, mv, k) && (mv.TakeEvent? || mv.TakeAction?)
    ensures NoneAborted(Do(m, mv), k)
  {
    var j := match mv
      case TakeEvent => Subject(m.inbox[0])
      case TakeAction(DisconnectFromPeer(key)) => key
      case _ => k;
    assert j in m.table ==> EntryOk(m, j);
  }

  lemma {:induction false} RunKeepsUnaborted(m: State, moves: seq<Move>, k: Key)
    requires Inv(m) && NoneAborted(m, k) && Exec(m, moves).Some? && Undisturbed(m, moves, k)
    ensures NoneAborted(Exec(m, moves).value, k)
  {
    if moves != [] {
      var n := |moves| - 1;
      RunKeepsUnaborted(m, moves[..n], k);
      RunKeepsInv(m, moves[..n]);
      var before := Exec(m, moves[..n]).value;
      if moves[n].TakeEvent? || moves[n].TakeAction? {
        TakeKeepsUnaborted(before, moves[n], k);
      } else {
        OthersAbortNothing(before, moves[n], k);
      }
    }
  }

  lemma OthersAbortNothing(m: State, mv: Move, k: Key)
    requires NoneAborted(m, k) && Enabled(m, mv) && !mv.TakeEvent? && !mv.TakeAction?
    ensures NoneAborted(Do(m, mv), k)
  {}

  /** Over every run and under any actions: as long as no connection has met a Connected entry of `k` and no disconnect
      from it was asked for, a farewell of `k` always ends its own session, which has returned; and no session of `k` is aborted. */
  lemma FarewellsEndTheirOwn(m: State, self: Key, peers: set<Key>, moves: seq<Move>, k: Key)
    requires IsStarted(m, self, peers) && Exec(m, moves).Some? && Undisturbed(m, moves, k)
    ensures OwnFarewells(Exec(m, moves).value, k) && NoneAborted(Exec(m, moves).value, k)
  {
    StartedInv(m, self, peers);
    RunKeepsInv(m, moves);
    RunKeepsUnaborted(m, moves, k);
    RunKeepsOnce(m, moves);
    RunKeepsCalm(m, moves, k);
    CalmMeansOwn(Exec(m, moves).value, k);
  }

  // ---- ... and that is exact

  /** A farewell of `k` is queued that will end a running session other than the one that sent it. */
  ghost predicate Misdirected(m: State, k: Key) {
    && k in m.table && m.table[k].Connected? && !Touched(m.phase, k)
    && m.table[k].session < |m.sessions|
    && m.sessions[m.table[k].session].stage == Relaying && !m.sessions[m.table[k].session].aborted
    && exists x: nat :: x != m.table[k].session && SessionEnded(k, x) in m.inbox
  }

  predicate Harmless(mv: Move) {
    !mv.TakeEvent? && !mv.TakeAction?
  }

  /** A closed schedule from `m` to `at` along which no session of `k` is displaced. */
  ghost predicate Leads(m: State, moves: seq<Move>, at: State, k: Key) {
    && Exec(m, moves) == Some(at) && Undisturbed(m, moves, k) && (forall i :: 0 <= i < |moves| ==> Closed(moves[i]))
  }

  /** From `m`, with no session of `k` displaced any more, some closed schedule queues a misdirected farewell. */
  ghost predicate Exposed(m: State, k: Key) {
    exists more, at :: Leads(m, more, at, k) && Misdirected(at, k)
  }

  lemma CalmIsNotExposed(m: State, k: Key)
    requires Inv(m) && OncePerSession(m.inbox) && Calm(m, k)
    ensures !Exposed(m, k)
  {
    forall more, at | Leads(m, more, at, k) ensures !Misdirected(at, k) {
      RunKeepsInv(m, more);
      RunKeepsOnce(m, more);
      RunKeepsCalm(m, more, k);
      CalmMeansOwn(at, k);
    }
  }

  lemma LeadsOn(m: State, moves: seq<Move>, at: State, mv: Move, k: Key) returns (longer: seq<Move>)
    requires Leads(m, moves, at, k) && Enabled(at, mv) && Harmless(mv)
    ensures longer == moves + [mv] && Leads(m, longer, Do(at, mv), k)
  {
    ExecSnoc(m, moves, at, mv);
    longer := moves + [mv];
    assert longer[..|moves|] == moves;
  }

  /** The handler that replaces the session of `k`, run to its end. */
  lemma Replaced(m: State, k: Key) returns (more: seq<Move>, at: State)
    requires Inv(m) && Enabled(m, TakeEvent) && Displaces(m, TakeEvent, k)
    ensures Leads(Do(m, TakeEvent), more, at, k)
    ensures var x := m.table[k].session;
            && at.phase == Idle && at.inbox == m.inbox[1..] && x < |m.sessions| < |at.sessions|
            && at.table == m.table[k := Connected(|m.sessions|, m.inbox[0].conn)]
            && at.sessions[|m.sessions|] == Session(m.inbox[0].conn, Relaying, false, true, [], [])
            && at.sessions[x].stage == m.sessions[x].stage && at.sessions[x].conn == m.sessions[x].conn
  {
    assert EntryOk(m, k);
    var m1 := Do(m, TakeEvent);
    more := LeadsOn(m1, [], m1, SendReport, k);
    more := LeadsOn(m1, more, Report(m1), FinishHandler, k);
    at := Finish(Report(m1));
  }

  ghost predicate OnlySession(m: State, m': State, x: nat) {
    && m'.table == m.table && m'.phase == m.phase && |m'.sessions| == |m.sessions|
    && forall s :: 0 <= s < |m.sessions| && s != x ==> m'.sessions[s] == m.sessions[s]
  }

  /** A session that may still be heard of, in at most two steps of its own, queues its farewell. */
  lemma Departs(m: State, moves: seq<Move>, at: State, x: nat, k: Key) returns (more: seq<Move>, later: State)
    requires Leads(m, moves, at, k) && x < |at.sessions| && |at.inbox| < CHANNEL_CAPACITY
    requires Unheard(at, x) && at.sessions[x].conn.remote == k
    ensures |more| <= |moves| + 2 && Leads(m, more, later, k)
    ensures SessionEnded(k, x) in later.inbox && OnlySession(at, later, x)
  {
    if at.sessions[x].stage == Relaying {
      var failing := LeadsOn(m, moves, at, SessionFail(x), k);
      more, later := Reports(m, failing, Do(at, SessionFail(x)), x, k);
    } else if at.sessions[x].stage == Reporting {
      more, later := Reports(m, moves, at, x, k);
    } else {
      more, later := moves, at;
    }
  }

  lemma Reports(m: State, moves: seq<Move>, at: State, x: nat, k: Key) returns (more: seq<Move>, later: State)
    requires Leads(m, moves, at, k) && x < |at.sessions| && |at.inbox| < CHANNEL_CAPACITY
    requires at.sessions[x].stage == Reporting && at.sessions[x].conn.remote == k
    ensures |more| == |moves| + 1 && Leads(m, more, later, k)
    ensures SessionEnded(k, x) in later.inbox && OnlySession(at, later, x)
  {
    more := LeadsOn(m, moves, at, SessionReport(x), k);
    later := Do(at, SessionReport(x));
    assert later.inbox[|at.inbox|] == SessionEnded(k, x);
  }

  lemma ReplacingExposes(m: State, k: Key)
    requires Inv(m) && Enabled(m, TakeEvent) && Displaces(m, TakeEvent, k)
    ensures Exposed(Do(m, TakeEvent), k)
  {
    var x := m.table[k].session;
    assert EntryOk(m, k);
    DisplacedHaunts(m, TakeEvent, k);
    var moves, at := Replaced(m, k);
    HandlersOnlyDequeue(m, TakeEvent);
    var more, later := Departs(Do(m, TakeEvent), moves, at, x, k);
    assert Misdirected(later, k) && Leads(Do(m, TakeEvent), more, later, k);
  }

  /** Exactly one branch opens the way to a misdirected farewell: in a closed run, after a move of a calm manager some
      schedule with no further replacement queues a farewell of `k` that will end another, running session, if and only
      if that move took an accepted connection of `k` while its entry was Connected (src/iroh.rs:215-222). */
  lemma MisdirectedExact(m: State, peers: set<Key>, mv: Move, k: Key)
    requires ClosedInv(m, peers) && OncePerSession(m.inbox) && Calm(m, k) && Enabled(m, mv) && Closed(mv)
    ensures Exposed(Do(m, mv), k) <==>
              && mv == TakeEvent && m.inbox[0].IncomingConnection? && m.inbox[0].conn.remote == k
              && k in m.table && m.table[k].Connected?
  {
    if Displaces(m, mv, k) {
      OnlyArrivalsDisplace(m, peers, mv, k);
      ReplacingExposes(m, k);
    } else {
      CalmExact(m, mv, k);
      MoveKeepsInv(m, mv);
      MoveKeepsOnce(m, mv);
      CalmIsNotExposed(Do(m, mv), k);
    }
  }

  /** The `n`th move of the run takes an accepted connection of `k` while its entry is Connected. */
  ghost predicate ReplacedAt(m: State, moves: seq<Move>, n: nat, k: Key) {
    && n < |moves| && moves[n] == TakeEvent && Exec(m, moves[..n]).Some?
    && Displaces(Exec(m, moves[..n]).value, TakeEvent, k)
    && Exec(m, moves[..n]).value.inbox[0].IncomingConnection?
  }

  lemma OnlyArrivalsDisplace(m: State, peers: set<Key>, mv: Move, k: Key)
    requires ClosedInv(m, peers) && Enabled(m, mv) && Closed(mv) && Displaces(m, mv, k)
    ensures mv == TakeEvent && m.inbox[0].IncomingConnection?
  {
    if m.inbox[0].OutgoingConnection? { HeadMeetsItsEntry(m); }
  }

  lemma ReplacedBefore(m: State, moves: seq<Move>, n: nat, i: nat, k: Key)
    requires n <= |moves| && ReplacedAt(m, moves[..n], i, k)
    ensures ReplacedAt(m, moves, i, k)
  {
    assert moves[..n][..i] == moves[..i];
  }

  lemma {:induction false} DisturbedSomewhere(m: State, peers: set<Key>, moves: seq<Move>, k: Key)
    requires ClosedInv(m, peers) && Exec(m, moves).Some? && (forall i :: 0 <= i < |moves| ==> Closed(moves[i]))
    requires !Undisturbed(m, moves, k)
    ensures exists n: nat :: ReplacedAt(m, moves, n, k)
  {
    var n := |moves| - 1;
    if Undisturbed(m, moves[..n], k) {
      GetsKeepsClosed(Closed, m, moves[..n], peers);
      OnlyArrivalsDisplace(Exec(m, moves[..n]).value, peers, moves[n], k);
      assert ReplacedAt(m, moves, n, k);
    } else {
      DisturbedSomewhere(m, peers, moves[..n], k);
      var i: nat :| ReplacedAt(m, moves[..n], i, k);
      ReplacedBefore(m, moves, n, i, k);
    }
  }

  /** Over every closed run: if a farewell of `k` is queued whose sender the entry no longer names, then earlier in the
      run an accepted connection of `k` replaced a Connected entry. */
  lemma MisdirectedWasReplaced(m: State, self: Key, peers: set<Key>, moves: seq<Move>, k: Key)
    requires IsStarted(m, self, peers) && Exec(m, moves).Some? && (forall i :: 0 <= i < |moves| ==> Closed(moves[i]))
    requires !OwnFarewells(Exec(m, moves).value, k)
    ensures exists n: nat :: ReplacedAt(m, moves, n, k)
  {
    StartedClosed(m, self, peers);
    if Undisturbed(m, moves, k) {
      FarewellsEndTheirOwn(m, self, peers, moves, k);
    } else {
      DisturbedSomewhere(m, peers, moves, k);
    }
  }

  // ---- an input on which it happens

  lemma FirstSession(m: State, self: Key, peers: set<Key>, k: Key) returns (at: State)
    requires IsStarted(m, self, peers) && k in peers && self < k
    ensures Gets(Closed, m, at) && at.phase == Idle && at.inbox == [] && at.accepts == {} && at.closed == {}
    ensures at.self == self && at.begun == {Conn(0, k, Listener)}
    ensures k in at.table && at.table[k] == Connected(0, Conn(0, k, Listener))
    ensures at.sessions == [Session(Conn(0, k, Listener), Relaying, false, true, [], [])]
  {
    GetsNowhere(Closed, m);
    var c := Conn(0, k, Listener);
    QueueArrival(m, m, c);
    HandleHead(Closed, m, Arrived(m, c));
    at := Handled(Arrived(m, c));
  }

  /** ... which loses its connection, while its peer has already dialed again. */
  lemma SecondConnection(m: State, self: Key, peers: set<Key>, k: Key) returns (at: State)
    requires IsStarted(m, self, peers) && k in peers && self < k
    ensures Gets(Closed, m, at) && at.phase == Idle && at.closed == {} && at.self == self
    ensures at.inbox == [IncomingConnection(Conn(1, k, Listener)), SessionEnded(k, 0)]
    ensures k in at.table && at.table[k] == Connected(0, Conn(0, k, Listener))
    ensures at.sessions == [Session(Conn(0, k, Listener), Over, false, true, [], [])]
  {
    var m1 := FirstSession(m, self, peers, k);
    var c := Conn(1, k, Listener);
    GetsOn(Closed, m, m1, SessionFail(0));
    var m2 := Do(m1, SessionFail(0));
    QueueArrival(m, m2, c);
    var m3 := Arrived(m2, c);
    GetsOn(Closed, m, m3, SessionReport(0));
    at := Do(m3, SessionReport(0));
  }

  lemma SecondSession(m: State, self: Key, peers: set<Key>, k: Key) returns (at: State)
    requires IsStarted(m, self, peers) && k in peers && self < k
    ensures Gets(Closed, m, at) && at.phase == Idle && at.inbox == [SessionEnded(k, 0)] && at.closed == {0}
    ensures at.self == self && k in at.table && at.table[k] == Connected(1, Conn(1, k, Listener))
    ensures |at.sessions| == 2 && at.sessions[1] == Session(Conn(1, k, Listener), Relaying, false, true, [], [])
  {
    var m1 := SecondConnection(m, self, peers, k);
    HandleHead(Closed, m, m1);
    at := Handled(m1);
  }

  lemma FarewellRetires(m: State, k: Key, s: nat, x: nat) returns (after: State)
    requires m.phase == Idle && m.inbox == [SessionEnded(k, x)] && m.self < k && s < |m.sessions|
    requires k in m.table && m.table[k].Connected? && m.table[k].session == s
    ensures Gets(Handling, m, after) && k in after.table && after.table[k] == WaitingIncomingConnection
    ensures after.closed == m.closed && after.sessions == m.sessions[s := m.sessions[s].(senderOpen := false)]
  {
    GetsNowhere(Handling, m);
    HandleHead(Handling, m, m);
    after := Handled(m);
  }

  /** For every manager and every listed peer with a larger key, a closed run from start-up in which the farewell of the
      first session retires the second one, though that one still runs, was not aborted and its connection was not
      closed. */
  lemma FarewellEndsAnother(m: State, self: Key, peers: set<Key>, k: Key) returns (at: State, after: State)
    requires IsStarted(m, self, peers) && k in peers && self < k
    ensures Gets(Closed, m, at) && Gets(Handling, at, after)
    ensures at.inbox == [SessionEnded(k, 0)] && Misdirected(at, k)
    ensures k in at.table && at.table[k] == Connected(1, Conn(1, k, Listener))
    ensures k in after.table && after.table[k] == WaitingIncomingConnection && after.closed == {0}
    ensures |after.sessions| == 2
         && after.sessions[1] == Session(Conn(1, k, Listener), Relaying, false, false, [], [])
  {
    at := SecondSession(m, self, peers, k);
    assert SessionEnded(k, 0) in at.inbox;
    after := FarewellRetires(at, k, 1, 0);
  }
}
