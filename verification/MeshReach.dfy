/** Whatever has happened in a mesh, any two nodes that list each other can still come to be joined. */
module MeshReach {
  import opened Wire
  import opened Manager
  import opened ManagerRuns
  import opened ClosedRuns
  import opened Schedules
  import opened Mesh
  import opened MeshTunnels

  // ---- schedules of a mesh

  ghost predicate Reaches(w: World, w': World) {
    exists steps :: Run(w, steps) == Some(w')
  }

  lemma ReachesItself(w: World)
    ensures Reaches(w, w)
  {
    assert Run(w, []) == Some(w);
  }

  lemma ReachesOn(w: World, at: World, step: Step)
    requires Reaches(w, at) && CanStep(at, step)
    ensures Reaches(w, Next(at, step))
  {
    var steps :| Run(w, steps) == Some(at);
    assert Run(w, steps + [step]) == Some(Next(at, step));
  }

  /** A move of a node that begins no connection; one that also fails none changes no link. */
  predicate Inner(mv: Move) {
    Closed(mv) && !mv.DialAttempt? && !mv.AcceptUp?
  }

  predicate Plain(mv: Move) {
    Inner(mv) && !mv.SessionFail?
  }

  function With(w: World, n: Key, m: Manager.State): (r: World) {
    w.(nodes := w.nodes[n := m])
  }

  lemma {:induction false} LiftPlain(w: World, at: World, n: Key, moves: seq<Move>)
    requires Reaches(w, at) && n in at.nodes && Exec(at.nodes[n], moves).Some?
    requires forall i :: 0 <= i < |moves| ==> Plain(moves[i])
    ensures Reaches(w, With(at, n, Exec(at.nodes[n], moves).value))
  {
    if moves == [] {
      assert With(at, n, at.nodes[n]) == at;
    } else {
      var k := |moves| - 1;
      var mid := With(at, n, Exec(at.nodes[n], moves[..k]).value);
      LiftPlain(w, at, n, moves[..k]);
      ReachesOn(w, mid, At(n, moves[k]));
      assert Next(mid, At(n, moves[k])) == With(at, n, Exec(at.nodes[n], moves).value);
    }
  }

  /** A schedule of one node's plain moves, run inside the mesh. */
  lemma Lift(w: World, at: World, n: Key, m': Manager.State)
    requires Reaches(w, at) && n in at.nodes && Gets(Plain, at.nodes[n], m')
    ensures Reaches(w, With(at, n, m'))
  {
    var moves :| Exec(at.nodes[n], moves) == Some(m') && forall i :: 0 <= i < |moves| ==> Plain(moves[i]);
    LiftPlain(w, at, n, moves);
  }

  lemma {:induction false} LiftInner(w: World, at: World, n: Key, moves: seq<Move>) returns (at': World)
    requires Reaches(w, at) && n in at.nodes && Exec(at.nodes[n], moves).Some?
    requires forall i :: 0 <= i < |moves| ==> Inner(moves[i])
    ensures Reaches(w, at') && at'.nodes == at.nodes[n := Exec(at.nodes[n], moves).value]
  {
    if moves == [] {
      at' := at;
    } else {
      var k := |moves| - 1;
      var mid := LiftInner(w, at, n, moves[..k]);
      ReachesOn(w, mid, At(n, moves[k]));
      at' := Next(mid, At(n, moves[k]));
    }
  }

  /** A schedule of one node's inner moves, run inside the mesh. */
  lemma LiftAny(w: World, at: World, n: Key, m': Manager.State) returns (at': World)
    requires Reaches(w, at) && n in at.nodes && Gets(Inner, at.nodes[n], m')
    ensures Reaches(w, at') && at'.nodes == at.nodes[n := m']
  {
    var moves :| Exec(at.nodes[n], moves) == Some(m') && forall i :: 0 <= i < |moves| ==> Inner(moves[i]);
    at' := LiftInner(w, at, n, moves);
  }

  lemma InnerKeepsClosed(m: Manager.State, at: Manager.State, peers: set<Key>)
    requires ClosedInv(m, peers) && Gets(Inner, m, at)
    ensures ClosedInv(at, peers) && at.self == m.self
  {
    GetsClosed(Inner, m, at, peers);
  }

  lemma Quietens(m: Manager.State, peers: set<Key>) returns (m': Manager.State)
    requires ClosedInv(m, peers)
    ensures Gets(Inner, m, m') && Quiet(m')
  {
    m' := FinishesHandler(Inner, m);
    m' := Drains(Inner, m, m', peers);
  }

  // ---- the dialing end gets a dial task between two attempts

  ghost predicate Ready(m: Manager.State, a: Key) {
    && Quiet(m) && a in m.table && m.table[a].Connecting?
    && m.table[a].dial < |m.dials| && m.dials[m.table[a].dial] == Dial(a, Resting, false)
  }

  lemma FarewellReadies(m: Manager.State, a: Key, s: nat)
    requires m.phase == Idle && m.inbox == [SessionEnded(a, s)] && a <= m.self && a in m.table && m.table[a].Connected?
    ensures Ready(Handled(m), a)
  {}

  /** A session that has lost its connection reports it and is retired. */
  lemma Retires(m: Manager.State, at: Manager.State, a: Key, s: nat) returns (m': Manager.State)
    requires Gets(Inner, m, at) && Quiet(at) && a in at.table && a <= at.self && at.table[a].Connected?
    requires s < |at.sessions| && at.sessions[s].stage == Reporting && at.sessions[s].conn.remote == a
    ensures Gets(Inner, m, m') && Ready(m', a)
  {
    GetsOn(Inner, m, at, SessionReport(s));
    var at1 := Do(at, SessionReport(s));
    assert at1.inbox == [SessionEnded(a, s)];
    FarewellReadies(at1, a, s);
    HandleHead(Inner, m, at1);
    m' := Handled(at1);
  }

  /** From a Connected entry the network takes the connection away. */
  lemma Loses(m: Manager.State, at: Manager.State, a: Key) returns (m': Manager.State)
    requires Gets(Inner, m, at) && ManagerRuns.Inv(at) && Quiet(at)
    requires a in at.table && a <= at.self && at.table[a].Connected?
    ensures Gets(Inner, m, m') && Ready(m', a)
  {
    var s := at.table[a].session;
    assert EntryOk(at, a);
    if at.sessions[s].stage == Relaying {
      GetsOn(Inner, m, at, SessionFail(s));
      m' := Retires(m, Do(at, SessionFail(s)), a, s);
    } else {
      m' := Retires(m, at, a, s);
    }
  }

  /** An established connection is announced and installed. */
  lemma Adopts(p: Move -> bool, m: Manager.State, at: Manager.State, a: Key, t: nat) returns (m': Manager.State)
    requires Gets(p, m, at) && Quiet(at) && a in at.table && at.table[a] == Connecting(t) && t < |at.dials|
    requires at.dials[t].stage.Sending? && at.dials[t].stage.conn.remote == a
    requires p(DialSend(t)) && p(TakeEvent) && p(SendReport) && p(FinishHandler)
    ensures Gets(p, m, m') && Quiet(m') && m'.closed == at.closed
    ensures a in m'.table && m'.table[a] == Connected(|at.sessions|, at.dials[t].stage.conn)
  {
    GetsOn(p, m, at, DialSend(t));
    var at1 := Do(at, DialSend(t));
    HandleHead(p, m, at1);
    m' := Handled(at1);
  }

  lemma AdoptsAndLoses(m: Manager.State, peers: set<Key>, a: Key, t: nat) returns (m': Manager.State)
    requires ClosedInv(m, peers) && Quiet(m) && a in m.table && a <= m.self && m.table[a] == Connecting(t)
    requires t < |m.dials| && m.dials[t].stage.Sending?
    ensures Gets(Inner, m, m') && Ready(m', a)
  {
    assert EntryOk(m, a) && DialOk(m.dials[t]);
    GetsNowhere(Inner, m);
    var m1 := Adopts(Inner, m, m, a, t);
    InnerKeepsClosed(m, m1, peers);
    m' := Loses(m, m1, a);
  }

  lemma Readies(m: Manager.State, peers: set<Key>, a: Key) returns (m': Manager.State)
    requires ClosedInv(m, peers) && Quiet(m) && a in peers && a <= m.self
    ensures Gets(Inner, m, m') && Ready(m', a)
  {
    GetsNowhere(Inner, m);
    assert EntryOk(m, a) && RoleOk(m.self, a, m.table[a]);
    if m.table[a].Connected? {
      m' := Loses(m, m, a);
    } else {
      var t := m.table[a].dial;
      if m.dials[t].stage.Sending? {
        m' := AdoptsAndLoses(m, peers, a, t);
      } else if m.dials[t].stage.Handshaking? {
        GetsOn(Inner, m, m, DialFail(t));
        m' := Do(m, DialFail(t));
      } else {
        m' := m;
      }
    }
  }

  // ---- one connection comes up at both ends

  /** The dial task makes one more attempt, which succeeds. */
  lemma DialerJoins(w: World, at: World, a: Key, b: Key) returns (at': World)
    requires Reaches(w, at) && a != b && a in at.nodes && b in at.nodes && Ready(at.nodes[b], a)
    requires Conn(|at.links|, a, Dialer) !in at.nodes[b].begun
    ensures Reaches(w, at') && at'.links == at.links + [Link(b, a, Offered, false)]
    ensures a in at'.nodes && at'.nodes[a] == at.nodes[a]
    ensures b in at'.nodes && a in at'.nodes[b].table && at'.nodes[b].closed == at.nodes[b].closed
    ensures at'.nodes[b].table[a].Connected? && at'.nodes[b].table[a].conn == Conn(|at.links|, a, Dialer)
  {
    var t := at.nodes[b].table[a].dial;
    ReachesOn(w, at, Attempt(b, t));
    var at1 := Next(at, Attempt(b, t));
    var m1 := at1.nodes[b];
    GetsNowhere(Plain, m1);
    GetsOn(Plain, m1, m1, DialUp(t));
    var m' := Adopts(Plain, m1, Do(m1, DialUp(t)), a, t);
    Lift(w, at1, b, m');
    at' := With(at1, b, m');
  }

  /** A quiet node that may adopt an accepted connection does. */
  lemma Accepts(m: Manager.State, conn: Conn) returns (m': Manager.State)
    requires Quiet(m) && conn in m.accepts && conn.remote in m.table
    requires m.table[conn.remote].WaitingIncomingConnection? || m.table[conn.remote].Connected?
    ensures Gets(Plain, m, m') && conn.remote in m'.table && m'.table[conn.remote] == Connected(|m.sessions|, conn)
    ensures m'.closed <= m.closed + if m.table[conn.remote].Connected? then {m.table[conn.remote].conn.id} else {}
  {
    var m1 := AcceptQueues(m, conn);
    AcceptedIsAdopted(m1, conn);
    HandleHead(Plain, m, m1);
    m' := Handled(m1);
  }

  lemma AcceptQueues(m: Manager.State, conn: Conn) returns (m': Manager.State)
    requires Quiet(m) && conn in m.accepts
    ensures Gets(Plain, m, m') && m'.phase == Idle && m'.inbox == [IncomingConnection(conn)]
    ensures m'.table == m.table && m'.closed == m.closed && m'.sessions == m.sessions
  {
    GetsNowhere(Plain, m);
    GetsOn(Plain, m, m, AcceptSend(conn));
    m' := Do(m, AcceptSend(conn));
  }

  lemma AcceptedIsAdopted(m: Manager.State, conn: Conn)
    requires m.phase == Idle && m.inbox == [IncomingConnection(conn)] && conn.remote in m.table
    requires m.table[conn.remote].WaitingIncomingConnection? || m.table[conn.remote].Connected?
    ensures var m' := Handled(m);
            && conn.remote in m'.table && m'.table[conn.remote] == Connected(|m.sessions|, conn)
            && m'.closed <= m.closed + if m.table[conn.remote].Connected? then {m.table[conn.remote].conn.id} else {}
  {}

  predicate Adoptable(m: Manager.State, b: Key, conn: Conn) {
    && Quiet(m) && conn !in m.begun && conn.remote == b && conn.side == Listener && conn.id !in m.closed
    && b in m.table && (m.table[b].WaitingIncomingConnection? || (m.table[b].Connected? && m.table[b].conn.id != conn.id))
  }

  /** The handshake completes at the listener. */
  lemma ListenerJoins(w: World, at: World, a: Key, b: Key, l: nat) returns (at': World)
    requires Reaches(w, at) && a != b && a in at.nodes && b in at.nodes && Adoptable(at.nodes[a], b, Conn(l, b, Listener))
    requires l < |at.links| && at.links[l] == Link(b, a, Offered, false)
    ensures Reaches(w, at') && at'.links == at.links[l := Link(b, a, Taken, false)]
    ensures b in at'.nodes && at'.nodes[b] == at.nodes[b]
    ensures a in at'.nodes && b in at'.nodes[a].table && l !in at'.nodes[a].closed
    ensures at'.nodes[a].table[b].Connected? && at'.nodes[a].table[b].conn == Conn(l, b, Listener)
  {
    ReachesOn(w, at, Arrive(l));
    var at1 := Next(at, Arrive(l));
    var m' := Accepts(at1.nodes[a], Conn(l, b, Listener));
    Lift(w, at1, a, m');
    at' := With(at1, a, m');
  }

  /** Both ends hold it, neither has closed it, and it has not failed. */
  lemma BothEndsUp(w: World, a: Key, b: Key, l: nat)
    requires a in w.nodes && b in w.nodes && l < |w.links| && w.links[l] == Link(b, a, Taken, false)
    requires b in w.nodes[a].table && a in w.nodes[b].table && l !in w.nodes[a].closed && l !in w.nodes[b].closed
    requires w.nodes[a].table[b].Connected? && w.nodes[a].table[b].conn == Conn(l, b, Listener)
    requires w.nodes[b].table[a].Connected? && w.nodes[b].table[a].conn == Conn(l, a, Dialer)
    ensures Joined(w, a, b, l) && Joined(w, b, a, l) && LinkOpen(w, l)
  {
    assert Holds(w.nodes[a], Conn(l, b, Listener)) && Holds(w.nodes[b], Conn(l, a, Dialer));
  }

  lemma JoinFrom(w: World, at: World, a: Key, b: Key) returns (at': World)
    requires Reaches(w, at) && a != b && a in at.nodes && b in at.nodes && Ready(at.nodes[b], a)
    requires Conn(|at.links|, a, Dialer) !in at.nodes[b].begun && |at.links| !in at.nodes[b].closed
    requires Adoptable(at.nodes[a], b, Conn(|at.links|, b, Listener))
    ensures Reaches(w, at') && Joined(at', a, b, |at.links|) && Joined(at', b, a, |at.links|) && LinkOpen(at', |at.links|)
  {
    var at1 := DialerJoins(w, at, a, b);
    at' := ListenerJoins(w, at1, a, b, |at.links|);
    BothEndsUp(at', a, b, |at.links|);
  }

  // ---- the invariant gives what the schedules need

  lemma {:induction false} StepsKeepInv(w: World, lists: map<Key, set<Key>>, steps: seq<Step>)
    requires Mesh.Inv(w, lists) && Run(w, steps).Some?
    ensures Mesh.Inv(Run(w, steps).value, lists)
  {
    if steps != [] {
      var n := |steps| - 1;
      StepsKeepInv(w, lists, steps[..n]);
      StepKeepsInv(Run(w, steps[..n]).value, lists, steps[n]);
    }
  }

  ghost predicate Reachable(w: World, lists: map<Key, set<Key>>) {
    exists boot, steps :: IsBooted(boot, lists) && Run(boot, steps) == Some(w)
  }

  lemma ReachableInv(w: World, lists: map<Key, set<Key>>, at: World)
    requires Reachable(w, lists) && Reaches(w, at)
    ensures Mesh.Inv(at, lists)
  {
    var boot, steps :| IsBooted(boot, lists) && Run(boot, steps) == Some(w);
    Mesh.RunKeepsInv(boot, lists, steps);
    var more :| Run(w, more) == Some(at);
    StepsKeepInv(w, lists, more);
  }

  lemma NodeIs(w: World, lists: map<Key, set<Key>>, at: World, n: Key)
    requires Reachable(w, lists) && Reaches(w, at) && n in lists
    ensures n in at.nodes && at.nodes[n].self == n && ClosedInv(at.nodes[n], lists[n])
  {
    ReachableInv(w, lists, at);
    assert NodeOk(at, n, lists[n]);
  }

  lemma QuietState(w: World, lists: map<Key, set<Key>>, at: World, n: Key) returns (m: Manager.State)
    requires Reachable(w, lists) && Reaches(w, at) && n in lists && n in at.nodes
    ensures Gets(Inner, at.nodes[n], m) && Quiet(m)
  {
    NodeIs(w, lists, at, n);
    m := Quietens(at.nodes[n], lists[n]);
  }

  lemma ReadyState(w: World, lists: map<Key, set<Key>>, at: World, b: Key, a: Key) returns (m: Manager.State)
    requires Reachable(w, lists) && Reaches(w, at) && b in lists && a in lists[b] && a <= b && b in at.nodes && Quiet(at.nodes[b])
    ensures Gets(Inner, at.nodes[b], m) && Ready(m, a)
  {
    NodeIs(w, lists, at, b);
    m := Readies(at.nodes[b], lists[b], a);
  }

  /** The next connection is new to every node. */
  lemma NextIsNew(w: World, lists: map<Key, set<Key>>, n: Key, conn: Conn)
    requires Mesh.Inv(w, lists) && n in lists && conn.id == |w.links|
    ensures conn !in w.nodes[n].begun && conn.id !in w.nodes[n].closed
    ensures forall k :: k in w.nodes[n].table && w.nodes[n].table[k].Connected? ==> w.nodes[n].table[k].conn.id != conn.id
  {
    assert NodeOk(w, n, lists[n]);
    assert conn in w.nodes[n].begun ==> BegunOk(w.links, n, conn);
    forall k | k in w.nodes[n].table && w.nodes[n].table[k].Connected? ensures w.nodes[n].table[k].conn.id != conn.id {
      assert EntryOk(w.nodes[n], k);
    }
  }

  lemma IsAdoptable(w: World, lists: map<Key, set<Key>>, a: Key, b: Key)
    requires Mesh.Inv(w, lists) && a in lists && b in lists[a] && a < b && Quiet(w.nodes[a])
    ensures Adoptable(w.nodes[a], b, Conn(|w.links|, b, Listener))
  {
    NextIsNew(w, lists, a, Conn(|w.links|, b, Listener));
    EntryFollowsKeys(w, lists, a, b);
    assert NodeOk(w, a, lists[a]);
  }

  lemma JoinIsPossible(w: World, lists: map<Key, set<Key>>, at: World, a: Key, b: Key)
    requires Reachable(w, lists) && Reaches(w, at) && a in lists && b in lists && b in lists[a] && a < b
    requires a in at.nodes && b in at.nodes && Quiet(at.nodes[a])
    ensures Conn(|at.links|, a, Dialer) !in at.nodes[b].begun && |at.links| !in at.nodes[b].closed
    ensures Adoptable(at.nodes[a], b, Conn(|at.links|, b, Listener))
  {
    ReachableInv(w, lists, at);
    NextIsNew(at, lists, b, Conn(|at.links|, a, Dialer));
    IsAdoptable(at, lists, a, b);
  }

  /** Both nodes handle what they have queued, and the one that dials drops what it has. */
  lemma Prepares(w: World, lists: map<Key, set<Key>>, a: Key, b: Key) returns (at: World)
    requires Reachable(w, lists) && a in w.nodes && b in w.nodes && a in lists && b in lists && a < b && a in lists[b]
    ensures Reaches(w, at) && a in at.nodes && b in at.nodes && Quiet(at.nodes[a]) && Ready(at.nodes[b], a)
  {
    ReachesItself(w);
    var ma := QuietState(w, lists, w, a);
    at := LiftAny(w, w, a, ma);
    var mb := QuietState(w, lists, at, b);
    at := LiftAny(w, at, b, mb);
    mb := ReadyState(w, lists, at, b, a);
    at := LiftAny(w, at, b, mb);
  }

  lemma CanJoin(w: World, lists: map<Key, set<Key>>, a: Key, b: Key) returns (at: World, l: nat)
    requires Reachable(w, lists) && a in w.nodes && b in w.nodes
    requires a in lists && b in lists && a < b && b in lists[a] && a in lists[b]
    ensures Reaches(w, at) && Joined(at, a, b, l) && Joined(at, b, a, l) && LinkOpen(at, l)
  {
    var ready := Prepares(w, lists, a, b);
    JoinIsPossible(w, lists, ready, a, b);
    l := |ready.links|;
    at := JoinFrom(w, ready, a, b);
  }

  /** From every reachable mesh, for every two nodes that list each other, some continuation joins them: both are then
      Connected over one and the same connection, which is open. */
  lemma EveryPairCanJoin(w: World, lists: map<Key, set<Key>>, steps: seq<Step>, a: Key, b: Key)
    returns (at: World, l: nat)
    requires IsBooted(w, lists) && Run(w, steps).Some?
    requires a in lists && b in lists && a < b && b in lists[a] && a in lists[b]
    ensures Reaches(Run(w, steps).value, at) && Joined(at, a, b, l) && Joined(at, b, a, l) && LinkOpen(at, l)
  {
    Mesh.RunKeepsInv(w, lists, steps);
    at, l := CanJoin(Run(w, steps).value, lists, a, b);
  }
}
