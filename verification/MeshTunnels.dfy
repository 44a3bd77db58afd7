/** One tunnel per pair: what two nodes at rest look like, whatever interleaving led there. */
module MeshTunnels {
  import opened Wire
  import opened Manager
  import opened ManagerRuns
  import opened ClosedRuns
  import opened Mesh

  // ---- who holds a connection, and when it is closed

  /** Somewhere in the node, a task, a queued message, the handler in progress or the table still has a handle. */
  ghost predicate Holds(m: Manager.State, conn: Conn) {
    || (exists t :: 0 <= t < |m.dials| && (m.dials[t].stage == Handshaking(conn) || m.dials[t].stage == Sending(conn)))
    || conn in m.accepts
    || (exists i :: 0 <= i < |m.inbox| &&
          (m.inbox[i].OutgoingConnection? || m.inbox[i].IncomingConnection?) && m.inbox[i].conn == conn)
    || ((m.phase.AnnounceUp? || m.phase.Install?) && m.phase.conn == conn)
    || (conn.remote in m.table && m.table[conn.remote].Connected? && m.table[conn.remote].conn == conn)
    || (exists s :: 0 <= s < |m.sessions| && m.sessions[s].conn == conn && m.sessions[s].stage != Over)
  }

  ghost predicate EndHeld(w: World, n: Key, conn: Conn) {
    n in w.nodes ==> Holds(w.nodes[n], conn)
  }

  predicate ClosedAt(w: World, n: Key, l: nat) {
    n in w.nodes && l in w.nodes[n].closed
  }

  /** Not failed, closed by neither end, and held at both (by the handshake itself while it is still on offer). */
  ghost predicate LinkOpen(w: World, l: nat) {
    && l < |w.links| && !w.links[l].failed
    && !ClosedAt(w, w.links[l].dialer, l) && !ClosedAt(w, w.links[l].listener, l)
    && EndHeld(w, w.links[l].dialer, Conn(l, w.links[l].listener, Dialer))
    && (w.links[l].arrival == Offered || EndHeld(w, w.links[l].listener, Conn(l, w.links[l].dialer, Listener)))
  }

  // ---- a pair at rest

  predicate DialAtRest(d: Dial) {
    d.stage.Resting? || d.stage.Sent? || d.stage.Cancelled?
  }

  /** A session that has returned, or that relays for the entry in the table. */
  predicate SessionAtRest(s: Session) {
    s.stage == Over || (s.stage == Relaying && s.senderOpen && !s.aborted)
  }

  /** Nothing at a node is on its way to or from the peer `y`, whatever it does about others. */
  ghost predicate PeerAtRest(m: Manager.State, y: Key) {
    && !Touched(m.phase, y)
    && (forall i :: 0 <= i < |m.inbox| ==> !Concerns(m.inbox[i], y))
    && (forall conn :: conn in m.accepts ==> conn.remote != y)
    && (forall t :: 0 <= t < |m.dials| && m.dials[t].peer == y ==> DialAtRest(m.dials[t]))
    && (forall s :: 0 <= s < |m.sessions| && m.sessions[s].conn.remote == y ==> SessionAtRest(m.sessions[s]))
  }

  /** Every session of `x` with `y` that has not returned runs over an open connection. */
  ghost predicate LossesNoticed(w: World, x: Key, y: Key)
    requires x in w.nodes
  {
    forall s :: 0 <= s < |w.nodes[x].sessions| && w.nodes[x].sessions[s].conn.remote == y
                && w.nodes[x].sessions[s].stage != Over ==>
      LinkOpen(w, w.nodes[x].sessions[s].conn.id)
  }

  predicate Joins(link: Link, a: Key, b: Key) {
    (link.dialer == a && link.listener == b) || (link.dialer == b && link.listener == a)
  }

  /** Between `a` and `b` no message or handshake is on its way, and every closed connection and orphaned session has been
      noticed. The rest of the mesh, and what the two do about others, is arbitrary. */
  ghost predicate PairAtRest(w: World, a: Key, b: Key) {
    && a in w.nodes && b in w.nodes
    && PeerAtRest(w.nodes[a], b) && PeerAtRest(w.nodes[b], a)
    && LossesNoticed(w, a, b) && LossesNoticed(w, b, a)
    && (forall l :: 0 <= l < |w.links| && Joins(w.links[l], a, b) ==> w.links[l].arrival != Offered)
  }

  predicate Joined(w: World, a: Key, b: Key, l: nat) {
    && a in w.nodes && b in w.nodes[a].table
    && w.nodes[a].table[b].Connected? && w.nodes[a].table[b].conn.id == l
  }

  /** The end of connection `conn` of node `a` that the other node holds. */
  function OtherEnd(a: Key, conn: Conn): (r: Conn) {
    Conn(conn.id, a, if conn.side == Dialer then Listener else Dialer)
  }

  /** At rest towards its remote end, a handle to a connection can only be the table's. */
  lemma HeldMeansConnected(m: Manager.State, conn: Conn)
    requires ManagerRuns.Inv(m) && PeerAtRest(m, conn.remote) && Holds(m, conn)
    ensures conn.remote in m.table && m.table[conn.remote].Connected? && m.table[conn.remote].conn == conn
  {
    forall t | 0 <= t < |m.dials| ensures m.dials[t].stage != Handshaking(conn) && m.dials[t].stage != Sending(conn) {
      assert DialOk(m.dials[t]);
    }
    forall i | 0 <= i < |m.inbox| ensures !Concerns(m.inbox[i], conn.remote) {}
  }

  /** At rest, the connection of a Connected entry is open. */
  lemma ConnectedIsOpen(w: World, lists: map<Key, set<Key>>, a: Key, b: Key)
    requires Mesh.Inv(w, lists) && PairAtRest(w, a, b) && a in lists
    requires b in w.nodes[a].table && w.nodes[a].table[b].Connected?
    ensures var conn := w.nodes[a].table[b].conn;
            conn.remote == b && EndOk(w.links, a, conn) && LinkOpen(w, conn.id)
  {
    var m := w.nodes[a];
    assert NodeOk(w, a, lists[a]) && EntryOk(m, b);
    forall i | 0 <= i < |m.inbox| ensures m.inbox[i] != SessionEnded(b, m.table[b].session) {
      assert !Concerns(m.inbox[i], b);
    }
  }

  lemma TunnelHasTwoEnds(w: World, lists: map<Key, set<Key>>, a: Key, b: Key)
    requires Mesh.Inv(w, lists) && PairAtRest(w, a, b) && a in lists && b in lists
    requires b in w.nodes[a].table && w.nodes[a].table[b].Connected?
    ensures a in w.nodes[b].table && w.nodes[b].table[a].Connected?
    ensures w.nodes[b].table[a].conn == OtherEnd(a, w.nodes[a].table[b].conn)
  {
    ConnectedIsOpen(w, lists, a, b);
    var conn := w.nodes[a].table[b].conn;
    assert NodeOk(w, b, lists[b]) && Joins(w.links[conn.id], a, b);
    assert EndHeld(w, b, OtherEnd(a, conn));
    HeldMeansConnected(w.nodes[b], OtherEnd(a, conn));
  }

  lemma JoinedIsMutual(w: World, lists: map<Key, set<Key>>, a: Key, b: Key, l: nat)
    requires Mesh.Inv(w, lists) && PairAtRest(w, a, b) && a in lists && b in lists && Joined(w, a, b, l)
    ensures Joined(w, b, a, l)
  {
    TunnelHasTwoEnds(w, lists, a, b);
  }

  lemma RestIsMutual(w: World, a: Key, b: Key)
    requires PairAtRest(w, a, b)
    ensures PairAtRest(w, b, a)
  {
    forall l | 0 <= l < |w.links| && Joins(w.links[l], b, a) ensures w.links[l].arrival != Offered {
      assert Joins(w.links[l], a, b);
    }
  }

  /** Node `b` has exactly one dial task at work for `a`, between attempts, and `a` waits for it. */
  ghost predicate Poised(w: World, a: Key, b: Key) {
    && b in w.nodes && a in w.nodes[b].table && w.nodes[b].table[a].Connecting?
    && w.nodes[b].table[a].dial < |w.nodes[b].dials|
    && w.nodes[b].dials[w.nodes[b].table[a].dial] == Dial(a, Resting, false)
    && LiveDials(w.nodes[b], a) == {w.nodes[b].table[a].dial}
    && a in w.nodes && b in w.nodes[a].table && w.nodes[a].table[b].WaitingIncomingConnection?
  }

  lemma DialerIsPoised(m: Manager.State, peers: set<Key>, a: Key)
    requires ClosedInv(m, peers) && PeerAtRest(m, a) && a in m.table && m.table[a].Connecting?
    ensures m.table[a].dial < |m.dials| && m.dials[m.table[a].dial] == Dial(a, Resting, false)
    ensures LiveDials(m, a) == {m.table[a].dial}
  {
    var t := m.table[a].dial;
    assert EntryOk(m, a) && DialAtRest(m.dials[t]);
    forall i | 0 <= i < |m.inbox| ensures !(m.inbox[i].OutgoingConnection? && m.inbox[i].dial == t) {
      assert EventOk(m.dials, m.sessions, m.inbox[i]) && DialOk(m.dials[t]) && !Concerns(m.inbox[i], a);
    }
    forall x | x in LiveDials(m, a) ensures x == t { assert TokenOk(m, x); }
    assert t in LiveDials(m, a);
  }

  lemma UnjoinedIsPoised(w: World, lists: map<Key, set<Key>>, a: Key, b: Key)
    requires Mesh.Inv(w, lists) && PairAtRest(w, a, b) && a in lists && b in lists && a < b
    requires b in lists[a] && a in lists[b]
    requires !w.nodes[a].table[b].Connected? && !w.nodes[b].table[a].Connected?
    ensures Poised(w, a, b)
  {
    assert NodeOk(w, a, lists[a]) && NodeOk(w, b, lists[b]);
    assert RoleOk(a, b, w.nodes[a].table[b]) && RoleOk(b, a, w.nodes[b].table[a]);
    DialerIsPoised(w.nodes[b], lists[b], a);
  }

  lemma RestIsSettled(w: World, lists: map<Key, set<Key>>, a: Key, b: Key)
    requires Mesh.Inv(w, lists) && PairAtRest(w, a, b) && a in lists && b in lists && a < b
    requires b in lists[a] && a in lists[b] && !(exists l :: Joined(w, a, b, l))
    ensures Poised(w, a, b)
  {
    assert NodeOk(w, a, lists[a]) && NodeOk(w, b, lists[b]);
    RestIsMutual(w, a, b);
    var ea, eb := w.nodes[a].table[b], w.nodes[b].table[a];
    assert ea.Connected? ==> Joined(w, a, b, ea.conn.id);
    if eb.Connected? { JoinedIsMutual(w, lists, b, a, eb.conn.id); }
    UnjoinedIsPoised(w, lists, a, b);
  }

  /** Joined over the same connections from both ends, and otherwise poised. */
  ghost predicate OneTunnel(w: World, lists: map<Key, set<Key>>, a: Key, b: Key)
    requires a in lists && b in lists
  {
    && (forall l :: Joined(w, a, b, l) <==> Joined(w, b, a, l))
    && (forall l, l' :: Joined(w, a, b, l) && Joined(w, a, b, l') ==> l == l')
    && (a < b && b in lists[a] && a in lists[b] && !(exists l :: Joined(w, a, b, l)) ==> Poised(w, a, b))
  }

  /** Single tunnel per pair, for any number of nodes and every interleaving. Whenever a pair is at rest, whatever the
      rest of the mesh is doing: one is Connected to the other over a connection exactly when the other is Connected to
      it over the same one, which is the only one; and if they list each other and are not joined, one dial task is at
      work between them, at the node with the larger key, while the other waits for it. */
  lemma SingleTunnelPerPair(w: World, lists: map<Key, set<Key>>, steps: seq<Step>, a: Key, b: Key)
    requires IsBooted(w, lists) && Run(w, steps).Some?
    requires a in lists && b in lists && a != b && PairAtRest(Run(w, steps).value, a, b)
    ensures OneTunnel(Run(w, steps).value, lists, a, b)
  {
    Mesh.RunKeepsInv(w, lists, steps);
    var r := Run(w, steps).value;
    RestIsMutual(r, a, b);
    forall l ensures Joined(r, a, b, l) <==> Joined(r, b, a, l) {
      if Joined(r, a, b, l) { JoinedIsMutual(r, lists, a, b, l); }
      if Joined(r, b, a, l) { JoinedIsMutual(r, lists, b, a, l); }
    }
    if a < b && b in lists[a] && a in lists[b] && !(exists l :: Joined(r, a, b, l)) {
      RestIsSettled(r, lists, a, b);
    }
  }

  // ---- a whole mesh at rest

  ghost predicate NodeAtRest(m: Manager.State) {
    && m.inbox == [] && m.phase == Idle && m.accepts == {}
    && (forall t :: 0 <= t < |m.dials| ==> DialAtRest(m.dials[t]))
    && (forall s :: 0 <= s < |m.sessions| ==> SessionAtRest(m.sessions[s]))
  }

  ghost predicate AtRest(w: World) {
    && (forall n :: n in w.nodes ==> NodeAtRest(w.nodes[n]))
    && (forall l :: 0 <= l < |w.links| ==> w.links[l].arrival != Offered)
    && (forall n, s :: n in w.nodes && 0 <= s < |w.nodes[n].sessions| && w.nodes[n].sessions[s].stage != Over ==>
          LinkOpen(w, w.nodes[n].sessions[s].conn.id))
  }

  /** When everything is at rest, every pair is, and has one tunnel or is poised for one. */
  lemma QuietMesh(w: World, lists: map<Key, set<Key>>, steps: seq<Step>)
    requires IsBooted(w, lists) && Run(w, steps).Some? && AtRest(Run(w, steps).value)
    ensures forall a, b :: a in lists && b in lists && a != b ==> OneTunnel(Run(w, steps).value, lists, a, b)
  {
    Mesh.RunKeepsInv(w, lists, steps);
    forall a, b | a in lists && b in lists && a != b ensures OneTunnel(Run(w, steps).value, lists, a, b) {
      RestIsLocal(Run(w, steps).value, a, b);
      SingleTunnelPerPair(w, lists, steps, a, b);
    }
  }

  lemma RestIsLocal(w: World, a: Key, b: Key)
    requires AtRest(w) && a in w.nodes && b in w.nodes
    ensures PairAtRest(w, a, b)
  {
    assert NodeAtRest(w.nodes[a]) && NodeAtRest(w.nodes[b]);
  }

  // ---- roles, at every moment of every run

  lemma EntryFollowsKeys(w: World, lists: map<Key, set<Key>>, a: Key, b: Key)
    requires Mesh.Inv(w, lists) && a in lists
    ensures a in w.nodes && w.nodes[a].self == a
    ensures b in w.nodes[a].table ==> RoleOk(a, b, w.nodes[a].table[b])
  {
    assert NodeOk(w, a, lists[a]);
  }

  /** Two distinct nodes never dial each other at once and never wait for each other at once; and an incoming connection
      from another node never meets a Connecting entry. */
  lemma RolesNeverClash(w: World, lists: map<Key, set<Key>>, steps: seq<Step>, a: Key, b: Key)
    requires IsBooted(w, lists) && Run(w, steps).Some? && a in lists && b in lists && a != b
    ensures var r := Run(w, steps).value;
            && a in r.nodes && b in r.nodes
            && (b in r.nodes[a].table && a in r.nodes[b].table ==>
                  && !(r.nodes[a].table[b].Connecting? && r.nodes[b].table[a].Connecting?)
                  && !(r.nodes[a].table[b].WaitingIncomingConnection? && r.nodes[b].table[a].WaitingIncomingConnection?))
            && (forall i :: 0 <= i < |r.nodes[a].inbox| && r.nodes[a].inbox[i].IncomingConnection?
                            && r.nodes[a].inbox[i].conn.remote == b && b in r.nodes[a].table ==>
                  !r.nodes[a].table[b].Connecting?)
  {
    Mesh.RunKeepsInv(w, lists, steps);
    var r := Run(w, steps).value;
    EntryFollowsKeys(r, lists, a, b);
    EntryFollowsKeys(r, lists, b, a);
    forall i | 0 <= i < |r.nodes[a].inbox| && r.nodes[a].inbox[i].IncomingConnection?
               && r.nodes[a].inbox[i].conn.remote == b
      ensures a < b
    {
      IncomingFromLarger(r, lists, a, i);
    }
  }
}
