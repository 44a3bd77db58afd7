/** Any number of nodes running the connection manager, and the connections between them.

    The network is nondeterministic: endpoints outside the mesh may dial anybody, a handshake may complete at either end
    first, at one end only or not at all, and a connection may fail at any time. A connection is closed once either end
    closes it or holds no handle to it. */
module Mesh {
  import opened Wire
  import opened Manager
  import opened ManagerRuns
  import opened ClosedRuns

  /** What the listening end has done with a connection so far. */
  datatype Arrival = Offered | Taken | Refused

  datatype Link = Link(dialer: Key, listener: Key, arrival: Arrival, failed: bool)

  /** A connection's number is its position in `links`. */
  datatype World = World(nodes: map<Key, Manager.State>, links: seq<Link>)

  datatype Step =
    | At(node: Key, mv: Move)        // a step of one node that opens no connection
    | Attempt(node: Key, t: nat)     // a dial task starts a handshake
    | Stranger(dialer: Key, listener: Key)   // an endpoint outside the mesh dials somebody
    | Arrive(link: nat)              // the handshake completes at the listener
    | Refuse(link: nat)              // ... or fails there
    | Fail(link: nat)                // the network drops the connection

  predicate CanStep(w: World, step: Step) {
    match step
    case At(n, mv) => n in w.nodes && Enabled(w.nodes[n], mv) && Closed(mv) && !mv.DialAttempt? && !mv.AcceptUp?
    case Attempt(n, t) =>
      && n in w.nodes && t < |w.nodes[n].dials| && w.nodes[n].dials[t].stage == Resting
      && Conn(|w.links|, w.nodes[n].dials[t].peer, Dialer) !in w.nodes[n].begun
    case Stranger(d, _) => d !in w.nodes
    case Arrive(l) =>
      && l < |w.links| && w.links[l].arrival == Offered
      && (w.links[l].listener in w.nodes ==>
            Conn(l, w.links[l].dialer, Listener) !in w.nodes[w.links[l].listener].begun)
    case Refuse(l) => l < |w.links| && w.links[l].arrival == Offered
    case Fail(l) => l < |w.links|
  }

  function FailedBy(w: World, n: Key, mv: Move): (r: seq<Link>)
    requires n in w.nodes && Enabled(w.nodes[n], mv)
  {
    if mv.SessionFail? && w.nodes[n].sessions[mv.s].conn.id < |w.links| then
      var l := w.nodes[n].sessions[mv.s].conn.id;
      w.links[l := w.links[l].(failed := true)]
    else w.links
  }

  function Next(w: World, step: Step): (r: World)
    requires CanStep(w, step)
  {
    match step
    case At(n, mv) => World(w.nodes[n := Do(w.nodes[n], mv)], FailedBy(w, n, mv))
    case Attempt(n, t) =>
      var peer := w.nodes[n].dials[t].peer;
      World(w.nodes[n := Do(w.nodes[n], DialAttempt(t, Conn(|w.links|, peer, Dialer)))],
            w.links + [Link(n, peer, Offered, false)])
    case Stranger(d, n) => w.(links := w.links + [Link(d, n, Offered, false)])
    case Arrive(l) =>
      var link := w.links[l];
      var taken := w.(links := w.links[l := link.(arrival := Taken)]);
      if link.listener !in w.nodes then taken
      else taken.(nodes := w.nodes[link.listener :=
                             Do(w.nodes[link.listener], AcceptUp(Conn(l, link.dialer, Listener)))])
    case Refuse(l) => w.(links := w.links[l := w.links[l].(arrival := Refused)])
    case Fail(l) => w.(links := w.links[l := w.links[l].(failed := true)])
  }

  function Run(w: World, steps: seq<Step>): (r: Option<World>) {
    if steps == [] then Some(w)
    else
      match Run(w, steps[..|steps| - 1])
      case None => None
      case Some(w1) => if CanStep(w1, steps[|steps| - 1]) then Some(Next(w1, steps[|steps| - 1])) else None
  }

  /** Every node has just started, each with its own whitelist. */
  ghost predicate IsBooted(w: World, lists: map<Key, set<Key>>) {
    && w.links == [] && w.nodes.Keys == lists.Keys
    && (forall n :: n in lists ==> IsStarted(w.nodes[n], n, lists[n]))
  }

  // ---- every connection is where its link says

  predicate EndOk(links: seq<Link>, n: Key, conn: Conn) {
    && conn.id < |links|
    && (conn.side == Dialer ==> links[conn.id].dialer == n && links[conn.id].listener == conn.remote)
    && (conn.side == Listener ==> links[conn.id].listener == n && links[conn.id].dialer == conn.remote)
  }

  /** A connection that has arrived is no longer on offer. */
  predicate BegunOk(links: seq<Link>, n: Key, conn: Conn) {
    EndOk(links, n, conn) && (conn.side == Listener ==> links[conn.id].arrival == Taken)
  }

  predicate DialEnd(links: seq<Link>, n: Key, d: Dial) {
    d.stage.Handshaking? || d.stage.Sending? || d.stage.Sent? ==> EndOk(links, n, d.stage.conn)
  }

  predicate EventEnd(links: seq<Link>, n: Key, ev: ConnectionEvent) {
    && (ev.OutgoingConnection? ==> EndOk(links, n, ev.conn))
    && (ev.IncomingConnection? ==> EndOk(links, n, ev.conn) && ev.conn.side == Listener)
  }

  ghost predicate EndsOk(links: seq<Link>, n: Key, m: Manager.State) {
    && (forall t :: 0 <= t < |m.dials| ==> DialEnd(links, n, m.dials[t]))
    && (forall i :: 0 <= i < |m.inbox| ==> EventEnd(links, n, m.inbox[i]))
    && (forall conn :: conn in m.accepts ==> EndOk(links, n, conn) && conn.side == Listener)
    && (forall s :: 0 <= s < |m.sessions| ==> EndOk(links, n, m.sessions[s].conn))
    && (m.phase.AnnounceUp? || m.phase.Install? ==> EndOk(links, n, m.phase.conn))
    && (forall conn :: conn in m.begun ==> BegunOk(links, n, conn))
    && (forall l :: l in m.closed ==> l < |links|)
  }

  lemma TaskKeepsEnds(links: seq<Link>, n: Key, m: Manager.State, mv: Move)
    requires EndsOk(links, n, m) && Enabled(m, mv)
    requires !mv.TakeEvent? && !mv.TakeAction? && !mv.FinishHandler?
    requires mv.DialAttempt? || mv.AcceptUp? ==> BegunOk(links, n, mv.conn)
    ensures EndsOk(links, n, Do(m, mv))
  {}

  lemma TakeEventKeepsEnds(links: seq<Link>, n: Key, m: Manager.State)
    requires EndsOk(links, n, m) && ManagerRuns.Inv(m) && Enabled(m, TakeEvent)
    ensures EndsOk(links, n, Do(m, TakeEvent))
  {
    var ev := m.inbox[0];
    assert EventEnd(links, n, ev);
    assert Subject(ev) in m.table ==> EntryOk(m, Subject(ev));
  }

  lemma SendKeepsEnds(links: seq<Link>, n: Key, m: Manager.State, p: Packet, to: Key)
    requires EndsOk(links, n, m)
    ensures EndsOk(links, n, BeginCoreAction(m, SendPacketTo(p, to)))
  {}

  lemma FinishKeepsEnds(links: seq<Link>, n: Key, m: Manager.State)
    requires EndsOk(links, n, m)
    ensures EndsOk(links, n, Finish(m))
  {}

  predicate SameLink(x: Link, y: Link) {
    y.dialer == x.dialer && y.listener == x.listener && (x.arrival != Offered ==> y.arrival == x.arrival)
  }

  /** Links only grow, never change who they join, and arrive once. */
  ghost predicate Extends(links: seq<Link>, more: seq<Link>) {
    |links| <= |more| && (forall i :: 0 <= i < |links| ==> SameLink(links[i], more[i]))
  }

  lemma EndsExtend(links: seq<Link>, more: seq<Link>, n: Key, m: Manager.State)
    requires EndsOk(links, n, m) && Extends(links, more)
    ensures EndsOk(more, n, m)
  {}

  ghost predicate NodeOk(w: World, n: Key, peers: set<Key>) {
    && n in w.nodes && w.nodes[n].self == n
    && ClosedInv(w.nodes[n], peers) && EndsOk(w.links, n, w.nodes[n])
  }

  /** Nodes of the mesh only dial keys no larger than their own. */
  predicate LinkOk(nodes: set<Key>, link: Link) {
    link.dialer in nodes ==> link.listener <= link.dialer
  }

  ghost predicate Ordered(nodes: set<Key>, links: seq<Link>) {
    forall l :: 0 <= l < |links| ==> LinkOk(nodes, links[l])
  }

  ghost predicate Inv(w: World, lists: map<Key, set<Key>>) {
    && w.nodes.Keys == lists.Keys
    && (forall n :: n in lists ==> NodeOk(w, n, lists[n]))
    && Ordered(w.nodes.Keys, w.links)
  }

  lemma NodeKeeps(w: World, w': World, n: Key, mv: Move, peers: set<Key>)
    requires NodeOk(w, n, peers) && Enabled(w.nodes[n], mv) && Closed(mv)
    requires Extends(w.links, w'.links) && n in w'.nodes && w'.nodes[n] == Do(w.nodes[n], mv)
    requires mv.DialAttempt? || mv.AcceptUp? ==> BegunOk(w'.links, n, mv.conn)
    ensures NodeOk(w', n, peers)
  {
    MoveKeepsClosed(w.nodes[n], mv, peers);
    EndsExtend(w.links, w'.links, n, w.nodes[n]);
    match mv
    case TakeEvent => TakeEventKeepsEnds(w'.links, n, w.nodes[n]);
    case TakeAction(a) => SendKeepsEnds(w'.links, n, w.nodes[n], a.packet, a.to);
    case FinishHandler => FinishKeepsEnds(w'.links, n, w.nodes[n]);
    case _ => TaskKeepsEnds(w'.links, n, w.nodes[n], mv);
  }

  lemma OthersKeep(w: World, w': World, n: Key, peers: set<Key>)
    requires NodeOk(w, n, peers) && Extends(w.links, w'.links) && n in w'.nodes && w'.nodes[n] == w.nodes[n]
    ensures NodeOk(w', n, peers)
  {}

  /** Which node moves, and how. */
  function Mover(w: World, step: Step): (r: Option<(Key, Move)>)
    requires CanStep(w, step)
  {
    match step
    case At(n, mv) => Some((n, mv))
    case Attempt(n, t) => Some((n, DialAttempt(t, Conn(|w.links|, w.nodes[n].dials[t].peer, Dialer))))
    case Arrive(l) =>
      if w.links[l].listener in w.nodes
      then Some((w.links[l].listener, AcceptUp(Conn(l, w.links[l].dialer, Listener)))) else None
    case _ => None
  }

  lemma StepIsMove(w: World, step: Step)
    requires CanStep(w, step)
    ensures var w' := Next(w, step);
            && Extends(w.links, w'.links) && w'.nodes.Keys == w.nodes.Keys
            && match Mover(w, step)
               case None => w'.nodes == w.nodes
               case Some((n, mv)) =>
                 && n in w.nodes && Enabled(w.nodes[n], mv) && Closed(mv) && w'.nodes[n] == Do(w.nodes[n], mv)
                 && (forall j :: j in w.nodes && j != n ==> w'.nodes[j] == w.nodes[j])
                 && (mv.DialAttempt? || mv.AcceptUp? ==> BegunOk(w'.links, n, mv.conn))
  {}

  /** The only new link is the one a step opens. */
  lemma NewLink(w: World, step: Step)
    requires CanStep(w, step)
    ensures var w' := Next(w, step);
            && |w.links| <= |w'.links| <= |w.links| + 1
            && (|w'.links| > |w.links| ==> step.Attempt? || step.Stranger?)
            && (step.Attempt? ==> w'.links[|w.links|] == Link(step.node, w.nodes[step.node].dials[step.t].peer, Offered, false))
            && (step.Stranger? ==> w'.links[|w.links|] == Link(step.dialer, step.listener, Offered, false))
  {}

  lemma OrderedExtends(nodes: set<Key>, links: seq<Link>, more: seq<Link>)
    requires Ordered(nodes, links) && Extends(links, more) && |more| <= |links| + 1
    requires |more| > |links| ==> LinkOk(nodes, more[|links|])
    ensures Ordered(nodes, more)
  {
    forall l | 0 <= l < |more| ensures LinkOk(nodes, more[l]) {
      assert l < |links| ==> SameLink(links[l], more[l]) && LinkOk(nodes, links[l]);
    }
  }

  lemma DialsGoDown(w: World, lists: map<Key, set<Key>>, n: Key, t: nat)
    requires Inv(w, lists) && n in lists && t < |w.nodes[n].dials|
    ensures w.nodes[n].dials[t].peer <= n
  {
    assert NodeOk(w, n, lists[n]);
    assert TokenOk(w.nodes[n], t);
  }

  lemma LinksStayOrdered(w: World, lists: map<Key, set<Key>>, step: Step)
    requires Inv(w, lists) && CanStep(w, step)
    ensures Ordered(w.nodes.Keys, Next(w, step).links)
  {
    StepIsMove(w, step);
    NewLink(w, step);
    if step.Attempt? { DialsGoDown(w, lists, step.node, step.t); }
    OrderedExtends(w.nodes.Keys, w.links, Next(w, step).links);
  }

  lemma StepKeepsInv(w: World, lists: map<Key, set<Key>>, step: Step)
    requires Inv(w, lists) && CanStep(w, step)
    ensures Inv(Next(w, step), lists)
  {
    var w' := Next(w, step);
    StepIsMove(w, step);
    LinksStayOrdered(w, lists, step);
    forall j | j in lists ensures NodeOk(w', j, lists[j]) {
      assert NodeOk(w, j, lists[j]);
      if Mover(w, step).Some? && Mover(w, step).value.0 == j {
        NodeKeeps(w, w', j, Mover(w, step).value.1, lists[j]);
      } else {
        OthersKeep(w, w', j, lists[j]);
      }
    }
  }

  lemma {:induction false} RunKeepsInv(w: World, lists: map<Key, set<Key>>, steps: seq<Step>)
    requires IsBooted(w, lists) && Run(w, steps).Some?
    ensures Inv(Run(w, steps).value, lists)
  {
    if steps == [] {
      forall n | n in lists ensures NodeOk(w, n, lists[n]) {
        StartedClosed(w.nodes[n], n, lists[n]);
      }
    } else {
      var m := |steps| - 1;
      RunKeepsInv(w, lists, steps[..m]);
      StepKeepsInv(Run(w, steps[..m]).value, lists, steps[m]);
    }
  }

  /** An incoming connection from a node of the mesh comes from one with a key no smaller. */
  lemma IncomingFromLarger(w: World, lists: map<Key, set<Key>>, a: Key, i: nat)
    requires Inv(w, lists) && a in lists && i < |w.nodes[a].inbox| && w.nodes[a].inbox[i].IncomingConnection?
    ensures w.nodes[a].inbox[i].conn.remote in w.nodes ==> a <= w.nodes[a].inbox[i].conn.remote
  {
    assert NodeOk(w, a, lists[a]);
    assert EventEnd(w.links, a, w.nodes[a].inbox[i]);
    assert LinkOk(w.nodes.Keys, w.links[w.nodes[a].inbox[i].conn.id]);
  }
}
