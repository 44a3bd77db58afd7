/** The manager as main wires it (src/main.rs:38-84): the coordinator only ever asks it to send packets. */
module ClosedRuns {
  import opened Wire
  import opened Manager
  import opened ManagerRuns

  predicate Closed(mv: Move) {
    mv.TakeAction? ==> mv.action.SendPacketTo?
  }

  /** Roles follow the order of the keys, and no entry is Disconnected. */
  predicate RoleOk(self: Key, k: Key, e: Entry) {
    && !e.Disconnected?
    && (e.Connecting? ==> k <= self)
    && (e.WaitingIncomingConnection? ==> self < k)
  }

  /** A dial that will still be heard of is the one its peer's entry waits for. */
  predicate TokenOk(m: State, t: nat)
    requires t < |m.dials|
  {
    var k := m.dials[t].peer;
    && !m.dials[t].aborted && k in m.table && k <= m.self
    && (Pending(m, t) <==> m.table[k] == Connecting(t) && !Touched(m.phase, k))
  }

  predicate About(e: IrohEvent, peers: set<Key>) {
    match e
    case ConnectedToPeer(k) => k in peers
    case DisconnectedFromPeer(k) => k in peers
    case RecvPacketFrom(_, k) => k in peers
  }

  predicate ClosedPhase(phase: Phase) {
    match phase
    case AnnounceDown(_, redial) => redial
    case Retire(_, redial) => redial
    case Stopped => false
    case _ => true
  }

  /** No two queued messages come from the same dial task. */
  ghost predicate OncePerDial(inbox: seq<ConnectionEvent>) {
    forall i, j :: 0 <= i < j < |inbox| && inbox[i].OutgoingConnection? && inbox[j].OutgoingConnection? ==>
                     inbox[i].dial != inbox[j].dial
  }

  ghost predicate Tokens(m: State) {
    && (forall t :: 0 <= t < |m.dials| ==> TokenOk(m, t))
    && OncePerDial(m.inbox)
    && (forall i :: 0 <= i < |m.inbox| ==> !m.inbox[i].InternalError?)
    && ClosedPhase(m.phase)
  }

  ghost predicate Whitelisted(m: State, peers: set<Key>) {
    && m.table.Keys == peers
    && (forall k :: k in m.table ==> RoleOk(m.self, k, m.table[k]))
    && (forall i :: 0 <= i < |m.log| ==> About(m.log[i], peers))
    && (forall s :: 0 <= s < |m.sessions| ==> m.sessions[s].conn.remote in peers)
  }

  ghost predicate ClosedInv(m: State, peers: set<Key>) {
    Inv(m) && Tokens(m) && Whitelisted(m, peers)
  }

  lemma StartedClosed(m: State, self: Key, peers: set<Key>)
    requires IsStarted(m, self, peers)
    ensures ClosedInv(m, peers)
  {}

  lemma TaskKeepsWhitelist(m: State, mv: Move, peers: set<Key>)
    requires Whitelisted(m, peers) && Enabled(m, mv)
    requires !mv.TakeEvent? && !mv.TakeAction? && !mv.SendReport? && !mv.FinishHandler?
    ensures Whitelisted(Do(m, mv), peers)
  {}

  lemma TakeKeepsWhitelist(m: State, mv: Move, peers: set<Key>)
    requires Whitelisted(m, peers) && Enabled(m, mv) && Closed(mv) && (mv.TakeEvent? || mv.TakeAction?)
    ensures Whitelisted(Do(m, mv), peers)
  {
    assert Do(m, mv).table == m.table;
  }

  lemma FinishKeepsWhitelist(m: State, peers: set<Key>)
    requires PhaseOk(m) && ClosedPhase(m.phase) && Whitelisted(m, peers)
    ensures Whitelisted(Finish(m), peers)
  {}

  lemma MoveKeepsWhitelist(m: State, mv: Move, peers: set<Key>)
    requires Inv(m) && ClosedPhase(m.phase) && Whitelisted(m, peers) && Enabled(m, mv) && Closed(mv)
    ensures Whitelisted(Do(m, mv), peers)
  {
    match mv
    case TakeEvent => TakeKeepsWhitelist(m, mv, peers);
    case TakeAction(_) => TakeKeepsWhitelist(m, mv, peers);
    case SendReport =>
    case FinishHandler => FinishKeepsWhitelist(m, peers);
    case _ => TaskKeepsWhitelist(m, mv, peers);
  }

  lemma TaskKeepsTokens(m: State, mv: Move)
    requires Inv(m) && Tokens(m) && Enabled(m, mv)
    requires !mv.TakeEvent? && !mv.TakeAction? && !mv.SendReport? && !mv.FinishHandler?
    ensures Tokens(Do(m, mv))
  {
    var m' := Do(m, mv);
    assert m.inbox <= m'.inbox;
    forall t | 0 <= t < |m'.dials| ensures TokenOk(m', t) {
      assert TokenOk(m, t);
    }
    forall i | 0 <= i < |m.inbox| && m.inbox[i].OutgoingConnection?
      ensures m.inbox[i].dial < |m.dials| && m.dials[m.inbox[i].dial].stage.Sent?
    {
      assert EventOk(m.dials, m.sessions, m.inbox[i]);
    }
  }

  lemma HeadMeetsItsEntry(m: State)
    requires Inv(m) && Tokens(m) && m.phase == Idle && m.inbox != [] && m.inbox[0].OutgoingConnection?
    ensures var conn := m.inbox[0].conn;
            && conn.remote in m.table && m.table[conn.remote] == Connecting(m.inbox[0].dial)
            && m.inbox[0].dial < |m.dials| && m.dials[m.inbox[0].dial].stage == Sent(conn)
            && BeginConnEvent(m, m.inbox[0]) == m.(phase := AnnounceUp(conn))
  {
    assert EventOk(m.dials, m.sessions, m.inbox[0]);
    assert TokenOk(m, m.inbox[0].dial) && DialOk(m.dials[m.inbox[0].dial]);
  }

  lemma OutgoingKeepsTokens(m: State)
    requires Inv(m) && Tokens(m) && Enabled(m, TakeEvent) && m.inbox[0].OutgoingConnection?
    ensures Tokens(Do(m, TakeEvent))
  {
    HeadMeetsItsEntry(m);
    var ev, m' := m.inbox[0], m.(inbox := m.inbox[1..], phase := AnnounceUp(m.inbox[0].conn));
    assert m.inbox == [ev] + m'.inbox;
    forall t | 0 <= t < |m'.dials| ensures TokenOk(m', t) {
      assert TokenOk(m, t);
    }
  }

  /** A handler begun for anything but an outgoing connection touches no Connecting entry. */
  lemma EventTouches(m: State, ev: ConnectionEvent)
    requires m.phase == Idle && !ev.OutgoingConnection? && !ev.InternalError?
    ensures var m' := BeginConnEvent(m, ev);
            && m'.self == m.self && m'.dials == m.dials && m'.table == m.table && m'.inbox == m.inbox
            && ClosedPhase(m'.phase)
            && (forall k :: k in m.table && m.table[k].Connecting? ==> !Touched(m'.phase, k))
  {}

  lemma OtherEventKeepsTokens(m: State)
    requires Inv(m) && Tokens(m) && Enabled(m, TakeEvent) && !m.inbox[0].OutgoingConnection?
    ensures Tokens(Do(m, TakeEvent))
  {
    var m', ev := Do(m, TakeEvent), m.inbox[0];
    assert m.inbox == [ev] + m.inbox[1..];
    EventTouches(m.(inbox := m.inbox[1..]), ev);
    forall t | 0 <= t < |m'.dials| ensures TokenOk(m', t) {
      assert TokenOk(m, t) && (Pending(m', t) <==> Pending(m, t));
    }
  }

  lemma FinishKeepsTokens(m: State)
    requires Inv(m) && Tokens(m)
    ensures Tokens(Finish(m))
  {
    var m' := Finish(m);
    forall t | 0 <= t < |m'.dials| ensures TokenOk(m', t) {
      assert t < |m.dials| ==> TokenOk(m, t);
    }
  }

  lemma RestKeepsTokens(m: State, mv: Move)
    requires Inv(m) && Tokens(m) && Enabled(m, mv) && Closed(mv) && (mv.TakeAction? || mv.SendReport?)
    ensures Tokens(Do(m, mv))
  {
    var m' := Do(m, mv);
    forall t | 0 <= t < |m'.dials| ensures TokenOk(m', t) {
      assert TokenOk(m, t);
    }
  }

  lemma MoveKeepsClosed(m: State, mv: Move, peers: set<Key>)
    requires ClosedInv(m, peers) && Enabled(m, mv) && Closed(mv)
    ensures ClosedInv(Do(m, mv), peers)
  {
    MoveKeepsInv(m, mv);
    MoveKeepsWhitelist(m, mv, peers);
    match mv
    case TakeEvent => if m.inbox[0].OutgoingConnection? { OutgoingKeepsTokens(m); } else { OtherEventKeepsTokens(m); }
    case FinishHandler => FinishKeepsTokens(m);
    case TakeAction(_) => RestKeepsTokens(m, mv);
    case SendReport => RestKeepsTokens(m, mv);
    case _ => TaskKeepsTokens(m, mv);
  }

  lemma {:induction false} RunKeepsClosed(m: State, self: Key, peers: set<Key>, moves: seq<Move>)
    requires IsStarted(m, self, peers) && Exec(m, moves).Some?
    requires forall i :: 0 <= i < |moves| ==> Closed(moves[i])
    ensures ClosedInv(Exec(m, moves).value, peers) && Exec(m, moves).value.self == self
  {
    if moves == [] {
      StartedClosed(m, self, peers);
    } else {
      var n := |moves| - 1;
      RunKeepsClosed(m, self, peers, moves[..n]);
      MoveKeepsClosed(Exec(m, moves[..n]).value, moves[n], peers);
    }
  }

  // ---- main results

  function LiveDials(m: State, k: Key): (r: set<nat>) {
    set t | 0 <= t < |m.dials| && m.dials[t].peer == k && !m.dials[t].stage.Sent? && !m.dials[t].stage.Cancelled?
  }

  function QueuedDials(m: State, k: Key): (r: set<nat>) {
    set i | 0 <= i < |m.inbox| && m.inbox[i].OutgoingConnection? && m.inbox[i].conn.remote == k
  }

  /** Dial-token conservation: dial tasks at work plus queued outgoing connections for a peer number exactly one when
      its entry is Connecting (and not being rewritten), and none otherwise. */
  lemma DialTokens(m: State, peers: set<Key>, k: Key)
    requires ClosedInv(m, peers) && k in peers
    ensures |LiveDials(m, k)| + |QueuedDials(m, k)|
         == if m.table[k].Connecting? && !Touched(m.phase, k) then 1 else 0
  {
    forall t | t in LiveDials(m, k) ensures m.table[k] == Connecting(t) && !Touched(m.phase, k) {
      assert TokenOk(m, t);
    }
    forall i | i in QueuedDials(m, k)
      ensures m.table[k] == Connecting(m.inbox[i].dial) && !Touched(m.phase, k) && m.inbox[i].dial !in LiveDials(m, k)
    {
      assert EventOk(m.dials, m.sessions, m.inbox[i]);
      assert TokenOk(m, m.inbox[i].dial) && DialOk(m.dials[m.inbox[i].dial]);
    }
    if m.table[k].Connecting? && !Touched(m.phase, k) {
      var t := m.table[k].dial;
      assert EntryOk(m, k) && TokenOk(m, t);
      if t in LiveDials(m, k) {
        assert LiveDials(m, k) == {t} && QueuedDials(m, k) == {};
      } else {
        var conn := m.dials[t].stage.conn;
        var i :| 0 <= i < |m.inbox| && m.inbox[i] == OutgoingConnection(conn, t);
        assert DialOk(m.dials[t]);
        assert LiveDials(m, k) == {} && QueuedDials(m, k) == {i};
      }
    } else {
      assert LiveDials(m, k) == {} && QueuedDials(m, k) == {};
    }
  }

  /** Dial tokens over every closed run; and an outgoing connection always meets the Connecting entry of the very task
      that made it, so none of the other arms of its handler is ever taken. */
  lemma DialTokensConserved(m: State, self: Key, peers: set<Key>, moves: seq<Move>)
    requires IsStarted(m, self, peers) && Exec(m, moves).Some?
    requires forall i :: 0 <= i < |moves| ==> Closed(moves[i])
    ensures var r := Exec(m, moves).value;
            && (forall k :: k in peers ==>
                  |LiveDials(r, k)| + |QueuedDials(r, k)|
                  == if k in r.table && r.table[k].Connecting? && !Touched(r.phase, k) then 1 else 0)
            && (r.phase == Idle && r.inbox != [] && r.inbox[0].OutgoingConnection? ==>
                  var conn := r.inbox[0].conn;
                  && conn.remote in r.table && r.table[conn.remote] == Connecting(r.inbox[0].dial)
                  && BeginConnEvent(r, r.inbox[0]) == r.(phase := AnnounceUp(conn)))
  {
    RunKeepsClosed(m, self, peers, moves);
    var r := Exec(m, moves).value;
    forall k | k in peers
      ensures |LiveDials(r, k)| + |QueuedDials(r, k)|
           == if k in r.table && r.table[k].Connecting? && !Touched(r.phase, k) then 1 else 0
    {
      DialTokens(r, peers, k);
    }
    if r.phase == Idle && r.inbox != [] && r.inbox[0].OutgoingConnection? {
      HeadMeetsItsEntry(r);
    }
  }

  /** Whitelist and roles over every closed run: the table's domain never changes, no entry is Disconnected, whoever is
      dialed has a key no larger than ours, whoever is awaited a larger one, and every report names a known peer. */
  lemma ClosedTable(m: State, self: Key, peers: set<Key>, moves: seq<Move>)
    requires IsStarted(m, self, peers) && Exec(m, moves).Some?
    requires forall i :: 0 <= i < |moves| ==> Closed(moves[i])
    ensures var r := Exec(m, moves).value;
            && r.table.Keys == peers && r.phase != Stopped
            && (forall k :: k in peers ==>
                  && !r.table[k].Disconnected?
                  && (r.table[k].Connecting? ==> k <= self)
                  && (r.table[k].WaitingIncomingConnection? ==> self < k))
            && (forall i :: 0 <= i < |r.log| ==> About(r.log[i], peers))
  {
    RunKeepsClosed(m, self, peers, moves);
    var r := Exec(m, moves).value;
    forall k | k in peers ensures RoleOk(self, k, r.table[k]) {}
  }
}
