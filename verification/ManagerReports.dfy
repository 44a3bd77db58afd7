/** What the manager reports to the coordinator, over every run and under any actions. */
module ManagerReports {
  import opened Wire
  import opened Manager
  import opened ManagerRuns

  /** What a reader of the reports believes about `k` after reading all of them. */
  predicate FlagAfter(log: seq<IrohEvent>, k: Key) {
    if log == [] then false
    else
      match log[|log| - 1]
      case ConnectedToPeer(j) => j == k || FlagAfter(log[..|log| - 1], k)
      case DisconnectedFromPeer(j) => j != k && FlagAfter(log[..|log| - 1], k)
      case RecvPacketFrom(_, _) => FlagAfter(log[..|log| - 1], k)
  }

  /** What the manager shows for `k`: its table entry, except between a report and the entry it announces. */
  predicate Shown(m: State, k: Key) {
    match m.phase
    case Install(conn) => if conn.remote == k then true else k in m.table && m.table[k].Connected?
    case Retire(j, _) => if j == k then false else k in m.table && m.table[k].Connected?
    case _ => k in m.table && m.table[k].Connected?
  }

  /** A disconnect is reported only for a peer last reported connected: (Connected+ Disconnected)* for each peer. */
  ghost predicate Grammatical(log: seq<IrohEvent>, k: Key) {
    forall i :: 0 <= i < |log| && log[i] == DisconnectedFromPeer(k) ==> FlagAfter(log[..i], k)
  }

  ghost predicate Told(m: State, k: Key) {
    FlagAfter(m.log, k) == Shown(m, k) && Grammatical(m.log, k)
  }

  lemma AppendReport(log: seq<IrohEvent>, e: IrohEvent, k: Key)
    requires Grammatical(log, k) && (e == DisconnectedFromPeer(k) ==> FlagAfter(log, k))
    ensures Grammatical(log + [e], k)
    ensures FlagAfter(log + [e], k) ==
            if e == ConnectedToPeer(k) then true else if e == DisconnectedFromPeer(k) then false else FlagAfter(log, k)
  {
    var all := log + [e];
    assert all[..|log|] == log;
    forall i | 0 <= i < |all| && all[i] == DisconnectedFromPeer(k) ensures FlagAfter(all[..i], k) {
      assert all[..i] == log[..i];
    }
  }

  lemma EventKeepsShown(m: State, ev: ConnectionEvent, k: Key)
    requires m.phase == Idle
    ensures var m' := BeginConnEvent(m, ev); m'.log == m.log && Shown(m', k) == Shown(m, k)
  {}

  lemma ActionKeepsShown(m: State, a: CoreAction, k: Key)
    requires m.phase == Idle
    ensures var m' := BeginCoreAction(m, a); m'.log == m.log && Shown(m', k) == Shown(m, k)
  {}

  lemma FinishKeepsShown(m: State, k: Key)
    ensures var m' := Finish(m); m'.log == m.log && Shown(m', k) == Shown(m, k)
  {}

  lemma ReportKeepsTold(m: State, k: Key)
    requires Told(m, k) && PhaseOk(m)
    ensures Told(Report(m), k)
  {
    match m.phase
    case AnnounceUp(conn) => AppendReport(m.log, ConnectedToPeer(conn.remote), k);
    case AnnounceDown(j, _) => AppendReport(m.log, DisconnectedFromPeer(j), k);
    case _ =>
  }

  lemma MoveKeepsTold(m: State, mv: Move, k: Key)
    requires Told(m, k) && PhaseOk(m) && Enabled(m, mv)
    ensures Told(Do(m, mv), k)
  {
    match mv
    case TakeEvent => EventKeepsShown(m.(inbox := m.inbox[1..]), m.inbox[0], k);
    case TakeAction(a) => ActionKeepsShown(m, a, k);
    case SendReport => ReportKeepsTold(m, k);
    case FinishHandler => FinishKeepsShown(m, k);
    case SessionReceive(s, p, room) => AppendReport(m.log, RecvPacketFrom(p, m.sessions[s].conn.remote), k);
    case _ =>
  }

  /** View at the manager, over every run and under any actions: replaying everything reported so far gives, for each
      peer, exactly whether its entry is Connected (up to the entry the handler in progress has just announced); and no
      disconnect is ever reported for a peer not reported connected. */
  lemma {:induction false} ReportsTellTable(m: State, self: Key, peers: set<Key>, moves: seq<Move>, k: Key)
    requires IsStarted(m, self, peers) && Exec(m, moves).Some?
    ensures Told(Exec(m, moves).value, k)
  {
    if moves != [] {
      var n := |moves| - 1;
      ReportsTellTable(m, self, peers, moves[..n], k);
      StartedInv(m, self, peers);
      RunKeepsInv(m, moves[..n]);
      MoveKeepsTold(Exec(m, moves[..n]).value, moves[n], k);
    }
  }
}
