/** Whole nodes joined by a network that authenticates, and may lose and reorder, but not repeat datagrams: what is
    written to TUN at one node had come from TUN at another. */
module EndToEnd {
  import opened Wire
  import opened Seqs
  import opened Manager
  import opened ManagerRuns
  import opened ManagerTraffic
  import opened CoreRuns
  import opened Node
  import opened NodeForwarding
  import opened NodeInbound
  import Core

  datatype Datagram = Datagram(from: Key, to: Key, packet: Packet)

  /** `wire` holds the datagrams handed to a connection between two nodes and not delivered yet; some never will be. */
  datatype Net = Net(nodes: map<Key, Node.State>, wire: multiset<Datagram>)

  datatype Act = Act(at: Key, step: Step)

  function Transmits(at: Key, n: Node.State, step: Step): (r: multiset<Datagram>)
    requires CanStep(n, step)
  {
    if step.Local? && step.mv.SessionTransmit?
    then var s := n.mgr.sessions[step.mv.s]; multiset{Datagram(at, s.conn.remote, s.outbox[0])} else multiset{}
  }

  function Delivers(at: Key, n: Node.State, step: Step): (r: multiset<Datagram>)
    requires CanStep(n, step)
  {
    if step.Local? && step.mv.SessionReceive?
    then multiset{Datagram(n.mgr.sessions[step.mv.s].conn.remote, at, step.mv.packet)} else multiset{}
  }

  /** A datagram from a node of the network is one that node sent here; whoever is outside may send anything. */
  predicate CanAct(w: Net, act: Act) {
    && act.at in w.nodes && CanStep(w.nodes[act.at], act.step)
    && forall d :: d in Delivers(act.at, w.nodes[act.at], act.step) && d.from in w.nodes ==> d in w.wire
  }

  function After(w: Net, act: Act): (r: Net)
    requires CanAct(w, act)
  {
    var n := w.nodes[act.at];
    Net(w.nodes[act.at := Node.Next(n, act.step)],
        w.wire - Delivers(act.at, n, act.step) + Transmits(act.at, n, act.step))
  }

  function Play(w: Net, acts: seq<Act>): (r: Option<Net>) {
    if acts == [] then Some(w)
    else
      match Play(w, acts[..|acts| - 1])
      case None => None
      case Some(w1) => if CanAct(w1, acts[|acts| - 1]) then Some(After(w1, acts[|acts| - 1])) else None
  }

  ghost predicate IsUp(w: Net, configs: map<Key, Core.Config>) {
    && w.nodes.Keys == configs.Keys && w.wire == multiset{}
    && (forall k :: k in configs ==> Node.IsBooted(w.nodes[k], k, configs[k]))
  }

  // ---- each node makes a run of its own

  ghost predicate HasRun(n: Node.State, n': Node.State) {
    exists steps :: Node.Run(n, steps) == Some(n')
  }

  lemma RunGrows(n: Node.State, n': Node.State, step: Step)
    requires HasRun(n, n') && CanStep(n', step)
    ensures HasRun(n, Node.Next(n', step))
  {
    var steps :| Node.Run(n, steps) == Some(n');
    assert Node.Run(n, steps + [step]) == Some(Node.Next(n', step));
  }

  lemma {:induction false} NodesHaveRuns(w: Net, acts: seq<Act>, k: Key)
    requires Play(w, acts).Some? && k in w.nodes
    ensures k in Play(w, acts).value.nodes && HasRun(w.nodes[k], Play(w, acts).value.nodes[k])
    ensures Play(w, acts).value.nodes.Keys == w.nodes.Keys
  {
    if acts == [] {
      assert Node.Run(w.nodes[k], []) == Some(w.nodes[k]);
    } else {
      var n := |acts| - 1;
      NodesHaveRuns(w, acts[..n], k);
      if acts[n].at == k {
        RunGrows(w.nodes[k], Play(w, acts[..n]).value.nodes[k], acts[n].step);
      }
    }
  }

  // ---- what a node has handed to its connections, and what it has heard

  function CarriedBy(k: Key): (f: Session -> seq<Packet>) {
    (s: Session) => if s.conn.remote == k then s.carried else []
  }

  function CarriedTo(m: Manager.State, k: Key): (r: seq<Packet>) {
    Pick(m.sessions, CarriedBy(k))
  }

  ghost predicate SameCarried(m: Manager.State, m': Manager.State) {
    && |m.sessions| <= |m'.sessions|
    && (forall s :: 0 <= s < |m.sessions| ==>
          m'.sessions[s].conn == m.sessions[s].conn && m'.sessions[s].carried == m.sessions[s].carried)
    && (forall s :: |m.sessions| <= s < |m'.sessions| ==> m'.sessions[s].carried == [])
  }

  lemma EventCarriesNothing(m: Manager.State, ev: ConnectionEvent)
    ensures SameCarried(m, BeginConnEvent(m, ev))
  {}

  lemma ActionCarriesNothing(m: Manager.State, a: CoreAction)
    ensures SameCarried(m, BeginCoreAction(m, a))
  {}

  lemma FinishCarriesNothing(m: Manager.State)
    ensures SameCarried(m, Finish(m))
  {}

  lemma OthersCarryNothing(m: Manager.State, mv: Move)
    requires Enabled(m, mv) && !mv.SessionTransmit?
    ensures SameCarried(m, Do(m, mv))
  {
    match mv
    case TakeEvent => EventCarriesNothing(m.(inbox := m.inbox[1..]), m.inbox[0]);
    case TakeAction(a) => ActionCarriesNothing(m, a);
    case FinishHandler => FinishCarriesNothing(m);
    case _ =>
  }

  lemma SameCarriedTo(m: Manager.State, m': Manager.State, k: Key)
    requires SameCarried(m, m')
    ensures CarriedTo(m', k) == CarriedTo(m, k)
  {
    PickSame(m.sessions, m'.sessions, CarriedBy(k));
  }

  /** One move hands at most one packet to a connection. */
  lemma MoveCarries(m: Manager.State, mv: Move, k: Key, p: Packet)
    requires Enabled(m, mv)
    ensures Count(CarriedTo(Do(m, mv), k), p)
         == Count(CarriedTo(m, k), p)
            + if mv.SessionTransmit? && m.sessions[mv.s].conn.remote == k && m.sessions[mv.s].outbox[0] == p then 1 else 0
  {
    if mv.SessionTransmit? {
      var was, now := m.sessions[mv.s], Do(m, mv).sessions[mv.s];
      PickUpdate(m.sessions, mv.s, now, CarriedBy(k), p);
      CountConcat(was.carried, [was.outbox[0]], p);
    } else {
      OthersCarryNothing(m, mv);
      SameCarriedTo(m, Do(m, mv), k);
    }
  }

  // ---- nothing is heard that was not handed to a connection

  /** For a datagram from `d.from` to `d.to`: how often it was heard and is still under way is at most how often it was
      handed to a connection. */
  ghost predicate Backed(w: Net, d: Datagram)
    requires d.from in w.nodes && d.to in w.nodes
  {
    Count(Heard(w.nodes[d.to].mgr, d.from), d.packet) + w.wire[d] <= Count(CarriedTo(w.nodes[d.from].mgr, d.to), d.packet)
  }

  lemma MoveHearsOne(m: Manager.State, mv: Move, k: Key, p: Packet)
    requires Enabled(m, mv)
    ensures Count(Heard(Do(m, mv), k), p)
         <= Count(Heard(m, k), p)
            + if mv.SessionReceive? && m.sessions[mv.s].conn.remote == k && mv.packet == p then 1 else 0
  {
    MoveHears(m, mv, k);
    if mv.SessionReceive? { CountConcat(Heard(m, k), [mv.packet], p); }
  }

  /** The manager's part in a step of its node. */
  lemma StepMoves(n: Node.State, step: Step)
    requires CanStep(n, step)
    ensures match MoveOf(n, step)
            case Some(mv) => Enabled(n.mgr, mv) && Node.Next(n, step).mgr == Do(n.mgr, mv)
            case None => Node.Next(n, step).mgr == n.mgr
  {}

  lemma StepHears(at: Key, n: Node.State, step: Step, d: Datagram)
    requires CanStep(n, step) && d.to == at
    ensures Count(Heard(Node.Next(n, step).mgr, d.from), d.packet)
         <= Count(Heard(n.mgr, d.from), d.packet) + Delivers(at, n, step)[d]
  {
    StepMoves(n, step);
    if MoveOf(n, step).Some? { MoveHearsOne(n.mgr, MoveOf(n, step).value, d.from, d.packet); }
  }

  lemma StepCarries(at: Key, n: Node.State, step: Step, d: Datagram)
    requires CanStep(n, step) && d.from == at
    ensures Count(CarriedTo(Node.Next(n, step).mgr, d.to), d.packet)
         == Count(CarriedTo(n.mgr, d.to), d.packet) + Transmits(at, n, step)[d]
  {
    StepMoves(n, step);
    if MoveOf(n, step).Some? { MoveCarries(n.mgr, MoveOf(n, step).value, d.to, d.packet); }
  }

  lemma ActKeepsBacked(w: Net, act: Act, d: Datagram)
    requires CanAct(w, act) && d.from in w.nodes && d.to in w.nodes && Backed(w, d)
    ensures Backed(After(w, act), d)
  {
    var n := w.nodes[act.at];
    if act.at == d.to { StepHears(act.at, n, act.step, d); }
    if act.at == d.from { StepCarries(act.at, n, act.step, d); }
  }

  lemma {:induction false} PlayKeepsBacked(w: Net, configs: map<Key, Core.Config>, acts: seq<Act>, d: Datagram)
    requires IsUp(w, configs) && Play(w, acts).Some? && d.from in configs && d.to in configs
    ensures Play(w, acts).value.nodes.Keys == configs.Keys && Backed(Play(w, acts).value, d)
  {
    NodesHaveRuns(w, acts, d.from);
    if acts != [] {
      var n := |acts| - 1;
      PlayKeepsBacked(w, configs, acts[..n], d);
      ActKeepsBacked(Play(w, acts[..n]).value, acts[n], d);
    }
  }

  // ---- nothing is handed to a connection that the manager did not relay

  function LoadOf(k: Key): (f: Session -> seq<Packet>) {
    (s: Session) => if s.conn.remote == k then s.carried + s.outbox else []
  }

  ghost predicate LoadsRelayed(m: Manager.State, k: Key, p: Packet) {
    Count(Pick(m.sessions, LoadOf(k)), p) == Count(Pick(m.relayed, ParcelFor(k)), p)
  }

  lemma SameLoadsRelayed(m: Manager.State, m': Manager.State, k: Key, p: Packet)
    requires LoadsRelayed(m, k, p) && SameLoads(m, m')
    ensures LoadsRelayed(m', k, p)
  {
    forall i | 0 <= i < |m.sessions| ensures LoadOf(k)(m'.sessions[i]) == LoadOf(k)(m.sessions[i]) {
      assert SameLoad(m.sessions[i], m'.sessions[i]);
    }
    PickSame(m.sessions, m'.sessions, LoadOf(k));
  }

  lemma RelayKeepsLoads(m: Manager.State, q: Packet, to: Key, k: Key, p: Packet)
    requires ManagerRuns.Inv(m) && LoadsRelayed(m, k, p)
    ensures LoadsRelayed(BeginCoreAction(m, SendPacketTo(q, to)), k, p)
  {
    RelayAppends(m, q, to);
    RelayFeeds(m, q, to);
    if Takes(m, to) {
      assert EntryOk(m, to);
      var s := m.table[to].session;
      LoadsGrow(m.sessions, s, q, k, p);
      PickSnoc(m.relayed, Parcel(to, q, s), ParcelFor(k));
      CountConcat(Pick(m.relayed, ParcelFor(k)), ParcelFor(k)(Parcel(to, q, s)), p);
    }
  }

  lemma RelayFeeds(m: Manager.State, q: Packet, to: Key)
    ensures var m' := BeginCoreAction(m, SendPacketTo(q, to));
            m'.sessions == if Takes(m, to)
                           then var s := m.table[to].session;
                                m.sessions[s := m.sessions[s].(outbox := m.sessions[s].outbox + [q])]
                           else m.sessions
  {}

  lemma LoadsGrow(sessions: seq<Session>, s: nat, q: Packet, k: Key, p: Packet)
    requires s < |sessions|
    ensures var fed := sessions[s].(outbox := sessions[s].outbox + [q]);
            Count(Pick(sessions[s := fed], LoadOf(k)), p)
            == Count(Pick(sessions, LoadOf(k)), p) + if sessions[s].conn.remote == k && q == p then 1 else 0
  {
    var was := sessions[s];
    var fed := was.(outbox := was.outbox + [q]);
    PickUpdate(sessions, s, fed, LoadOf(k), p);
    assert fed.carried + fed.outbox == was.carried + was.outbox + [q];
    CountConcat(was.carried + was.outbox, [q], p);
  }

  lemma MoveKeepsLoads(m: Manager.State, mv: Move, k: Key, p: Packet)
    requires ManagerRuns.Inv(m) && LoadsRelayed(m, k, p) && Enabled(m, mv)
    ensures LoadsRelayed(Do(m, mv), k, p)
  {
    if mv.TakeAction? && mv.action.SendPacketTo? {
      RelayKeepsLoads(m, mv.action.packet, mv.action.to, k, p);
    } else {
      MoveSameLoads(m, mv);
      SameLoadsRelayed(m, Do(m, mv), k, p);
    }
  }

  lemma {:induction false} RunKeepsLoads(m: Manager.State, moves: seq<Move>, k: Key, p: Packet)
    requires ManagerRuns.Inv(m) && LoadsRelayed(m, k, p) && Exec(m, moves).Some?
    ensures LoadsRelayed(Exec(m, moves).value, k, p)
  {
    if moves != [] {
      var n := |moves| - 1;
      RunKeepsLoads(m, moves[..n], k, p);
      ManagerRuns.RunKeepsInv(m, moves[..n]);
      MoveKeepsLoads(Exec(m, moves[..n]).value, moves[n], k, p);
    }
  }

  lemma CarriedWereRelayed(n: Node.State, self: Key, config: Core.Config, steps: seq<Step>, k: Key, p: Packet)
    requires Node.IsBooted(n, self, config) && Node.Run(n, steps).Some?
    ensures var r := Node.Run(n, steps).value; Count(CarriedTo(r.mgr, k), p) <= Count(RelayedTo(r, k), p)
  {
    var moves := NodeRunsClosedManager(n, self, config, steps);
    var r := Node.Run(n, steps).value;
    StartedInv(n.mgr, self, config.routes.Values);
    RunKeepsLoads(n.mgr, moves, k, p);
    CarriedIsLoaded(r.mgr.sessions, k, p);
  }

  lemma CarriedIsLoaded(sessions: seq<Session>, k: Key, p: Packet)
    ensures Count(Pick(sessions, CarriedBy(k)), p) <= Count(Pick(sessions, LoadOf(k)), p)
  {
    forall i | 0 <= i < |sessions| ensures Count(CarriedBy(k)(sessions[i]), p) <= Count(LoadOf(k)(sessions[i]), p) {
      CountConcat(sessions[i].carried, sessions[i].outbox, p);
    }
    PickLess(sessions, CarriedBy(k), LoadOf(k), p);
  }

  /** A peer that is not listed never gets anything. */
  lemma {:induction false} RelayedToNobody(relayed: seq<Parcel>, k: Key)
    requires forall i :: 0 <= i < |relayed| ==> relayed[i].to != k
    ensures Pick(relayed, ParcelFor(k)) == []
  {
    if relayed != [] {
      RelayedToNobody(relayed[..|relayed| - 1], k);
    }
  }

  lemma CarriedHadEntered(n: Node.State, self: Key, config: Core.Config, steps: seq<Step>, k: Key, p: Packet)
    requires Node.IsBooted(n, self, config) && Node.Run(n, steps).Some?
    ensures var r := Node.Run(n, steps).value;
            Count(CarriedTo(r.mgr, k), p) <= Count(EnteredFor(config, r.entered, k), p)
  {
    var r := Node.Run(n, steps).value;
    CarriedWereRelayed(n, self, config, steps, k, p);
    if k in config.routes.Values {
      OrderedForwarding(n, self, config, steps, k);
      SubsequenceCounts(RelayedTo(r, k), EnteredFor(config, r.entered, k), p);
    } else {
      RunKeepsWired(n, self, config, steps);
      var moves := NodeRunsClosedManager(n, self, config, steps);
      SessionsCarryTheirParcels(n.mgr, self, config.routes.Values, moves);
      RelayedToNobody(r.mgr.relayed, k);
    }
  }

  // ---- what is written to TUN was heard

  lemma {:induction false} ReportsAreHeard(log: seq<IrohEvent>, config: Core.Config, a: Key, p: Packet)
    requires Receivable(config, p, a)
    ensures Count(Pick(log, ReportOk(config)), p) <= Count(Pick(log, HeardFrom(a)), p)
  {
    forall i | 0 <= i < |log| ensures Count(ReportOk(config)(log[i]), p) <= Count(HeardFrom(a)(log[i]), p) {}
    PickLess(log, ReportOk(config), HeardFrom(a), p);
  }

  lemma SeenIsHeard(log: seq<IrohEvent>, read: nat, a: Key, p: Packet)
    requires read <= |log|
    ensures Count(Pick(log[..read], HeardFrom(a)), p) <= Count(Pick(log, HeardFrom(a)), p)
  {
    assert log == log[..read] + log[read..];
    PickConcat(log[..read], log[read..], HeardFrom(a));
    CountConcat(Pick(log[..read], HeardFrom(a)), Pick(log[read..], HeardFrom(a)), p);
  }

  lemma WrittenWereHeard(n: Node.State, self: Key, config: Core.Config, steps: seq<Step>, a: Key, p: Packet)
    requires Node.IsBooted(n, self, config) && Node.Run(n, steps).Some? && Receivable(config, p, a)
    ensures var r := Node.Run(n, steps).value; Count(r.written, p) <= Count(Heard(r.mgr, a), p)
  {
    InboundForwarding(n, self, config, steps);
    var r := Node.Run(n, steps).value;
    SubsequenceCounts(r.written, Pick(r.mgr.log[..r.read], ReportOk(config)), p);
    ReportsAreHeard(r.mgr.log[..r.read], config, a, p);
    SeenIsHeard(r.mgr.log, r.read, a, p);
  }

  lemma {:induction false} ReportsAreReceivable(log: seq<IrohEvent>, config: Core.Config, p: Packet)
    requires p in Pick(log, ReportOk(config))
    ensures exists a :: Receivable(config, p, a)
  {
    var n := |log| - 1;
    if p in Pick(log[..n], ReportOk(config)) {
      ReportsAreReceivable(log[..n], config, p);
    } else {
      assert Receivable(config, p, log[n].key);
    }
  }

  lemma WrittenHasSource(n: Node.State, self: Key, config: Core.Config, steps: seq<Step>, p: Packet)
    requires Node.IsBooted(n, self, config) && Node.Run(n, steps).Some? && p in Node.Run(n, steps).value.written
    ensures exists a :: Receivable(config, p, a)
  {
    InboundForwarding(n, self, config, steps);
    var r := Node.Run(n, steps).value;
    SubsequenceIn(r.written, Pick(r.mgr.log[..r.read], ReportOk(config)));
    ReportsAreReceivable(r.mgr.log[..r.read], config, p);
  }

  /** End to end, over every run of any number of whole nodes: a packet written to TUN at `b` comes from an address that
      `b`'s configuration gives to some `a`; and if `a` is a node of the network, `b` has written it no more often than it
      came from TUN at `a` and was, by its bytes, deliverable to `b`. */
  lemma WrittenHadEntered(w: Net, configs: map<Key, Core.Config>, acts: seq<Act>, b: Key, p: Packet)
    requires IsUp(w, configs) && Play(w, acts).Some? && b in configs
    ensures Play(w, acts).value.nodes.Keys == configs.Keys
    ensures p in Play(w, acts).value.nodes[b].written ==> exists a :: Receivable(configs[b], p, a)
    ensures forall a :: a in configs && Receivable(configs[b], p, a) ==>
              Count(Play(w, acts).value.nodes[b].written, p)
              <= Count(EnteredFor(configs[a], Play(w, acts).value.nodes[a].entered, b), p)
  {
    NodesHaveRuns(w, acts, b);
    var r := Play(w, acts).value;
    var steps :| Node.Run(w.nodes[b], steps) == Some(r.nodes[b]);
    if p in r.nodes[b].written { WrittenHasSource(w.nodes[b], b, configs[b], steps, p); }
    forall a | a in configs && Receivable(configs[b], p, a)
      ensures Count(r.nodes[b].written, p) <= Count(EnteredFor(configs[a], r.nodes[a].entered, b), p)
    {
      NodesHaveRuns(w, acts, a);
      var from :| Node.Run(w.nodes[a], from) == Some(r.nodes[a]);
      WrittenWereHeard(w.nodes[b], b, configs[b], steps, a, p);
      PlayKeepsBacked(w, configs, acts, Datagram(a, b, p));
      CarriedHadEntered(w.nodes[a], a, configs[a], from, b, p);
    }
  }
}
