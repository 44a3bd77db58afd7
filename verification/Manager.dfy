/** The per-peer connection manager (src/iroh.rs) with the tasks it spawns.

    A handler is split at its `send().await`: the part before it, the send itself and the part after it are separate
    steps, joined by the `phase` field, because other tasks and the coordinator run in between. */
module Manager {
  import opened Wire

  /** The end of a connection this node holds: the dialing one or the accepting one. */
  datatype Side = Dialer | Listener

  datatype Conn = Conn(id: nat, remote: Key, side: Side)

  datatype Entry =
    | Connected(session: nat, conn: Conn)
    | Connecting(dial: nat)
    | WaitingIncomingConnection
    | Disconnected

  datatype IrohEvent =
    | ConnectedToPeer(key: Key)
    | DisconnectedFromPeer(key: Key)
    | RecvPacketFrom(packet: Packet, key: Key)

  datatype CoreAction =
    | SendPacketTo(packet: Packet, to: Key)
    | ConnectToPeer(key: Key)
    | DisconnectFromPeer(key: Key)

  /** `dial` and `session` name the task that sent the message; no handler looks at them. */
  datatype ConnectionEvent =
    | OutgoingConnection(conn: Conn, dial: nat)
    | IncomingConnection(conn: Conn)
    | SessionEnded(key: Key, session: nat)
    | InternalError

  // ---- spawned tasks; a task's number is its position in the order of spawning

  /** `connect_to_peer`: between attempts, in a handshake, waiting for room in the manager's queue, message sent, or
      cancelled after an abort. */
  datatype DialStage = Resting | Handshaking(conn: Conn) | Sending(conn: Conn) | Sent(conn: Conn) | Cancelled

  datatype Dial = Dial(peer: Key, stage: DialStage, aborted: bool)

  /** `on_peer_connected`: relaying datagrams, waiting to report the lost connection, or returned. */
  datatype SessionStage = Relaying | Reporting | Over

  /** `outbox` is the packet channel; `carried` are the packets already taken from it and handed to the connection. */
  datatype Session = Session(conn: Conn, stage: SessionStage, aborted: bool, senderOpen: bool,
                             outbox: seq<Packet>, carried: seq<Packet>)

  /** Where the manager stands inside a handler. */
  datatype Phase =
    | Idle
    | AnnounceUp(conn: Conn)                   // init_ready_connection before its report is in the channel
    | Install(conn: Conn)                      // ... and before the table entry is written
    | AnnounceDown(key: Key, redial: bool)     // a disconnect report not yet in the channel
    | Retire(key: Key, redial: bool)           // ... and the table entry not yet replaced
    | Stopped                                  // run() returned

  /** A packet put into the channel of one session with peer `to`. */
  datatype Parcel = Parcel(to: Key, packet: Packet, session: nat)

  datatype State = State(
    self: Key,
    table: map<Key, Entry>,
    phase: Phase,
    inbox: seq<ConnectionEvent>,     // rx_from_tasks
    log: seq<IrohEvent>,             // everything ever sent to the coordinator
    dials: seq<Dial>,
    sessions: seq<Session>,
    accepts: set<Conn>,              // accept tasks holding an established connection
    closed: set<nat>,                // connections closed explicitly by this node
    relayed: seq<Parcel>,            // packets put into a session's channel, in order
    begun: set<Conn>,                // every connection that ever began here, dialed or accepted
    handed: set<Conn>)               // ... and those a task has handed to the manager

  // ---- small updates

  function Close(m: State, conn: Conn): (r: State) {
    m.(closed := m.closed + {conn.id})
  }

  function AbortSession(m: State, s: nat): (r: State) {
    if s < |m.sessions| then m.(sessions := m.sessions[s := m.sessions[s].(aborted := true)]) else m
  }

  function AbortDial(m: State, t: nat): (r: State) {
    if t < |m.dials| then m.(dials := m.dials[t := m.dials[t].(aborted := true)]) else m
  }

  /** Writing an entry drops the one it replaces, and with it the sender of that session's packet channel. */
  function Put(m: State, k: Key, e: Entry): (r: State) {
    var dropped :=
      if k in m.table && m.table[k].Connected? && m.table[k].session < |m.sessions|
      then var s := m.table[k].session; m.sessions[s := m.sessions[s].(senderOpen := false)]
      else m.sessions;
    m.(sessions := dropped, table := m.table[k := e])
  }

  // ---- init_new_connection and init_ready_connection (src/iroh.rs:354-384)

  function InitNewConnection(m: State, k: Key): (r: State) {
    if m.self < k then Put(m, k, WaitingIncomingConnection)
    else Put(m, k, Connecting(|m.dials|)).(dials := m.dials + [Dial(k, Resting, false)])
  }

  function InstallConnection(m: State, conn: Conn): (r: State) {
    var spawned := m.(sessions := m.sessions + [Session(conn, Relaying, false, true, [], [])]);
    Put(spawned, conn.remote, Connected(|m.sessions|, conn))
  }

  // ---- handlers up to their await (src/iroh.rs:167-351)

  function BeginConnEvent(m: State, ev: ConnectionEvent): (r: State) {
    match ev
    case OutgoingConnection(conn, _) =>
      if conn.remote !in m.table then Close(m, conn)
      else (
        match m.table[conn.remote]
        case Connecting(_) => m.(phase := AnnounceUp(conn))
        case Connected(s, was) => Close(AbortSession(m, s), was).(phase := AnnounceUp(conn))
        case WaitingIncomingConnection => Close(m, conn)
        case Disconnected => Close(m, conn))
    case IncomingConnection(conn) =>
      if conn.remote !in m.table then Close(m, conn)
      else (
        match m.table[conn.remote]
        case WaitingIncomingConnection => m.(phase := AnnounceUp(conn))
        case Connected(s, was) => Close(AbortSession(m, s), was).(phase := AnnounceUp(conn))
        case Connecting(_) => Close(m, conn)
        case Disconnected => Close(m, conn))
    case SessionEnded(k, _) =>
      if k in m.table && m.table[k].Connected? then m.(phase := AnnounceDown(k, true)) else m
    case InternalError => m.(phase := Stopped)
  }

  /** `try_send` into a session's channel fails when it is full or its task has returned. */
  function TryRelay(m: State, s: nat, p: Packet, to: Key): (r: State) {
    if s < |m.sessions| && m.sessions[s].stage != Over && |m.sessions[s].outbox| < CHANNEL_CAPACITY
    then m.(sessions := m.sessions[s := m.sessions[s].(outbox := m.sessions[s].outbox + [p])],
            relayed := m.relayed + [Parcel(to, p, s)])
    else m
  }

  /** The session with `to` can take a packet. */
  predicate Takes(m: State, to: Key) {
    && to in m.table && m.table[to].Connected? && m.table[to].session < |m.sessions|
    && m.sessions[m.table[to].session].stage != Over
    && |m.sessions[m.table[to].session].outbox| < CHANNEL_CAPACITY
  }

  function BeginCoreAction(m: State, a: CoreAction): (r: State) {
    match a
    case SendPacketTo(p, to) =>
      if to in m.table && m.table[to].Connected? then TryRelay(m, m.table[to].session, p, to) else m
    case ConnectToPeer(k) =>
      if k in m.table && m.table[k].Disconnected? then InitNewConnection(m, k) else m
    case DisconnectFromPeer(k) =>
      if k !in m.table then Put(m, k, Disconnected)
      else (
        match m.table[k]
        case Connected(s, was) => Close(AbortSession(m, s), was).(phase := AnnounceDown(k, false))
        case Connecting(t) => Put(AbortDial(m, t), k, Disconnected)
        case WaitingIncomingConnection => Put(m, k, Disconnected)
        case Disconnected => Put(m, k, Disconnected))
  }

  // ---- the await itself and what follows it

  function Report(m: State): (r: State) {
    match m.phase
    case AnnounceUp(conn) => m.(phase := Install(conn), log := m.log + [ConnectedToPeer(conn.remote)])
    case AnnounceDown(k, redial) => m.(phase := Retire(k, redial), log := m.log + [DisconnectedFromPeer(k)])
    case _ => m
  }

  function Finish(m: State): (r: State) {
    match m.phase
    case Install(conn) => InstallConnection(m.(phase := Idle), conn)
    case Retire(k, redial) =>
      if redial then InitNewConnection(m.(phase := Idle), k) else Put(m.(phase := Idle), k, Disconnected)
    case _ => m
  }

  /** A handler run to its end when its send finds room. */
  function Settle(m: State): (r: State) {
    Finish(Report(m))
  }

  /** The peers in `done` have their roles, each of those to be dialed its own resting dial, and there are no others. */
  ghost predicate InRoles(self: Key, table: map<Key, Entry>, dials: seq<Dial>, done: set<Key>) {
    && done <= table.Keys
    && (forall k :: k in done && self < k ==> table[k] == WaitingIncomingConnection)
    && (forall k :: k in done && k <= self ==>
          table[k].Connecting? && table[k].dial < |dials| && dials[table[k].dial].peer == k)
    && (forall t :: 0 <= t < |dials| ==>
          && dials[t].stage == Resting && !dials[t].aborted
          && dials[t].peer in done && table[dials[t].peer] == Connecting(t))
  }

  /** The manager right after `init` (src/iroh.rs:386-403): one resting dial for each peer it must dial. */
  ghost predicate IsStarted(m: State, self: Key, peers: set<Key>) {
    && m.self == self && m.table.Keys == peers
    && m.phase == Idle && m.inbox == [] && m.log == [] && m.sessions == []
    && m.accepts == {} && m.closed == {} && m.relayed == [] && m.begun == {} && m.handed == {}
    && InRoles(self, m.table, m.dials, peers)
  }
}
