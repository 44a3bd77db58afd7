/** The `Iroh` struct as an object. A `send().await` is taken to find room, so each handler runs to its end; every
    method is proved against the split handlers of module Manager. */
module ManagerObject {
  import opened Wire
  import opened Manager
  import opened ManagerRuns

  lemma GivesRole(self: Key, table: map<Key, Entry>, dials: seq<Dial>, done: set<Key>, k: Key)
    requires InRoles(self, table, dials, done) && k !in done
    ensures self < k ==> InRoles(self, table[k := WaitingIncomingConnection], dials, done + {k})
    ensures k <= self ==>
              InRoles(self, table[k := Connecting(|dials|)], dials + [Dial(k, Resting, false)], done + {k})
  {}

  /** A whole handler keeps the manager's invariant. */
  lemma HandlerKeepsInv(m: State, ev: ConnectionEvent)
    requires Inv(m.(inbox := [ev] + m.inbox)) && m.phase == Idle
    ensures Inv(Settle(BeginConnEvent(m, ev)))
  {
    var queued := m.(inbox := [ev] + m.inbox);
    assert queued.inbox[1..] == m.inbox;
    MoveKeepsInv(queued, TakeEvent);
    SendReportKeepsInv(BeginConnEvent(m, ev));
    FinishKeepsInv(Report(BeginConnEvent(m, ev)));
  }

  lemma ActionKeepsInv(m: State, a: CoreAction)
    requires Inv(m) && m.phase == Idle
    ensures Inv(Settle(BeginCoreAction(m, a)))
  {
    TakeActionKeepsInv(m, a);
    SendReportKeepsInv(BeginCoreAction(m, a));
    FinishKeepsInv(Report(BeginCoreAction(m, a)));
  }

  /** The entry of its peer calls for the connection: a dialed one while Connecting, an accepted one while waiting, either
      while Connected. */
  predicate Expects(table: map<Key, Entry>, ev: ConnectionEvent)
    requires ev.OutgoingConnection? || ev.IncomingConnection?
  {
    && ev.conn.remote in table
    && (|| table[ev.conn.remote].Connected?
        || (ev.OutgoingConnection? && table[ev.conn.remote].Connecting?)
        || (ev.IncomingConnection? && table[ev.conn.remote].WaitingIncomingConnection?))
  }

  class Iroh {
    const self: Key
    var peers: set<Key>
    var stateTable: map<Key, Entry>
    var rxFromTasks: seq<ConnectionEvent>
    var txToCoord: seq<IrohEvent>
    var dials: seq<Dial>
    var sessions: seq<Session>
    var accepts: set<Conn>
    var closed: set<nat>
    var relayed: seq<Parcel>
    var begun: set<Conn>
    var handed: set<Conn>

    function Abs(): (m: State)
      reads this
    {
      State(self, stateTable, Idle, rxFromTasks, txToCoord, dials, sessions, accepts, closed, relayed,
            begun, handed)
    }

    /** The entries start as Disconnected and `Init` gives each peer its role. */
    constructor (self: Key, peers: set<Key>)
      ensures this.self == self && this.peers == peers
      ensures stateTable == map k | k in peers :: Disconnected
      ensures dials == [] && sessions == [] && rxFromTasks == [] && txToCoord == []
      ensures accepts == {} && closed == {} && relayed == [] && begun == {} && handed == {}
    {
      this.self := self;
      this.peers := peers;
      this.stateTable := map k | k in peers :: Disconnected;
      this.dials, this.sessions, this.rxFromTasks, this.txToCoord := [], [], [], [];
      this.accepts, this.closed, this.relayed, this.begun, this.handed := {}, {}, [], {}, {};
    }

    method Init()
      requires stateTable.Keys == peers && dials == [] && sessions == [] && rxFromTasks == [] && txToCoord == []
      requires accepts == {} && closed == {} && relayed == [] && begun == {} && handed == {}
      modifies this
      ensures IsStarted(Abs(), self, old(peers)) && Inv(Abs())
    {
      var todo := peers;
      while todo != {}
        invariant todo <= peers == old(peers) == stateTable.Keys
        invariant sessions == [] && rxFromTasks == [] && txToCoord == []
        invariant accepts == {} && closed == {} && relayed == [] && begun == {} && handed == {}
        invariant InRoles(self, stateTable, dials, peers - todo)
        decreases todo
      {
        var k :| k in todo;
        GivesRole(self, stateTable, dials, peers - todo, k);
        assert peers - (todo - {k}) == peers - todo + {k};
        todo := todo - {k};
        if k > self {
          stateTable := stateTable[k := WaitingIncomingConnection];
        } else {
          stateTable := stateTable[k := Connecting(|dials|)];
          dials := dials + [Dial(k, Resting, false)];
        }
      }
      StartedInv(Abs(), self, peers);
    }

    method HandleConnEvent(ev: ConnectionEvent) returns (ok: bool)
      modifies this
      ensures ok == !ev.InternalError?
      ensures ok ==> Abs() == Settle(BeginConnEvent(old(Abs()), ev))
      ensures !ok ==> Abs() == old(Abs())
      ensures (ev.OutgoingConnection? || ev.IncomingConnection?) && !Expects(old(stateTable), ev) ==>
                Abs() == old(Abs()).(closed := old(closed) + {ev.conn.id})
      ensures ok && Inv(old(Abs()).(inbox := [ev] + old(Abs()).inbox)) ==> Inv(Abs())
    {
      if Inv(Abs().(inbox := [ev] + rxFromTasks)) { HandlerKeepsInv(Abs(), ev); }
      match ev {
        case OutgoingConnection(conn, _) =>
          if conn.remote in stateTable {
            match stateTable[conn.remote] {
              case Connecting(_) => InitReadyConnection(conn);
              case Connected(task, was) => Expire(task, was); InitReadyConnection(conn);
              case WaitingIncomingConnection => closed := closed + {conn.id};
              case Disconnected => closed := closed + {conn.id};
            }
          } else {
            closed := closed + {conn.id};
          }
        case IncomingConnection(conn) =>
          if conn.remote in stateTable {
            match stateTable[conn.remote] {
              case WaitingIncomingConnection => InitReadyConnection(conn);
              case Connected(task, was) => Expire(task, was); InitReadyConnection(conn);
              case Connecting(_) => closed := closed + {conn.id};
              case Disconnected => closed := closed + {conn.id};
            }
          } else {
            closed := closed + {conn.id};
          }
        case SessionEnded(key, _) =>
          if key in stateTable && stateTable[key].Connected? {
            txToCoord := txToCoord + [DisconnectedFromPeer(key)];
            InitNewConnection(key);
          }
        case InternalError =>
          return false;
      }
      ok := true;
    }

    method HandleCoreEvent(a: CoreAction)
      modifies this
      ensures Abs() == Settle(BeginCoreAction(old(Abs()), a))
      ensures Inv(old(Abs())) ==> Inv(Abs())
    {
      if Inv(Abs()) { ActionKeepsInv(Abs(), a); }
      match a {
        case SendPacketTo(packet, to) =>
          if to in stateTable && stateTable[to].Connected? {
            var s := stateTable[to].session;
            if s < |sessions| && sessions[s].stage != Over && |sessions[s].outbox| < CHANNEL_CAPACITY {
              sessions := sessions[s := sessions[s].(outbox := sessions[s].outbox + [packet])];
              relayed := relayed + [Parcel(to, packet, s)];
            }
          }
        case ConnectToPeer(key) =>
          if key in stateTable && stateTable[key].Disconnected? {
            InitNewConnection(key);
          }
        case DisconnectFromPeer(key) =>
          if key in stateTable {
            match stateTable[key] {
              case Connected(task, was) =>
                Expire(task, was);
                txToCoord := txToCoord + [DisconnectedFromPeer(key)];
              case Connecting(task) =>
                if task < |dials| { dials := dials[task := dials[task].(aborted := true)]; }
              case _ =>
            }
          }
          Insert(key, Disconnected);
      }
    }

    method Expire(task: nat, conn: Conn)
      modifies this
      ensures Abs() == Close(AbortSession(old(Abs()), task), conn) && peers == old(peers)
    {
      if task < |sessions| { sessions := sessions[task := sessions[task].(aborted := true)]; }
      closed := closed + {conn.id};
    }

    method Insert(k: Key, e: Entry)
      modifies this
      ensures Abs() == Put(old(Abs()), k, e) && peers == old(peers)
    {
      if k in stateTable && stateTable[k].Connected? && stateTable[k].session < |sessions| {
        var s := stateTable[k].session;
        sessions := sessions[s := sessions[s].(senderOpen := false)];
      }
      stateTable := stateTable[k := e];
    }

    method InitNewConnection(key: Key)
      modifies this
      ensures Abs() == Manager.InitNewConnection(old(Abs()), key) && peers == old(peers)
    {
      if self < key {
        Insert(key, WaitingIncomingConnection);
        return;
      }
      var task := |dials|;
      dials := dials + [Dial(key, Resting, false)];
      Insert(key, Connecting(task));
    }

    method InitReadyConnection(conn: Conn)
      modifies this
      ensures Abs() == Settle(old(Abs()).(phase := AnnounceUp(conn))) && peers == old(peers)
    {
      txToCoord := txToCoord + [ConnectedToPeer(conn.remote)];
      var task := |sessions|;
      sessions := sessions + [Session(conn, Relaying, false, true, [], [])];
      Insert(conn.remote, Connected(task, conn));
    }
  }
}
