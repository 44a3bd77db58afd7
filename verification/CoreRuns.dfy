/** What every run of the VPN core keeps, over any sequence of events. */
module CoreRuns {
  import opened Wire
  import opened Seqs
  import opened Core
  import Ipv4

  /** The core after a whole sequence of events, with everything it asked for along the way. */
  function Feed(s: State, events: seq<Event>): (r: Answer) {
    if events == [] then Answered(s, [])
    else
      match Feed(s, events[..|events| - 1])
      case Panicked => Panicked
      case Answered(s1, before) =>
        match Process(s1, events[|events| - 1])
        case Panicked => Panicked
        case Answered(s2, now) => Answered(s2, before + now)
  }

  /** On the raw bytes: an IPv4 packet within the size limit, no longer declared than it is, alive,
      from this node, for an address routed to `k`. */
  predicate Deliverable(config: Config, p: Packet, k: Key) {
    && 20 <= |p| <= config.maxPacketSize
    && 64 <= p[0] < 80
    && p[2] as int * 256 + p[3] <= |p|
    && p[8] > 0
    && Addr(p[12], p[13], p[14], p[15]) == config.addr
    && Addr(p[16], p[17], p[18], p[19]) in config.routes
    && config.routes[Addr(p[16], p[17], p[18], p[19])] == k
  }

  /** The send check accepts exactly the deliverable packets, and returns their destination. */
  lemma VerifySendExact(config: Config, p: Packet)
    ensures VerifySendPacket(config, p).Ok? <==> exists k :: Deliverable(config, p, k)
    ensures VerifySendPacket(config, p).Ok? ==>
              var ip := VerifySendPacket(config, p).value;
              ip in config.routes && Deliverable(config, p, config.routes[ip])
  {
    if VerifySendPacket(config, p).Ok? {
      assert Deliverable(config, p, config.routes[VerifySendPacket(config, p).value]);
    }
  }

  /** On the raw bytes: an IPv4 packet within the size limit, no longer declared than it is, for this node, from an
      address that belongs to `from`. */
  predicate Receivable(config: Config, p: Packet, from: Key) {
    && 20 <= |p| <= config.maxPacketSize
    && 64 <= p[0] < 80
    && p[2] as int * 256 + p[3] <= |p|
    && Addr(p[12], p[13], p[14], p[15]) in config.routes
    && config.routes[Addr(p[12], p[13], p[14], p[15])] == from
    && Addr(p[16], p[17], p[18], p[19]) == config.addr
  }

  /** The receive check accepts exactly the receivable packets; a packet that fails only because its source address
      belongs to another peer is reported as spoofed. */
  lemma VerifyRecvExact(config: Config, p: Packet, from: Key)
    ensures VerifyRecvPacket(config, p, from).Ok? <==> Receivable(config, p, from)
    ensures VerifyRecvPacket(config, p, from) == Err(Spoofing) <==>
              !Receivable(config, p, from) && exists other :: Receivable(config, p, other)
  {
    if VerifyRecvPacket(config, p, from) == Err(Spoofing) {
      assert Receivable(config, p, config.routes[Addr(p[12], p[13], p[14], p[15])]);
    }
  }

  predicate IsIpv4(p: Packet) {
    |p| >= 20 && 64 <= p[0] < 80
  }

  predicate Intact(config: Config, p: Packet) {
    IsIpv4(p) && |p| <= config.maxPacketSize && p[2] as int * 256 + p[3] <= |p|
  }

  /** On the raw bytes: `e` is the first thing wrong with a packet to be sent. */
  predicate RefusedToSend(config: Config, p: Packet, e: SendError) {
    match e
    case SendParseError(why) => if |p| < 20 then why == Ipv4.TooSmallPacket else !IsIpv4(p) && why == Ipv4.IncorrectIpVersion
    case SendMtuError => IsIpv4(p) && |p| > config.maxPacketSize
    case SendBrokenLength => IsIpv4(p) && |p| <= config.maxPacketSize && !Intact(config, p)
    case IncorrectTTL => Intact(config, p) && p[8] == 0
    case IncorrectSrcIp => Intact(config, p) && p[8] > 0 && Addr(p[12], p[13], p[14], p[15]) != config.addr
    case UnknownDestIp =>
      && Intact(config, p) && p[8] > 0 && Addr(p[12], p[13], p[14], p[15]) == config.addr
      && Addr(p[16], p[17], p[18], p[19]) !in config.routes
  }

  /** On the raw bytes: `e` is the first thing wrong with a packet received from `from`. */
  predicate RefusedToReceive(config: Config, p: Packet, from: Key, e: RecvError) {
    match e
    case RecvParseError(why) => if |p| < 20 then why == Ipv4.TooSmallPacket else !IsIpv4(p) && why == Ipv4.IncorrectIpVersion
    case RecvMtuError => IsIpv4(p) && |p| > config.maxPacketSize
    case RecvBrokenLength => IsIpv4(p) && |p| <= config.maxPacketSize && !Intact(config, p)
    case UnknownSrcIp => Intact(config, p) && Addr(p[12], p[13], p[14], p[15]) !in config.routes
    case IncorrectDestIp =>
      && Intact(config, p) && Addr(p[12], p[13], p[14], p[15]) in config.routes
      && Addr(p[16], p[17], p[18], p[19]) != config.addr
    case Spoofing =>
      && Intact(config, p) && Addr(p[12], p[13], p[14], p[15]) in config.routes
      && Addr(p[16], p[17], p[18], p[19]) == config.addr
      && config.routes[Addr(p[12], p[13], p[14], p[15])] != from
  }

  /** Why the send check refuses a packet. */
  lemma VerifySendErrors(config: Config, p: Packet)
    ensures forall e :: VerifySendPacket(config, p) == Err(e) <==> RefusedToSend(config, p, e)
  {}

  /** Why the receive check refuses a packet. */
  lemma VerifyRecvErrors(config: Config, p: Packet, from: Key)
    ensures forall e :: VerifyRecvPacket(config, p, from) == Err(e) <==> RefusedToReceive(config, p, from, e)
  {}

  // ---- what every state keeps

  ghost predicate PeerSound(config: Config, k: Key, peer: Peer) {
    && (peer.isConnected ==> peer.queue == [])
    && |peer.queue| <= MAX_PACKETS_IN_QUEUE
    && (forall i :: 0 <= i < |peer.queue| ==> Deliverable(config, peer.queue[i], k))
  }

  ghost predicate Sound(s: State) {
    && s.peers.Keys == s.config.routes.Values
    && (forall k :: k in s.peers ==> PeerSound(s.config, k, s.peers[k]))
  }

  /** What may appear among the actions of a core that has become `s`. */
  ghost predicate ActionSound(s: State, a: Action) {
    && a != NoAction(InternalStateError)
    && !a.ConnectToPeer?
    && (a.DisconnectFromPeer? ==> a.key !in s.peers)
    && (a.SendPacketTo? ==> a.to in s.peers && s.peers[a.to].isConnected && Deliverable(s.config, a.packet, a.to))
  }

  lemma NewIsSound(s: State, config: Config)
    requires IsNew(s, config)
    ensures Sound(s)
  {}

  ghost predicate AnswerSound(s: State, r: Answer) {
    && r.Answered? && Sound(r.state) && r.state.config == s.config && r.state.peers.Keys == s.peers.Keys
    && (forall a :: a in r.actions ==> ActionSound(r.state, a))
  }

  lemma SendSound(s: State, p: Packet)
    requires Sound(s)
    ensures AnswerSound(s, SendPacket(s, p))
  {
    VerifySendExact(s.config, p);
    var check := VerifySendPacket(s.config, p);
    if check.Ok? {
      var k := s.config.routes[check.value];
      assert k in s.config.routes.Values;
      assert PeerSound(s.config, k, s.peers[k]);
      assert PeerSound(s.config, k, SendPacket(s, p).state.peers[k]);
    }
  }

  /** No event panics, and every event keeps the state sound. */
  lemma ProcessSound(s: State, e: Event)
    requires Sound(s)
    ensures Process(s, e).Answered?
    ensures var r := Process(s, e);
            && Sound(r.state) && r.state.config == s.config && r.state.peers.Keys == s.peers.Keys
            && (forall a :: a in r.actions ==> ActionSound(r.state, a))
  {
    if e.PacketFromTun? { SendSound(s, e.packet); }
  }

  /** A send action as it is emitted: only for a known, deliverable packet; never an internal error. */
  ghost predicate Lawful(config: Config, a: Action) {
    && a != NoAction(InternalStateError)
    && (a.DisconnectFromPeer? ==> a.key !in config.routes.Values)
    && (a.SendPacketTo? ==> Deliverable(config, a.packet, a.to))
  }

  /** Totality and send safety over whole runs: no map index misses, `InternalStateError` is never logged, and every
      packet ever sent, including those flushed long after they were read, is deliverable to its peer. */
  lemma {:induction false} RunSafety(s: State, config: Config, events: seq<Event>)
    requires IsNew(s, config)
    ensures Feed(s, events).Answered?
    ensures var r := Feed(s, events);
            && Sound(r.state) && r.state.config == config
            && (forall a :: a in r.actions ==> Lawful(config, a))
  {
    if events != [] {
      var n := |events| - 1;
      RunSafety(s, config, events[..n]);
      ProcessSound(Feed(s, events[..n]).state, events[n]);
    }
  }

  // ---- the bounded queues refine an unbounded ledger

  /** The packets of `events` accepted for `k`. */
  function AcceptedFor(config: Config, k: Key): (f: Event -> seq<Packet>) {
    (e: Event) => if e.PacketFromTun? && Deliverable(config, e.packet, k) then [e.packet] else []
  }

  function Accepted(config: Config, events: seq<Event>, k: Key): (r: seq<Packet>) {
    Pick(events, AcceptedFor(config, k))
  }

  function SendTo(k: Key): (f: Action -> seq<Packet>) {
    (a: Action) => if a.SendPacketTo? && a.to == k then [a.packet] else []
  }

  function SentTo(actions: seq<Action>, k: Key): (r: seq<Packet>) {
    Pick(actions, SendTo(k))
  }

  /** The ideal bookkeeping for one peer: while it is down every packet is kept; when it comes up the newest
      `MAX_PACKETS_IN_QUEUE` go out and the older ones are lost. */
  datatype Ledger = Ledger(up: bool, backlog: seq<Packet>, out: seq<Packet>, lost: seq<Packet>)

  function Surplus(backlog: seq<Packet>): (r: seq<Packet>) {
    backlog[..|backlog| - |Last(backlog, MAX_PACKETS_IN_QUEUE)|]
  }

  function Book(b: Ledger, config: Config, e: Event, k: Key): (r: Ledger) {
    match e
    case PeerConnected(j) =>
      if j == k && !b.up
      then Ledger(true, [], b.out + Last(b.backlog, MAX_PACKETS_IN_QUEUE), b.lost + Surplus(b.backlog))
      else b
    case PeerDisconnected(j) => if j == k then b.(up := false) else b
    case PacketFromTun(p) =>
      if !Deliverable(config, p, k) then b
      else if b.up then b.(out := b.out + [p])
      else b.(backlog := b.backlog + [p])
    case PacketFromIroh(_, _) => b
  }

  function Books(config: Config, events: seq<Event>, k: Key): (r: Ledger) {
    if events == [] then Ledger(false, [], [], [])
    else Book(Books(config, events[..|events| - 1], k), config, events[|events| - 1], k)
  }

  lemma EnqueueIsWindow(backlog: seq<Packet>, p: Packet)
    ensures Enqueue(Last(backlog, MAX_PACKETS_IN_QUEUE), p) == Last(backlog + [p], MAX_PACKETS_IN_QUEUE)
  {}

  lemma {:induction false} FlushSends(queue: seq<Packet>, to: Key, k: Key)
    ensures SentTo(Flush(queue, to), k) == if to == k then queue else []
  {
    if queue != [] {
      var n := |queue| - 1;
      FlushSends(queue[..n], to, k);
      assert Flush(queue, to)[..n] == Flush(queue[..n], to);
      assert queue == queue[..n] + [queue[n]];
    }
  }

  /** The state of one peer shows what its ledger says. */
  ghost predicate Shows(s: State, k: Key, b: Ledger) {
    && k in s.peers
    && s.peers[k].isConnected == b.up
    && s.peers[k].queue == Last(b.backlog, MAX_PACKETS_IN_QUEUE)
    && (b.up ==> b.backlog == [])
  }

  lemma SentToOne(a: Action, k: Key)
    ensures SentTo([a], k) == SendTo(k)(a)
  {
    PickOne(a, SendTo(k));
  }

  lemma {:induction false} SentToNothing(actions: seq<Action>, k: Key)
    requires forall i :: 0 <= i < |actions| ==> !actions[i].SendPacketTo?
    ensures SentTo(actions, k) == []
  {
    if actions != [] {
      SentToNothing(actions[..|actions| - 1], k);
    }
  }

  /** What the core does with a packet that is deliverable to `to`. */
  lemma DeliverableSends(s: State, p: Packet, to: Key)
    requires Sound(s) && Deliverable(s.config, p, to)
    ensures to in s.peers
    ensures SendPacket(s, p) ==
            if s.peers[to].isConnected then Answered(s, [SendPacketTo(p, to)])
            else Answered(s.(peers := s.peers[to := s.peers[to].(queue := Enqueue(s.peers[to].queue, p))]),
                          BufferActions(s.peers[to].queue))
  {}

  lemma TunRefinesBook(s: State, p: Packet, k: Key, b: Ledger)
    requires Sound(s) && Shows(s, k, b)
    ensures var r := SendPacket(s, p);
            var b' := Book(b, s.config, PacketFromTun(p), k);
            && r.Answered? && Shows(r.state, k, b')
            && b.out + SentTo(r.actions, k) == b'.out
  {
    VerifySendExact(s.config, p);
    var r := SendPacket(s, p);
    if to: Key :| Deliverable(s.config, p, to) {
      DeliverableSends(s, p, to);
      if s.peers[to].isConnected {
        SentToOne(SendPacketTo(p, to), k);
      } else {
        SentToNothing(BufferActions(s.peers[to].queue), k);
        EnqueueIsWindow(b.backlog, p);
      }
    } else {
      SentToNothing(r.actions, k);
    }
  }

  /** The new state shows the new ledger, and exactly what the ledger adds went out. */
  ghost predicate Refines(r: Answer, k: Key, b: Ledger, b': Ledger) {
    r.Answered? && Shows(r.state, k, b') && b.out + SentTo(r.actions, k) == b'.out
  }

  lemma ConnectRefinesBook(s: State, j: Key, k: Key, b: Ledger)
    requires Shows(s, k, b)
    ensures Refines(OnPeerConnected(s, j), k, b, Book(b, s.config, PeerConnected(j), k))
  {
    if j in s.peers && !s.peers[j].isConnected {
      FlushSends(s.peers[j].queue, j, k);
    } else {
      SentToNothing(OnPeerConnected(s, j).actions, k);
    }
  }

  lemma DisconnectRefinesBook(s: State, j: Key, k: Key, b: Ledger)
    requires Shows(s, k, b)
    ensures Refines(OnPeerDisconnected(s, j), k, b, Book(b, s.config, PeerDisconnected(j), k))
  {
    SentToNothing(OnPeerDisconnected(s, j).actions, k);
  }

  lemma ReceiveRefinesBook(s: State, p: Packet, from: Key, k: Key, b: Ledger)
    requires Shows(s, k, b)
    ensures Refines(RecvPacket(s, p, from), k, b, Book(b, s.config, PacketFromIroh(p, from), k))
  {
    SentToNothing(RecvPacket(s, p, from).actions, k);
  }

  lemma EventRefinesBook(s: State, e: Event, k: Key, b: Ledger)
    requires Sound(s) && Shows(s, k, b)
    ensures Refines(Process(s, e), k, b, Book(b, s.config, e, k))
  {
    match e
    case PacketFromTun(p) => TunRefinesBook(s, p, k, b);
    case PeerConnected(j) => ConnectRefinesBook(s, j, k, b);
    case PeerDisconnected(j) => DisconnectRefinesBook(s, j, k, b);
    case PacketFromIroh(p, from) => ReceiveRefinesBook(s, p, from, k, b);
  }

  /** Queue refinement: over every run the flag of a peer is the ledger's, its queue is the newest
      `MAX_PACKETS_IN_QUEUE` packets accepted since it went down (none while it is up), and what has been sent to it is
      exactly what the ledger says went out, in order. */
  lemma {:induction false} QueueRefinement(s: State, config: Config, events: seq<Event>, k: Key)
    requires IsNew(s, config) && k in config.routes.Values
    ensures Feed(s, events).Answered?
    ensures var r := Feed(s, events);
            && Shows(r.state, k, Books(config, events, k))
            && SentTo(r.actions, k) == Books(config, events, k).out
  {
    RunSafety(s, config, events);
    if events != [] {
      var n := |events| - 1;
      RunSafety(s, config, events[..n]);
      QueueRefinement(s, config, events[..n], k);
      var before := Feed(s, events[..n]);
      EventRefinesBook(before.state, events[n], k, Books(config, events[..n], k));
      PickConcat(before.actions, Process(before.state, events[n]).actions, SendTo(k));
    }
  }

  // ---- conservation and order

  /** Every packet of `acc` went out, was lost or waits in the backlog, and the order is kept. */
  ghost predicate Balanced(b: Ledger, acc: seq<Packet>) {
    && (b.up ==> b.backlog == [])
    && multiset(acc) == multiset(b.out) + multiset(b.lost) + multiset(b.backlog)
    && Subsequence(b.out + b.backlog, acc)
  }

  lemma TunBalances(b: Ledger, config: Config, p: Packet, k: Key, acc: seq<Packet>)
    requires Balanced(b, acc) && Deliverable(config, p, k)
    ensures Balanced(Book(b, config, PacketFromTun(p), k), acc + [p])
  {
    var b' := Book(b, config, PacketFromTun(p), k);
    SubsequenceTake(b.out + b.backlog, acc, p);
    assert (b.out + b.backlog) + [p] == b'.out + b'.backlog;
    assert multiset(acc + [p]) == multiset(acc) + multiset{p};
    assert multiset(b.out + [p]) == multiset(b.out) + multiset{p};
    assert multiset(b.backlog + [p]) == multiset(b.backlog) + multiset{p};
  }

  lemma FlushBalances(b: Ledger, config: Config, k: Key, acc: seq<Packet>)
    requires Balanced(b, acc)
    ensures Balanced(Book(b, config, PeerConnected(k), k), acc)
  {
    var kept := Last(b.backlog, MAX_PACKETS_IN_QUEUE);
    var gone := Surplus(b.backlog);
    var b' := Book(b, config, PeerConnected(k), k);
    assert b.backlog == gone + kept;
    if !b.up {
      assert b.out + b.backlog == b.out + gone + kept;
      SubsequenceLose(b.out, gone, kept, acc);
      assert b'.out + b'.backlog == b.out + kept;
      assert multiset(gone + kept) == multiset(gone) + multiset(kept);
      assert multiset(b.out + kept) == multiset(b.out) + multiset(kept);
      assert multiset(b.lost + gone) == multiset(b.lost) + multiset(gone);
    }
  }

  lemma {:induction false} LedgerBalances(config: Config, events: seq<Event>, k: Key)
    ensures Balanced(Books(config, events, k), Accepted(config, events, k))
  {
    if events == [] {
      SubsequenceRefl<Packet>([]);
      assert Books(config, events, k).out + Books(config, events, k).backlog == [];
    } else {
      var n := |events| - 1;
      var b, acc := Books(config, events[..n], k), Accepted(config, events[..n], k);
      LedgerBalances(config, events[..n], k);
      assert Accepted(config, events, k) == acc + AcceptedFor(config, k)(events[n]);
      assert acc + [] == acc;
      match events[n]
      case PacketFromTun(p) => if Deliverable(config, p, k) { TunBalances(b, config, p, k, acc); }
      case PeerConnected(j) => if j == k { FlushBalances(b, config, k, acc); }
      case PeerDisconnected(_) =>
      case PacketFromIroh(_, _) =>
    }
  }

  /** Only the newest part of the backlog is really queued; the rest is lost. */
  lemma WindowBalances(b: Ledger, acc: seq<Packet>)
    requires Balanced(b, acc)
    ensures var kept := Last(b.backlog, MAX_PACKETS_IN_QUEUE);
            && multiset(acc) == multiset(b.out) + multiset(b.lost + Surplus(b.backlog)) + multiset(kept)
            && Subsequence(b.out + kept, acc)
  {
    var kept := Last(b.backlog, MAX_PACKETS_IN_QUEUE);
    assert b.backlog == Surplus(b.backlog) + kept;
    assert b.out + b.backlog == b.out + Surplus(b.backlog) + kept;
    SubsequenceLose(b.out, Surplus(b.backlog), kept, acc);
  }

  /** Conservation over every run: each packet accepted for a peer has been sent to it, lost to overflow or is still
      queued, exactly once; and the sent ones followed by the queued ones are in the order they were accepted. */
  lemma Conservation(s: State, config: Config, events: seq<Event>, k: Key)
    requires IsNew(s, config) && k in config.routes.Values
    ensures Feed(s, events).Answered? && k in Feed(s, events).state.peers
    ensures var r := Feed(s, events);
            var b := Books(config, events, k);
            var queue := r.state.peers[k].queue;
            && multiset(Accepted(config, events, k))
               == multiset(SentTo(r.actions, k)) + multiset(b.lost + Surplus(b.backlog)) + multiset(queue)
            && Subsequence(SentTo(r.actions, k) + queue, Accepted(config, events, k))
  {
    QueueRefinement(s, config, events, k);
    LedgerBalances(config, events, k);
    WindowBalances(Books(config, events, k), Accepted(config, events, k));
  }

  /** After any run, a peer that comes up is sent exactly the newest `MAX_PACKETS_IN_QUEUE` packets accepted since it
      went down, oldest first; and a packet read for a peer that is down is reported to have pushed out another
      exactly when that many were already accepted since then. */
  lemma FlushAndOverflowExact(s: State, config: Config, events: seq<Event>, k: Key, p: Packet)
    requires IsNew(s, config) && k in config.routes.Values
    requires !Books(config, events, k).up
    ensures Feed(s, events).Answered?
    ensures var backlog := Books(config, events, k).backlog;
            var up := Process(Feed(s, events).state, PeerConnected(k));
            var tun := Process(Feed(s, events).state, PacketFromTun(p));
            && up.Answered? && up.actions == Flush(Last(backlog, MAX_PACKETS_IN_QUEUE), k)
            && tun.Answered?
            && (Deliverable(config, p, k) ==>
                  (NoAction(PacketQueueOverflow) in tun.actions <==> |backlog| >= MAX_PACKETS_IN_QUEUE))
  {
    RunSafety(s, config, events);
    QueueRefinement(s, config, events, k);
    VerifySendExact(config, p);
    ProcessSound(Feed(s, events).state, PacketFromTun(p));
  }

  // ---- the other direction: what is written to TUN

  function ReceivedOk(config: Config): (f: Event -> seq<Packet>) {
    (e: Event) => if e.PacketFromIroh? && Receivable(config, e.packet, e.from) then [e.packet] else []
  }

  function WrittenBy(): (f: Action -> seq<Packet>) {
    (a: Action) => if a.WriteToTun? then [a.packet] else []
  }

  lemma {:induction false} WritesNothing(actions: seq<Action>)
    requires forall i :: 0 <= i < |actions| ==> !actions[i].WriteToTun?
    ensures Pick(actions, WrittenBy()) == []
  {
    if actions != [] {
      WritesNothing(actions[..|actions| - 1]);
    }
  }

  lemma OthersWriteNothing(s: State, e: Event)
    requires !e.PacketFromIroh? && Process(s, e).Answered?
    ensures forall i :: 0 <= i < |Process(s, e).actions| ==> !Process(s, e).actions[i].WriteToTun?
  {}

  lemma ReceiveActs(s: State, p: Packet, from: Key)
    ensures var r := RecvPacket(s, p, from);
            r.Answered? && |r.actions| == 1
            && r.actions[0] == if Receivable(s.config, p, from) then WriteToTun(p)
                               else NoAction(RecvPacketError(VerifyRecvPacket(s.config, p, from).error))
  {}

  lemma ReceiveWrites(s: State, p: Packet, from: Key, actions: seq<Action>)
    requires |actions| == 1 && actions[0].WriteToTun? == Receivable(s.config, p, from)
    requires actions[0].WriteToTun? ==> actions[0].packet == p
    ensures Pick(actions, WrittenBy()) == ReceivedOk(s.config)(PacketFromIroh(p, from))
  {}

  lemma EventWrites(s: State, e: Event)
    requires Process(s, e).Answered?
    ensures Pick(Process(s, e).actions, WrittenBy()) == ReceivedOk(s.config)(e)
  {
    if e.PacketFromIroh? {
      ReceiveActs(s, e.packet, e.from);
      ReceiveWrites(s, e.packet, e.from, Process(s, e).actions);
    } else {
      OthersWriteNothing(s, e);
      WritesNothing(Process(s, e).actions);
    }
  }

  /** Over every run, the packets written to TUN are exactly the receivable packets among those received, in order. */
  lemma {:induction false} TunWritesExact(s: State, config: Config, events: seq<Event>)
    requires IsNew(s, config)
    ensures Feed(s, events).Answered?
    ensures Pick(Feed(s, events).actions, WrittenBy()) == Pick(events, ReceivedOk(config))
  {
    RunSafety(s, config, events);
    if events != [] {
      var n := |events| - 1;
      TunWritesExact(s, config, events[..n]);
      RunSafety(s, config, events[..n]);
      var before := Feed(s, events[..n]);
      EventWrites(before.state, events[n]);
      PickConcat(before.actions, Process(before.state, events[n]).actions, WrittenBy());
    }
  }
}
