/** What the core answers, told from the history of events alone: a reference without flags, queues or checks. */
module CoreAnswers {
  import opened Wire
  import opened Seqs
  import opened Core
  import opened CoreRuns

  /** Sends of the packets of `queue` to `k`, in order, and nothing else. */
  ghost predicate SendsAll(actions: seq<Action>, queue: seq<Packet>, k: Key) {
    |actions| == |queue| && forall i :: 0 <= i < |queue| ==> actions[i] == SendPacketTo(queue[i], k)
  }

  /** The answer to a packet for `k`: it is sent while `k` is up; otherwise it is kept, and pushes out the oldest one kept
      if 1000 have been accepted since `k` went down. */
  ghost predicate AnswersPacket(b: Ledger, p: Packet, k: Key, actions: seq<Action>) {
    if b.up then actions == [SendPacketTo(p, k)]
    else if |b.backlog| >= 1000 then actions == [NoAction(PacketQueueOverflow), NoAction(PacketBuffered)]
    else actions == [NoAction(PacketBuffered)]
  }

  /** The one answer to event `e` after `events`. */
  ghost predicate Answers(config: Config, events: seq<Event>, e: Event, actions: seq<Action>) {
    match e
    case PeerConnected(k) =>
      if k !in config.routes.Values then actions == [DisconnectFromPeer(k)]
      else if Books(config, events, k).up then actions == [NoAction(AlreadyConnected)]
      else SendsAll(actions, Last(Books(config, events, k).backlog, 1000), k)
    case PeerDisconnected(k) =>
      if k !in config.routes.Values then actions == [NoAction(UnknownPeer)]
      else if !Books(config, events, k).up then actions == [NoAction(AlreadyDisconnected)]
      else actions == []
    case PacketFromTun(p) =>
      || (exists k :: Deliverable(config, p, k) && AnswersPacket(Books(config, events, k), p, k, actions))
      || (exists why :: RefusedToSend(config, p, why) && actions == [NoAction(SendPacketError(why))])
    case PacketFromIroh(p, from) =>
      || (Receivable(config, p, from) && actions == [WriteToTun(p)])
      || (exists why :: RefusedToReceive(config, p, from, why) && actions == [NoAction(RecvPacketError(why))])
  }

  /** A packet is for exactly one peer, or refused for exactly one reason. */
  lemma OneVerdict(config: Config, p: Packet)
    ensures forall k, j :: Deliverable(config, p, k) && Deliverable(config, p, j) ==> k == j
    ensures forall e, f :: RefusedToSend(config, p, e) && RefusedToSend(config, p, f) ==> e == f
    ensures (exists k :: Deliverable(config, p, k)) <==> !(exists e :: RefusedToSend(config, p, e))
  {
    VerifySendExact(config, p);
    VerifySendErrors(config, p);
    if VerifySendPacket(config, p).Err? { assert RefusedToSend(config, p, VerifySendPacket(config, p).error); }
  }

  lemma OneReceiveVerdict(config: Config, p: Packet, from: Key)
    ensures forall e, f :: RefusedToReceive(config, p, from, e) && RefusedToReceive(config, p, from, f) ==> e == f
    ensures Receivable(config, p, from) <==> !(exists e :: RefusedToReceive(config, p, from, e))
  {
    VerifyRecvExact(config, p, from);
    VerifyRecvErrors(config, p, from);
    if VerifyRecvPacket(config, p, from).Err? {
      assert RefusedToReceive(config, p, from, VerifyRecvPacket(config, p, from).error);
    }
  }

  /** The packet deliverable to nobody: the state is as it was, and the one action tells the first thing wrong with it. */
  lemma RefusalExact(s: State, p: Packet, e: SendError)
    requires RefusedToSend(s.config, p, e)
    ensures Process(s, PacketFromTun(p)) == Answered(s, [NoAction(SendPacketError(e))])
  {
    VerifySendErrors(s.config, p);
  }

  lemma ReceiveExact(s: State, p: Packet, from: Key)
    ensures Receivable(s.config, p, from) ==> Process(s, PacketFromIroh(p, from)) == Answered(s, [WriteToTun(p)])
    ensures forall e :: RefusedToReceive(s.config, p, from, e) ==>
              Process(s, PacketFromIroh(p, from)) == Answered(s, [NoAction(RecvPacketError(e))])
  {
    VerifyRecvExact(s.config, p, from);
    VerifyRecvErrors(s.config, p, from);
  }

  lemma TunAnswered(s: State, config: Config, events: seq<Event>, p: Packet)
    requires Sound(s) && s.config == config && (forall k :: k in s.peers ==> Shows(s, k, Books(config, events, k)))
    ensures Process(s, PacketFromTun(p)).Answered?
    ensures Answers(config, events, PacketFromTun(p), Process(s, PacketFromTun(p)).actions)
  {
    OneVerdict(config, p);
    if k: Key :| Deliverable(config, p, k) {
      DeliverableSends(s, p, k);
      assert AnswersPacket(Books(config, events, k), p, k, SendPacket(s, p).actions);
    } else {
      var e :| RefusedToSend(config, p, e);
      RefusalExact(s, p, e);
    }
  }

  lemma IrohAnswered(s: State, config: Config, events: seq<Event>, p: Packet, from: Key)
    requires s.config == config
    ensures Process(s, PacketFromIroh(p, from)).Answered?
    ensures Answers(config, events, PacketFromIroh(p, from), Process(s, PacketFromIroh(p, from)).actions)
  {
    OneReceiveVerdict(config, p, from);
    ReceiveExact(s, p, from);
  }

  lemma PeerAnswered(s: State, config: Config, events: seq<Event>, e: Event)
    requires Sound(s) && s.config == config && (forall k :: k in s.peers ==> Shows(s, k, Books(config, events, k)))
    requires e.PeerConnected? || e.PeerDisconnected?
    ensures Process(s, e).Answered? && Answers(config, events, e, Process(s, e).actions)
  {
    assert e.key in s.peers ==> Shows(s, e.key, Books(config, events, e.key));
  }

  /** Every answer, exactly, over every run: after any events, the core answers the next one with the very actions, log
      entries among them, that the history calls for. */
  lemma AnswersExact(s: State, config: Config, events: seq<Event>, e: Event)
    requires IsNew(s, config)
    ensures Feed(s, events).Answered? && Process(Feed(s, events).state, e).Answered?
    ensures Answers(config, events, e, Process(Feed(s, events).state, e).actions)
  {
    RunSafety(s, config, events);
    var now := Feed(s, events).state;
    forall k | k in now.peers ensures Shows(now, k, Books(config, events, k)) {
      QueueRefinement(s, config, events, k);
    }
    match e
    case PacketFromTun(p) => TunAnswered(now, config, events, p);
    case PacketFromIroh(p, from) => IrohAnswered(now, config, events, p, from);
    case _ => PeerAnswered(now, config, events, e);
  }
}
