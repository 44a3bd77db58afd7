/** Packets keep their order from the sessions to TUN, and only those that pass the receive check get there. */
module NodeInbound {
  import opened Wire
  import opened Seqs
  import opened Manager
  import opened ManagerRuns
  import opened CoreRuns
  import opened Coordinator
  import opened Node
  import opened NodeForwarding
  import Core

  function Writes(actions: seq<Core.Action>): (r: seq<Packet>) {
    Pick(actions, WrittenBy())
  }

  ghost predicate Inbound(n: Node.State) {
    Subsequence(n.written + n.toTun + Writes(n.todo), Writes(n.emitted))
  }

  lemma FeedsKeepsInbound(n: Node.State, e: Core.Event)
    requires Inbound(n) && n.todo == []
    ensures Inbound(Feeds(n, e))
  {
    var r := Core.Process(n.core, e);
    if r.Answered? {
      PickConcat(n.emitted, r.actions, WrittenBy());
      assert n.written + n.toTun + Writes(n.todo) == n.written + n.toTun;
      SubsequenceTakeAll(n.written + n.toTun, Writes(n.emitted), Writes(r.actions));
    }
  }

  lemma HandleKeepsInbound(n: Node.State)
    requires Inbound(n) && n.todo != []
    ensures Inbound(Handles(n))
  {
    var n', a := Handles(n), n.todo[0];
    PickHead(n.todo, WrittenBy());
    HandOverLast(n.written, n.toTun, WrittenBy()(a), Writes(n'.todo), Writes(n.emitted));
    if !(a.WriteToTun? && |n.toTun| < CHANNEL_CAPACITY) {
      assert n'.toTun == n.toTun;
    }
  }

  lemma StepKeepsInbound(n: Node.State, step: Step)
    requires Inbound(n) && CanStep(n, step)
    ensures Inbound(Next(n, step))
  {
    match step
    case TakeReport => FeedsKeepsInbound(n.(read := n.read + 1), MapIrohEvent(n.mgr.log[n.read]));
    case TakePacket => FeedsKeepsInbound(n.(fromTun := n.fromTun[1..]), Core.PacketFromTun(n.fromTun[0]));
    case HandleAction => HandleKeepsInbound(n);
    case TunWrite =>
      assert n.toTun == [n.toTun[0]] + n.toTun[1..];
      HandOverMiddle(n.written, [n.toTun[0]], n.toTun[1..], Writes(n.todo), Writes(n.emitted));
    case _ =>
  }

  // ---- every packet for TUN is written, waits or was dropped for want of room

  function Spilled(): (f: Spill -> seq<Packet>) {
    (x: Spill) => [x.packet]
  }

  ghost predicate InboundBalance(n: Node.State, p: Packet) {
    Count(Writes(n.emitted), p)
    == Count(n.written, p) + Count(n.toTun, p) + Count(Writes(n.todo), p) + Count(Pick(n.spills, Spilled()), p)
  }

  lemma FeedsKeepsInboundBalance(n: Node.State, e: Core.Event, p: Packet)
    requires InboundBalance(n, p) && n.todo == [] && Sound(n.core)
    ensures InboundBalance(Feeds(n, e), p)
  {
    ProcessSound(n.core, e);
    var r := Core.Process(n.core, e);
    PickConcat(n.emitted, r.actions, WrittenBy());
    CountConcat(Writes(n.emitted), Writes(r.actions), p);
  }

  lemma HandlesForTun(n: Node.State)
    requires n.todo != []
    ensures var n', a := Handles(n), n.todo[0];
            && n'.todo == n.todo[1..] && n'.written == n.written && n'.emitted == n.emitted
            && n'.toTun == n.toTun + (if a.WriteToTun? && |n.toTun| < CHANNEL_CAPACITY then [a.packet] else [])
            && n'.spills == n.spills + HandleSpills(n)
  {}

  /** A packet for TUN goes to the channel or, if that is full, to the drops. */
  lemma QueuedOrSpilled(n: Node.State, p: Packet)
    requires n.todo != []
    ensures var n', a := Handles(n), n.todo[0];
            Count(n'.toTun, p) + Count(Pick(n'.spills, Spilled()), p)
            == Count(n.toTun, p) + Count(Pick(n.spills, Spilled()), p) + Count(WrittenBy()(a), p)
  {
    var n', a := Handles(n), n.todo[0];
    HandlesForTun(n);
    CountConcat(n.toTun, if a.WriteToTun? && |n.toTun| < CHANNEL_CAPACITY then [a.packet] else [], p);
    PickConcat(n.spills, HandleSpills(n), Spilled());
    CountConcat(Pick(n.spills, Spilled()), Pick(HandleSpills(n), Spilled()), p);
    if HandleSpills(n) != [] { PickOne(HandleSpills(n)[0], Spilled()); }
  }

  lemma HandleKeepsInboundBalance(n: Node.State, p: Packet)
    requires InboundBalance(n, p) && n.todo != []
    ensures InboundBalance(Handles(n), p)
  {
    HandlesForTun(n);
    QueuedOrSpilled(n, p);
    PickHead(n.todo, WrittenBy());
    CountConcat(WrittenBy()(n.todo[0]), Writes(n.todo[1..]), p);
  }

  lemma HeadMoves(a: seq<Packet>, b: seq<Packet>, p: Packet)
    requires b != []
    ensures Count(a + [b[0]], p) + Count(b[1..], p) == Count(a, p) + Count(b, p)
  {
    assert b == [b[0]] + b[1..];
    CountConcat(a, [b[0]], p);
    CountConcat([b[0]], b[1..], p);
  }

  lemma StepKeepsInboundBalance(n: Node.State, step: Step, peers: set<Key>, p: Packet)
    requires CoordOk(n, peers) && InboundBalance(n, p) && CanStep(n, step)
    ensures InboundBalance(Next(n, step), p)
  {
    if step.TakeReport? {
      FeedsKeepsInboundBalance(n.(read := n.read + 1), MapIrohEvent(n.mgr.log[n.read]), p);
    } else if step.TakePacket? {
      FeedsKeepsInboundBalance(n.(fromTun := n.fromTun[1..]), Core.PacketFromTun(n.fromTun[0]), p);
    } else if step.HandleAction? {
      HandleKeepsInboundBalance(n, p);
    } else if step.TunWrite? {
      WriteKeepsInboundBalance(n, p);
    } else {
      OthersWriteNothing(n, step);
    }
  }

  lemma WriteKeepsInboundBalance(n: Node.State, p: Packet)
    requires InboundBalance(n, p) && n.toTun != []
    ensures InboundBalance(Next(n, TunWrite), p)
  {
    WriteMoves(n);
    HeadMoves(n.written, n.toTun, p);
  }

  lemma WriteMoves(n: Node.State)
    requires n.toTun != []
    ensures var n' := Next(n, TunWrite);
            && n'.written == n.written + [n.toTun[0]] && n'.toTun == n.toTun[1..]
            && n'.emitted == n.emitted && n'.todo == n.todo && n'.spills == n.spills
  {}

  lemma OthersWriteNothing(n: Node.State, step: Step)
    requires CanStep(n, step) && (step.Local? || step.TakeOrder? || step.TunRead?)
    ensures var n' := Next(n, step);
            && n'.emitted == n.emitted && n'.written == n.written && n'.toTun == n.toTun
            && n'.todo == n.todo && n'.spills == n.spills
  {}

  ghost predicate FullSpills(spills: seq<Spill>) {
    forall i :: 0 <= i < |spills| ==> spills[i].queued == 8192
  }

  lemma StepKeepsFullSpills(n: Node.State, step: Step)
    requires FullSpills(n.spills) && Bounded(n) && CanStep(n, step)
    ensures FullSpills(Next(n, step).spills)
  {
    if step.HandleAction? { HandlesForTun(n); }
  }

  lemma {:induction false} RunKeepsInboundBalance(n: Node.State, self: Key, config: Core.Config, steps: seq<Step>, p: Packet)
    requires IsBooted(n, self, config) && Run(n, steps).Some?
    ensures InboundBalance(Run(n, steps).value, p) && FullSpills(Run(n, steps).value.spills)
  {
    if steps != [] {
      var m := |steps| - 1;
      RunKeepsInboundBalance(n, self, config, steps[..m], p);
      RunKeepsWired(n, self, config, steps[..m]);
      StepKeepsInboundBalance(Run(n, steps[..m]).value, steps[m], config.routes.Values, p);
      StepKeepsFullSpills(Run(n, steps[..m]).value, steps[m]);
    }
  }

  /** The datagrams that sessions reported and that pass the receive check for the session's own peer. */
  function ReportOk(config: Core.Config): (f: IrohEvent -> seq<Packet>) {
    (e: IrohEvent) => if e.RecvPacketFrom? && Receivable(config, e.packet, e.key) then [e.packet] else []
  }

  ghost predicate InStep(n: Node.State, config: Core.Config) {
    n.read <= |n.mgr.log| && Pick(n.events, ReceivedOk(config)) == Pick(n.mgr.log[..n.read], ReportOk(config))
  }

  lemma HearOne(events: seq<Core.Event>, reports: seq<IrohEvent>, e: IrohEvent, config: Core.Config)
    requires Pick(events, ReceivedOk(config)) == Pick(reports, ReportOk(config))
    ensures Pick(events + [MapIrohEvent(e)], ReceivedOk(config)) == Pick(reports + [e], ReportOk(config))
  {}

  lemma HearPacket(events: seq<Core.Event>, p: Packet, config: Core.Config)
    ensures Pick(events + [Core.PacketFromTun(p)], ReceivedOk(config)) == Pick(events, ReceivedOk(config))
  {}

  lemma FeedsRecords(n: Node.State, e: Core.Event)
    requires Sound(n.core)
    ensures var r := Feeds(n, e); r.events == n.events + [e] && r.mgr == n.mgr && r.read == n.read
  {
    ProcessSound(n.core, e);
  }

  lemma ReportIsHeard(n: Node.State, config: Core.Config)
    requires Sound(n.core) && InStep(n, config) && CanStep(n, TakeReport)
    ensures InStep(Next(n, TakeReport), config)
  {
    var e := n.mgr.log[n.read];
    FeedsRecords(n.(read := n.read + 1), MapIrohEvent(e));
    HearOne(n.events, n.mgr.log[..n.read], e, config);
    assert n.mgr.log[..n.read + 1] == n.mgr.log[..n.read] + [e];
  }

  lemma PacketIsHeard(n: Node.State, config: Core.Config)
    requires Sound(n.core) && InStep(n, config) && CanStep(n, TakePacket)
    ensures InStep(Next(n, TakePacket), config)
  {
    FeedsRecords(n.(fromTun := n.fromTun[1..]), Core.PacketFromTun(n.fromTun[0]));
    HearPacket(n.events, n.fromTun[0], config);
  }

  lemma StepKeepsHeard(n: Node.State, step: Step, peers: set<Key>, config: Core.Config)
    requires CoordOk(n, peers) && InStep(n, config) && CanStep(n, step)
    ensures InStep(Next(n, step), config)
  {
    if step.TakeReport? {
      ReportIsHeard(n, config);
    } else if step.TakePacket? {
      PacketIsHeard(n, config);
    } else {
      StepIsClosedMove(n, step, peers);
      assert Next(n, step).mgr.log[..n.read] == n.mgr.log[..n.read];
    }
  }

  lemma {:induction false} RunKeepsInbound(n: Node.State, self: Key, config: Core.Config, steps: seq<Step>)
    requires IsBooted(n, self, config) && Run(n, steps).Some?
    ensures Inbound(Run(n, steps).value) && InStep(Run(n, steps).value, config)
  {
    if steps == [] {
      SubsequenceRefl<Packet>([]);
      assert n.written + n.toTun + Writes(n.todo) == [];
    } else {
      var m := |steps| - 1;
      var before := Run(n, steps[..m]).value;
      RunKeepsInbound(n, self, config, steps[..m]);
      RunKeepsWired(n, self, config, steps[..m]);
      StepKeepsInbound(before, steps[m]);
      StepKeepsHeard(before, steps[m], config.routes.Values, config);
    }
  }

  /** What the core has asked to be written to TUN is exactly the valid datagrams among the reports taken, in order. */
  lemma WritesAreHeard(n: Node.State, self: Key, config: Core.Config, steps: seq<Step>)
    requires IsBooted(n, self, config) && Run(n, steps).Some?
    ensures var r := Run(n, steps).value;
            r.read <= |r.mgr.log| && Writes(r.emitted) == Pick(r.mgr.log[..r.read], ReportOk(config))
  {
    RunKeepsInbound(n, self, config, steps);
    RunKeepsForwarded(n, self, config, steps, 0);
    TunWritesExact(n.core, config, Run(n, steps).value.events);
  }

  /** Inbound forwarding: over every run, what reaches TUN is, in order and each at most once, part of the datagrams that
      sessions received from their peers and that are addressed to this node from an address of that very peer. */
  lemma InboundForwarding(n: Node.State, self: Key, config: Core.Config, steps: seq<Step>)
    requires IsBooted(n, self, config) && Run(n, steps).Some?
    ensures var r := Run(n, steps).value;
            r.read <= |r.mgr.log| && Subsequence(r.written, Pick(r.mgr.log[..r.read], ReportOk(config)))
  {
    RunKeepsInbound(n, self, config, steps);
    WritesAreHeard(n, self, config, steps);
    var r := Run(n, steps).value;
    SubsequencePrefix(r.written + r.toTun, Writes(r.todo), Writes(r.emitted));
    SubsequencePrefix(r.written, r.toTun, Writes(r.emitted));
  }

  /** Inbound conservation, over every run: each datagram a session received that passes the receive check for that very
      peer is written to TUN, waits in the channel to TUN, is about to be put there, or was dropped because 8192 packets
      were waiting there, exactly once. */
  lemma InboundConservation(n: Node.State, self: Key, config: Core.Config, steps: seq<Step>)
    requires IsBooted(n, self, config) && Run(n, steps).Some?
    ensures var r := Run(n, steps).value;
            && r.read <= |r.mgr.log| && FullSpills(r.spills)
            && multiset(Pick(r.mgr.log[..r.read], ReportOk(config)))
               == multiset(r.written) + multiset(r.toTun) + multiset(Writes(r.todo)) + multiset(Pick(r.spills, Spilled()))
  {
    WritesAreHeard(n, self, config, steps);
    RunKeepsInboundBalance(n, self, config, steps, []);
    var r := Run(n, steps).value;
    forall p ensures InboundBalance(r, p) {
      RunKeepsInboundBalance(n, self, config, steps, p);
    }
    BalancedThroughout(r);
  }

  lemma BalancedThroughout(n: Node.State)
    requires forall p :: InboundBalance(n, p)
    ensures multiset(Writes(n.emitted))
         == multiset(n.written) + multiset(n.toTun) + multiset(Writes(n.todo)) + multiset(Pick(n.spills, Spilled()))
  {
    forall p
      ensures Count(Writes(n.emitted), p)
           == Count(n.written, p) + Count(n.toTun, p) + Count(Writes(n.todo), p) + Count(Pick(n.spills, Spilled()), p)
    {
      assert InboundBalance(n, p);
    }
    SameCounts(Writes(n.emitted), n.written, n.toTun, Writes(n.todo), Pick(n.spills, Spilled()));
  }

  lemma SameCounts(all: seq<Packet>, a: seq<Packet>, b: seq<Packet>, c: seq<Packet>, d: seq<Packet>)
    requires forall p :: Count(all, p) == Count(a, p) + Count(b, p) + Count(c, p) + Count(d, p)
    ensures multiset(all) == multiset(a) + multiset(b) + multiset(c) + multiset(d)
  {
    forall p ensures multiset(all)[p] == (multiset(a) + multiset(b) + multiset(c) + multiset(d))[p] {
      assert Count(all, p) == Count(a, p) + Count(b, p) + Count(c, p) + Count(d, p);
    }
  }

  /** A datagram that arrives at a session is reported exactly if fewer than 8192 reports are waiting, under the key of the
      session's own peer; otherwise nothing changes. */
  lemma ReceiveReportsWithRoom(n: Node.State, s: nat, p: Packet, room: bool)
    requires CanStep(n, Local(SessionReceive(s, p, room))) && n.read <= |n.mgr.log|
    ensures var n' := Next(n, Local(SessionReceive(s, p, room)));
            if |n.mgr.log| - n.read < 8192
            then n' == n.(mgr := n.mgr.(log := n.mgr.log + [RecvPacketFrom(p, n.mgr.sessions[s].conn.remote)]))
            else n' == n
  {}
}
