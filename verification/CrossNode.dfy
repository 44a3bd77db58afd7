/** What one node's core sends, another node's core accepts. */
module CrossNode {
  import opened Wire
  import opened Core
  import opened CoreRuns
  import Ipv4

  /** Node `a` (with key `ka`) never sends node `b` (with key `kb`) anything at all. */
  ghost predicate Silent(a: Config, kb: Key) {
    a.maxPacketSize < Ipv4.HEADER_LENGTH || kb !in a.routes.Values
  }

  /** `b` takes packets as large as `a` sends, knows `a`'s address under `a`'s key, and `a` routes to `b` nothing but
      `b`'s own address. */
  ghost predicate Agreeing(a: Config, ka: Key, b: Config, kb: Key) {
    && a.maxPacketSize <= b.maxPacketSize
    && a.addr in b.routes && b.routes[a.addr] == ka
    && (forall ip :: ip in a.routes && a.routes[ip] == kb ==> ip == b.addr)
  }

  /** Everything `a` may send to `b` passes `b`'s receive check. */
  ghost predicate AllAccepted(a: Config, ka: Key, b: Config, kb: Key) {
    forall p :: Deliverable(a, p, kb) ==> VerifyRecvPacket(b, p, ka).Ok?
  }

  lemma AgreeingAccepts(a: Config, ka: Key, b: Config, kb: Key, p: Packet)
    requires Agreeing(a, ka, b, kb) && Deliverable(a, p, kb)
    ensures VerifyRecvPacket(b, p, ka).Ok?
  {}

  /** A packet of any size from `a` to an address it routes to `kb`. */
  lemma Probe(a: Config, kb: Key, ip: Addr, size: nat) returns (p: Packet)
    requires ip in a.routes && a.routes[ip] == kb && Ipv4.HEADER_LENGTH <= size <= a.maxPacketSize
    ensures Deliverable(a, p, kb)
    ensures Ipv4.Parse(p) == Ok(Ipv4.Ipv4Packet(size, 20, 1, a.addr, ip))
  {
    var rest := seq(size - Ipv4.HEADER_LENGTH, i => 0 as Byte);
    var ign := Ipv4.Ignored(5, 0, 0, 0, 0, 0, 0, 0, 0);
    p := Ipv4.Write(20, 1, a.addr, ip, ign, rest);
    Ipv4.ParseWrite(20, 1, a.addr, ip, ign, rest);
  }

  /** The receive check passes everything a node may send to another if and only if it never sends it anything or the
      two configurations agree. */
  lemma AcceptanceExact(a: Config, ka: Key, b: Config, kb: Key)
    ensures AllAccepted(a, ka, b, kb) <==> Silent(a, kb) || Agreeing(a, ka, b, kb)
  {
    if Agreeing(a, ka, b, kb) {
      forall p | Deliverable(a, p, kb) ensures VerifyRecvPacket(b, p, ka).Ok? {
        AgreeingAccepts(a, ka, b, kb, p);
      }
    }
    if AllAccepted(a, ka, b, kb) && !Silent(a, kb) {
      var some: Addr :| some in a.routes && a.routes[some] == kb;
      var largest := Probe(a, kb, some, a.maxPacketSize);
      assert VerifyRecvPacket(b, largest, ka).Ok?;
      forall ip | ip in a.routes && a.routes[ip] == kb ensures ip == b.addr {
        var p := Probe(a, kb, ip, a.maxPacketSize);
        assert VerifyRecvPacket(b, p, ka).Ok?;
      }
    }
  }

  /** Cross-node acceptance over whole runs: whatever node `a` has sent to node `b` by any point of any run, however
      long it was queued, `b`'s core writes to TUN unchanged, and changes nothing else. */
  lemma CrossNodeDelivery(s: State, a: Config, ka: Key, events: seq<Event>, t: State, b: Config, kb: Key, p: Packet)
    requires IsNew(s, a) && Agreeing(a, ka, b, kb) && t.config == b
    requires Feed(s, events).Answered? && SendPacketTo(p, kb) in Feed(s, events).actions
    ensures Process(t, PacketFromIroh(p, ka)) == Answered(t, [WriteToTun(p)])
  {
    RunSafety(s, a, events);
    assert Lawful(a, SendPacketTo(p, kb));
    AgreeingAccepts(a, ka, b, kb, p);
  }
}
