/** The IPv4 header reader (src/packet/ipv4.rs); field layout as in section 3.1 of RFC 791. */
module Ipv4 {
  import opened Wire

  datatype ParseError = TooSmallPacket | IncorrectIpVersion

  datatype Ipv4Packet = Ipv4Packet(packetLength: nat, totalLength: nat, ttl: Byte, src: Addr, dest: Addr)

  const HEADER_LENGTH: nat := 20

  /** Shifts and ors over bytes are written as division and multiplication by powers of two. */
  function Parse(packet: Packet): (r: Result<Ipv4Packet, ParseError>) {
    if |packet| < HEADER_LENGTH then Err(TooSmallPacket)
    else if packet[0] / 16 != 4 then Err(IncorrectIpVersion)
    else
      Ok(Ipv4Packet(
           |packet|,
           packet[2] as int * 256 + packet[3],
           packet[8],
           Addr(packet[12], packet[13], packet[14], packet[15]),
           Addr(packet[16], packet[17], packet[18], packet[19])))
  }

  /** The header fields the reader ignores. */
  datatype Ignored = Ignored(ihl: Byte, tos: Byte, idHi: Byte, idLo: Byte, flags: Byte, fragment: Byte,
                             protocol: Byte, sumHi: Byte, sumLo: Byte)

  /** A datagram written out field by field: the inverse of the reader. */
  function Write(total: nat, ttl: Byte, src: Addr, dest: Addr, ign: Ignored, rest: Packet): (p: Packet)
    requires total < 65536 && ign.ihl < 16
    ensures |p| == HEADER_LENGTH + |rest|
  {
    [64 + ign.ihl, ign.tos, total / 256, total % 256,
     ign.idHi, ign.idLo, ign.flags, ign.fragment,
     ttl, ign.protocol, ign.sumHi, ign.sumLo,
     src.a, src.b, src.c, src.d,
     dest.a, dest.b, dest.c, dest.d] + rest
  }

  /** Reading what was written gives back every field, whatever the ignored fields and the tail are. */
  lemma ParseWrite(total: nat, ttl: Byte, src: Addr, dest: Addr, ign: Ignored, rest: Packet)
    requires total < 65536 && ign.ihl < 16
    ensures Parse(Write(total, ttl, src, dest, ign, rest))
         == Ok(Ipv4Packet(HEADER_LENGTH + |rest|, total, ttl, src, dest))
  {}

  /** Every accepted packet is the written form of the fields read from it; nothing else is accepted. */
  lemma WriteParse(packet: Packet)
    ensures Parse(packet).Ok? <==> |packet| >= HEADER_LENGTH && 64 <= packet[0] < 80
    ensures Parse(packet).Ok? ==>
              var h := Parse(packet).value;
              && h.totalLength < 65536
              && packet == Write(h.totalLength, h.ttl, h.src, h.dest,
                                 Ignored(packet[0] - 64, packet[1], packet[4], packet[5], packet[6], packet[7],
                                         packet[9], packet[10], packet[11]),
                                 packet[HEADER_LENGTH..])
  {}
}
