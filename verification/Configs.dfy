/** Loading a node's peer list (src/config.rs) and generating the configurations of a mesh (src/bin/gen_configs.rs).

    Text is abstract: an address text is four numbers or no address at all, a key text is a key or no key at all. */
module Configs {
  import opened Wire
  import Core
  import opened CrossNode

  datatype AddrText = Dotted(a: nat, b: nat, c: nat, d: nat) | NoAddr

  datatype KeyText = KeyText(key: Key) | NoKey

  datatype PeerText = PeerText(pubKey: KeyText, ipv4: AddrText)

  datatype NodeText = NodeText(ipv4: AddrText, peers: seq<PeerText>)

  datatype ConfigError = Ipv4ParseError | PublicKeyParseError | Ipv4NotInSubnet

  function ParseAddr(t: AddrText): (r: Option<Addr>) {
    if t.Dotted? && t.a < 256 && t.b < 256 && t.c < 256 && t.d < 256 then Some(Addr(t.a, t.b, t.c, t.d)) else None
  }

  predicate PeerOk(p: PeerText) {
    ParseAddr(p.ipv4).Some? && p.pubKey.KeyText?
  }

  predicate Lists(p: PeerText, ip: Addr) {
    PeerOk(p) && ParseAddr(p.ipv4) == Some(ip)
  }

  /** `i` is the last place where `ip` is listed. */
  ghost predicate LastListing(peers: seq<PeerText>, ip: Addr, i: nat) {
    && i < |peers| && Lists(peers[i], ip)
    && (forall j :: i < j < |peers| ==> !Lists(peers[j], ip))
  }

  /** The route table holds exactly the listed addresses, each with the key of its last listing. */
  ghost predicate RoutesOf(peers: seq<PeerText>, routes: map<Addr, Key>) {
    && (forall ip :: ip in routes <==> exists i: nat :: LastListing(peers, ip, i))
    && (forall ip, i: nat :: LastListing(peers, ip, i) ==> ip in routes && routes[ip] == peers[i].pubKey.key)
  }

  lemma RoutesExtend(peers: seq<PeerText>, routes: map<Addr, Key>, p: PeerText)
    requires RoutesOf(peers, routes) && PeerOk(p)
    ensures RoutesOf(peers + [p], routes[ParseAddr(p.ipv4).value := p.pubKey.key])
  {
    var all, added := peers + [p], ParseAddr(p.ipv4).value;
    var routes' := routes[added := p.pubKey.key];
    assert LastListing(all, added, |peers|);
    forall ip, i: nat | LastListing(all, ip, i) ensures ip in routes' && routes'[ip] == all[i].pubKey.key {
      assert all[|peers|] == p;
      if i < |peers| {
        assert forall j :: i < j < |peers| ==> all[j] == peers[j];
        assert LastListing(peers, ip, i);
      }
    }
    forall ip | ip in routes' ensures exists i: nat :: LastListing(all, ip, i) {
      if ip != added {
        var i: nat :| LastListing(peers, ip, i);
        assert LastListing(all, ip, i);
      }
    }
  }

  ghost predicate AllPeersOk(peers: seq<PeerText>) {
    forall i :: 0 <= i < |peers| ==> PeerOk(peers[i])
  }

  /** The first entry that does not parse decides the error, its address before its key. */
  ghost predicate FirstBad(peers: seq<PeerText>, i: nat, error: ConfigError) {
    && i < |peers| && !PeerOk(peers[i]) && AllPeersOk(peers[..i])
    && error == if ParseAddr(peers[i].ipv4).None? then Ipv4ParseError else PublicKeyParseError
  }

  method GetPeers(peers: seq<PeerText>) returns (r: Result<map<Addr, Key>, ConfigError>)
    ensures r.Ok? <==> AllPeersOk(peers)
    ensures r.Ok? ==> RoutesOf(peers, r.value)
    ensures r.Err? ==> exists i: nat :: FirstBad(peers, i, r.error)
  {
    var routes: map<Addr, Key> := map[];
    for i := 0 to |peers|
      invariant forall j :: 0 <= j < i ==> PeerOk(peers[j])
      invariant RoutesOf(peers[..i], routes)
    {
      var ip := ParseAddr(peers[i].ipv4);
      if ip.None? {
        assert FirstBad(peers, i, Ipv4ParseError);
        return Err(Ipv4ParseError);
      }
      if peers[i].pubKey.NoKey? {
        assert FirstBad(peers, i, PublicKeyParseError);
        return Err(PublicKeyParseError);
      }
      RoutesExtend(peers[..i], routes, peers[i]);
      assert peers[..i + 1] == peers[..i] + [peers[i]];
      routes := routes[ip.value := peers[i].pubKey.key];
    }
    assert peers[..|peers|] == peers;
    r := Ok(routes);
  }

  /** Main runs every node with this size limit, whatever `mtu` the file gives (src/main.rs:35). */
  const MAX_PACKET_SIZE: nat := 1100

  predicate InSubnet(ip: Addr) {
    ip.a == 10 && ip.b == 67
  }

  /** A file that loads: every peer and the node's own address parse, and that address is in the subnet. */
  ghost predicate Loads(t: NodeText) {
    && AllPeersOk(t.peers)
    && ParseAddr(t.ipv4).Some? && InSubnet(ParseAddr(t.ipv4).value)
  }

  ghost predicate LoadedAs(t: NodeText, config: Core.Config) {
    && ParseAddr(t.ipv4) == Some(config.addr)
    && RoutesOf(t.peers, config.routes)
    && config.maxPacketSize == MAX_PACKET_SIZE
  }

  method Load(t: NodeText) returns (r: Result<Core.Config, ConfigError>)
    ensures r.Ok? <==> Loads(t)
    ensures r.Ok? ==> LoadedAs(t, r.value)
    ensures r.Ok? <==>
              && AllPeersOk(t.peers) && t.ipv4.Dotted? && t.ipv4.a == 10 && t.ipv4.b == 67
              && t.ipv4.c <= 255 && t.ipv4.d <= 255
    ensures r.Ok? ==> r.value.addr == Addr(10, 67, t.ipv4.c, t.ipv4.d) && r.value.maxPacketSize == 1100
    ensures !AllPeersOk(t.peers) ==> r.Err? && exists i: nat :: FirstBad(t.peers, i, r.error)
    ensures r.Err? && AllPeersOk(t.peers) ==>
              r.error == if ParseAddr(t.ipv4).None? then Ipv4ParseError else Ipv4NotInSubnet
  {
    var peers := GetPeers(t.peers);
    if peers.Err? {
      return Err(peers.error);
    }
    var ip := ParseAddr(t.ipv4);
    if ip.None? {
      return Err(Ipv4ParseError);
    }
    if !InSubnet(ip.value) {
      return Err(Ipv4NotInSubnet);
    }
    r := Ok(Core.Config(ip.value, peers.value, MAX_PACKET_SIZE));
  }

  // ---- gen_configs

  /** The text of the address given to node number `i + 1`. */
  function AddressText(i: nat): (r: AddrText) {
    Dotted(10, 67, 1, i + 1)
  }

  function Entry(keys: seq<Key>, i: nat): (r: PeerText)
    requires i < |keys|
  {
    PeerText(KeyText(keys[i]), AddressText(i))
  }

  function Entries(keys: seq<Key>): (r: seq<PeerText>) {
    seq(|keys|, i requires 0 <= i < |keys| => Entry(keys, i))
  }

  /** Each node lists every other node, in order, and not itself. */
  ghost predicate FullMesh(keys: seq<Key>, files: seq<NodeText>) {
    && |files| == |keys|
    && (forall i :: 0 <= i < |keys| ==>
          files[i] == NodeText(AddressText(i), Entries(keys)[..i] + Entries(keys)[i + 1..]))
  }

  /** The entries of the first `j` nodes, without the one at `i`. */
  ghost function Listed(all: seq<PeerText>, i: nat, j: nat): (r: seq<PeerText>)
    requires i < |all| && j <= |all|
  {
    if j <= i then all[..j] else all[..i] + all[i + 1..j]
  }

  lemma ListedGrows(all: seq<PeerText>, i: nat, j: nat)
    requires i < |all| && j < |all|
    ensures Listed(all, i, j + 1) == if j == i then Listed(all, i, j) else Listed(all, i, j) + [all[j]]
  {}

  method GenConfigs(keys: seq<Key>) returns (files: seq<NodeText>)
    ensures FullMesh(keys, files)
  {
    var nodes: seq<(nat, PeerText)> := [];
    for i := 1 to |keys| + 1
      invariant |nodes| == i - 1
      invariant forall j :: 0 <= j < |nodes| ==> nodes[j] == (j + 1, Entry(keys, j))
    {
      nodes := nodes + [(i, PeerText(KeyText(keys[i - 1]), Dotted(10, 67, 1, i)))];
    }
    ghost var all := Entries(keys);
    files := [];
    for i := 0 to |nodes|
      invariant |files| == i
      invariant forall x :: 0 <= x < i ==> files[x] == NodeText(AddressText(x), all[..x] + all[x + 1..])
    {
      var listed: seq<PeerText> := [];
      for j := 0 to |nodes|
        invariant listed == Listed(all, i, j)
      {
        ListedGrows(all, i, j);
        if nodes[i].0 != nodes[j].0 {
          listed := listed + [nodes[j].1];
        }
      }
      assert all[i + 1..|nodes|] == all[i + 1..];
      files := files + [NodeText(nodes[i].1.ipv4, listed)];
    }
  }

  // ---- the generated mesh

  lemma GeneratedLoads(keys: seq<Key>, files: seq<NodeText>, i: nat)
    requires FullMesh(keys, files) && i < |files|
    ensures Loads(files[i]) <==> |keys| <= 255
  {
    var all, peers := Entries(keys), files[i].peers;
    if |keys| <= 255 {
      forall j | 0 <= j < |peers| ensures PeerOk(peers[j]) {
        assert peers[j] == Entry(keys, if j < i then j else j + 1);
      }
    } else if i != 255 {
      var j := if i < 255 then 254 else 255;
      assert peers[j] == Entry(keys, 255);
      assert !PeerOk(peers[j]);
    }
  }

  lemma GeneratedEntry(keys: seq<Key>, files: seq<NodeText>, i: nat, x: nat)
    requires FullMesh(keys, files) && i < |files| && x < |files[i].peers|
    ensures var j := if x < i then x else x + 1; j < |keys| && j != i && files[i].peers[x] == Entry(keys, j)
  {}

  /** A generated node has, for the address of every other node, that node's key... */
  lemma GeneratedRoute(keys: seq<Key>, files: seq<NodeText>, i: nat, config: Core.Config, j: nat)
    requires FullMesh(keys, files) && i < |files| && |keys| <= 255 && LoadedAs(files[i], config)
    requires j < |keys| && j != i
    ensures var ip := Addr(10, 67, 1, j + 1); ip in config.routes && config.routes[ip] == keys[j]
  {
    var peers, ip := files[i].peers, Addr(10, 67, 1, j + 1);
    var at := if j < i then j else j - 1;
    GeneratedEntry(keys, files, i, at);
    forall x | at < x < |peers| ensures !Lists(peers[x], ip) {
      GeneratedEntry(keys, files, i, x);
    }
    assert LastListing(peers, ip, at);
  }

  /** ... and knows no other address. */
  lemma GeneratedOnly(keys: seq<Key>, files: seq<NodeText>, i: nat, config: Core.Config, ip: Addr) returns (j: nat)
    requires FullMesh(keys, files) && i < |files| && |keys| <= 255 && LoadedAs(files[i], config) && ip in config.routes
    ensures j < |keys| && j != i && ip == Addr(10, 67, 1, j + 1)
  {
    var at: nat :| LastListing(files[i].peers, ip, at);
    GeneratedEntry(keys, files, i, at);
    j := if at < i then at else at + 1;
  }

  ghost predicate Distinct(keys: seq<Key>) {
    forall i, j :: 0 <= i < j < |keys| ==> keys[i] != keys[j]
  }

  /** The mesh that gen_configs writes for distinct keys loads at every node if and only if it has at most 255 nodes;
      and then any two of its nodes agree, so that whatever one sends the other is accepted. */
  lemma GeneratedMeshAgrees(keys: seq<Key>, files: seq<NodeText>, i: nat, j: nat, a: Core.Config, b: Core.Config)
    requires FullMesh(keys, files) && Distinct(keys) && i < |files| && j < |files| && i != j
    ensures Loads(files[i]) <==> |keys| <= 255
    ensures Loads(files[i]) && LoadedAs(files[i], a) && LoadedAs(files[j], b) ==>
              Agreeing(a, keys[i], b, keys[j]) && AllAccepted(a, keys[i], b, keys[j])
  {
    GeneratedLoads(keys, files, i);
    if Loads(files[i]) && LoadedAs(files[i], a) && LoadedAs(files[j], b) {
      assert ParseAddr(AddressText(i)) == Some(a.addr) && ParseAddr(AddressText(j)) == Some(b.addr);
      GeneratedRoute(keys, files, j, b, i);
      forall ip | ip in a.routes && a.routes[ip] == keys[j] ensures ip == b.addr {
        var x := GeneratedOnly(keys, files, i, a, ip);
        GeneratedRoute(keys, files, i, a, x);
      }
      AcceptanceExact(a, keys[i], b, keys[j]);
    }
  }
}
