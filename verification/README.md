# Mesh VPN node: a verified model

A Dafny model of the mesh VPN node: the connection manager that keeps one QUIC tunnel per whitelisted peer
(`src/iroh.rs`), the Sans-IO routing core (`src/vpn_core.rs`), the coordinator and the bounded channels that join them
(`src/coord.rs`, `src/main.rs`), the TUN supervisor (`src/tun.rs`), the IPv4 header reader (`src/packet/ipv4.rs`), and
the loading and generation of configurations (`src/config.rs`, `src/bin/gen_configs.rs`).

`dafny verify dfyconfig.toml` verifies the whole project.

## How it is built

Each component is written twice. Its meaning is a set of functions on values: what a handler does to a state. Where the
source updates fields or loops, there is also an object or a method with those fields and loops (`CoreObject`,
`ManagerObject`, `CoordinatorObject`, `Configs`), proved to compute exactly those functions. Concurrency is a set of
labelled moves on the same functions. A handler that awaits a channel is split at the await, so other tasks run between
its parts. A schedule is a sequence of moves, and the theorems speak of every schedule from the start-up state.

| file | content |
|---|---|
| `Wire`, `Seqs` | keys, packets, results; subsequences and projections |
| `Ipv4` | the header reader and its inverse |
| `Core`, `CoreObject`, `CoreRuns`, `CoreAnswers` | the routing core, its object, every run of it, and its answers told from history alone |
| `Manager`, `ManagerObject` | the connection manager with its tasks, and its object |
| `ManagerRuns`, `ManagerReports`, `ManagerTraffic`, `Connections` | every run of the manager, whatever it is asked to do |
| `ClosedRuns` | runs of the manager as main wires it, where it is only asked to send packets |
| `SessionEnds`, `Farewells`, `Schedules` | how sessions end; which session a farewell ends, and when it can be the wrong one; schedules built move by move |
| `Coordinator`, `CoordinatorRuns`, `CoordinatorObject` | the glue between the core and the channels |
| `Node`, `NodeViews`, `NodeForwarding`, `NodeLosses`, `NodeInbound`, `NodeLiveness` | one whole node with bounded channels |
| `Mesh`, `MeshTunnels`, `MeshFarewells`, `MeshReach` | any number of managers and the connections between them |
| `EndToEnd` | any number of whole nodes and the datagrams between them |
| `Tun` | the TUN supervisor and its two workers |
| `CrossNode`, `Configs` | what one node sends another accepts; generated meshes |

What the environment is taken to be: public keys are totally ordered (integers stand for them); a peer's key is
authenticated; a connection one end closes, or holds no handle to, is closed; a failed connection stays failed; an abort
takes effect at some later point, and until then the task may go on; tasks do not panic, except that a missing map key
in the core is modelled as a panic and proved not to happen. Which connection is made, fails, or delivers what, and which
task moves next, is arbitrary. A connection is never begun
twice at the same end. Some fields only record history (everything reported, relayed, emitted, dropped or written so
far, the connections begun and handed over, which task a message came from, and what the TUN workers met last); no handler reads them.

Where the code and its documentation differ, the model follows the code. The `mtu` option is read but main always uses
1100 (`src/main.rs:35`). A key equal to the node's own is dialed, although the comment at `src/iroh.rs:461` asks for a
smaller one. The README offers `gen_configs N` for any N, but the addresses run out at 255 nodes.

## Model

| member | source | states |
|---|---|---|
| Ipv4.ParseWrite | src/packet/ipv4.rs:32-55 | reading a written header gives back every field, whatever the ignored fields and trailing bytes are |
| Ipv4.WriteParse | src/packet/ipv4.rs:32-55 | exactly the packets of at least 20 bytes with version 4 are accepted, and each is the written form of what was read |
| CoreObject.VpnCore.constructor | src/vpn_core.rs:134-150 | the peers are exactly the keys of the route table, each disconnected, with an empty queue and one of its addresses, which makes a sound core |
| CoreObject.VpnCore.Process | src/vpn_core.rs:157-164 | the object answers and changes exactly as the core's function, or panics exactly when it does; a sound one never panics, stays sound and sends only deliverable packets to connected peers |
| CoreObject.VpnCore.OnPeerConnected | src/vpn_core.rs:166-183 | the new state and the drained queue as actions, oldest first |
| CoreObject.VpnCore.OnPeerDisconnected | src/vpn_core.rs:185-199 | the flag falls, or the event is logged as unknown or repeated |
| CoreObject.VpnCore.SendPacket | src/vpn_core.rs:201-239 | forwards, or buffers dropping the oldest when full, or refuses with the first thing wrong with the bytes and changes nothing |
| CoreObject.VpnCore.RecvPacket | src/vpn_core.rs:241-251 | writes to TUN exactly what is receivable by its bytes, otherwise logs the first thing wrong with them; changes nothing |
| CoreRuns.VerifySendExact | src/vpn_core.rs:253-282 | the send check passes exactly the packets that, byte by byte, are deliverable to some peer, and returns their destination |
| CoreRuns.VerifyRecvExact | src/vpn_core.rs:284-313 | the receive check passes exactly the packets for this node from an address of the sending peer; spoofing is reported exactly when another peer owns the source |
| CoreRuns.ProcessSound | src/vpn_core.rs:157-251 | no event panics or is an internal error; a connected peer's queue is empty; all queued packets stay deliverable; sends go only to connected peers |
| CoreRuns.RunSafety | src/vpn_core.rs:157-282 | over every event sequence: no missing key, no internal error, no disconnect of a known peer, and every packet ever sent, however long queued, is deliverable to its peer |
| CoreRuns.QueueRefinement | src/vpn_core.rs:166-239 | over every run the bounded queues refine an unbounded ledger: flag, queue as the newest 1000 since the peer went down, and everything sent, in order |
| CoreRuns.FlushAndOverflowExact | src/vpn_core.rs:175-180 | connecting emits exactly the newest 1000 in order; overflow is logged exactly when 1000 were already waiting |
| CoreRuns.Conservation | src/vpn_core.rs:175-238 | accepted = sent + lost to overflow + queued as multisets, and sent followed by queued is in the order of acceptance |
| CoreRuns.TunWritesExact | src/vpn_core.rs:241-251 | over every run, what is written to TUN is exactly the receivable part of what was received, in order |
| CoreAnswers.OneVerdict | src/vpn_core.rs:253-282 | every packet is deliverable to exactly one peer or refused for exactly one reason, by its bytes |
| CoreAnswers.RefusalExact | src/vpn_core.rs:201-282 | a packet from TUN deliverable to nobody changes nothing and is answered by exactly one action, which names the first thing wrong with its bytes |
| CoreAnswers.AnswersExact | src/vpn_core.rs:157-313 | over every run, the core answers the next event with exactly the actions, log entries among them, that the history of events calls for, told without flags, queues or checks |
| CrossNode.AcceptanceExact | src/vpn_core.rs:253-313 | everything one node may send another is accepted there if and only if it never sends it anything or their configurations agree |
| CrossNode.CrossNodeDelivery | src/vpn_core.rs:175-313 | over every run of the sender, whatever it sent an agreeing node is written to TUN there unchanged |
| Configs.GetPeers | src/config.rs:169-187 | the table holds exactly the listed addresses with the key of the last listing; fails exactly if an entry is bad, with the first one's error |
| Configs.Load | src/config.rs:113-123 | loads exactly if the peers parse and the address is 10.67.c.d with c and d at most 255, and then with that address; otherwise the first bad peer entry decides the error, then the address, then the subnet |
| Configs.GenConfigs | src/bin/gen_configs.rs:23-71 | one file for each key, with address 10.67.1.i, listing every other node in order and not itself |
| Configs.GeneratedMeshAgrees | src/bin/gen_configs.rs:24-68 | for distinct keys a generated file loads if and only if there are at most 255 nodes, and then any two nodes agree, so everything one sends the other is accepted |
| ManagerObject.Iroh.constructor | src/iroh.rs:81-128 | every peer starts Disconnected; nothing is spawned or sent |
| ManagerObject.Iroh.Init | src/iroh.rs:386-403 | larger keys are awaited, all others are Connecting, each with its own fresh dial task; the manager's invariant holds |
| ManagerObject.Iroh.HandleConnEvent | src/iroh.rs:167-283 | the whole handler is the begin, report and finish steps of the model in order and keeps the manager's invariant; a connection its peer's entry does not call for is closed and nothing else changes; only an internal error stops the manager |
| ManagerObject.Iroh.HandleCoreEvent | src/iroh.rs:286-351 | the same for the coordinator's actions, including the entry inserted for an unknown key |
| ManagerObject.Iroh.InitNewConnection | src/iroh.rs:354-367 | waits for a larger key, otherwise spawns a dial and points the entry at it; drops the replaced entry |
| ManagerObject.Iroh.InitReadyConnection | src/iroh.rs:370-384 | reports, spawns the session and writes the entry, dropping the replaced one |
| ManagerRuns.MoveKeepsInv | src/iroh.rs:167-480 | every move of the manager, a task or the network keeps the manager's invariant, under any actions |
| ManagerRuns.NoStuckPeer | src/iroh.rs:167-480 | under any actions and interleaving, a Connecting entry has its own dial at work or its message queued, and a Connected entry its own session running or that session's farewell queued |
| ManagerRuns.SessionUniqueness | src/iroh.rs:370-384 | a session has an open packet sender if and only if it is the one in the table, so at most one for each peer |
| ManagerRuns.AbortedAreClosed | src/iroh.rs:177-221 | every aborted session has had its connection closed |
| ManagerReports.ReportsTellTable | src/iroh.rs:244-253 | replaying all reports gives exactly the Connected entries (up to the one being written); reports for each peer match (Connected+ Disconnected)* |
| ManagerTraffic.RolesUnderAnyActions | src/iroh.rs:354-367 | dialed keys are no larger than ours, awaited ones larger, and no outgoing connection is ever queued for an awaited peer |
| ManagerTraffic.ReplacementIsComplete | src/iroh.rs:215-222 | a connection meeting a Connected entry leaves the old session aborted, unplugged and closed, and exactly one report and one new session |
| ManagerTraffic.DisconnectThenConnect | src/iroh.rs:299-349 | disconnecting calls off exactly the entry's own task; connecting again puts the peer back in its role with a fresh dial; exactly one disconnect is reported if it was connected; no other entry changes; connecting once more changes nothing |
| ManagerTraffic.InternalErrorStops | src/iroh.rs:136-142 | after an internal error no entry is written and no connection reported, whatever happens |
| ManagerTraffic.ReceivedAreReported | src/iroh.rs:414-421 | over every run, the datagrams reported from a peer are exactly those its sessions received while there was room, each once and in order |
| ManagerTraffic.SessionsCarryTheirParcels | src/iroh.rs:288-294 | what a session handed to its connection followed by its channel is exactly what the manager gave it, in order, all for its own peer |
| Connections.MoveKeepsAccounted | src/iroh.rs:167-505 | every move keeps each connection in at most one place, moved on only by its dial or accept task, the handler or its installation |
| Connections.NoConnectionLost | src/iroh.rs:167-242 | over every run, each connection handed to the manager is queued, being installed, or in one session, in exactly one of these places, or has been closed; one not handed over is with at most one task |
| ClosedRuns.DialTokensConserved | src/iroh.rs:169-184 | dials at work plus queued outgoing connections number one for a Connecting peer and zero otherwise; an outgoing connection always meets its own Connecting entry |
| Farewells.CalmExact | src/iroh.rs:215-222 | no displaced session of a peer can be heard of again, until exactly a move that replaces its Connected entry or disconnects it |
| Farewells.FarewellsEndTheirOwn | src/iroh.rs:244-253 | over every run without such a move, every queued farewell of the peer comes from the very session its entry names, which has returned; at most one is queued; none of its sessions is aborted |
| Farewells.FarewellEndsAnother | src/iroh.rs:244-253 | that a farewell ends only its own session is false: for every peer with a larger key, a run from start-up in which the first session's farewell retires the second one, still running and not closed |
| Farewells.MisdirectedExact | src/iroh.rs:215-222 | the exact condition: after a move, some schedule without further replacement queues a farewell that will end another, running session, if and only if the move took an incoming connection of the peer while its entry was Connected |
| Farewells.MisdirectedWasReplaced | src/iroh.rs:215-253 | over every closed run, a queued farewell whose sender the entry no longer names implies an earlier incoming connection that replaced a Connected entry |
| ClosedRuns.ClosedTable | src/iroh.rs:386-397 | the table's domain is always the whitelist, no entry is Disconnected, roles follow the keys, every report names a listed peer |
| SessionEnds.FailedSessionsPart | src/iroh.rs:422-455 | over every run, a session whose read or send failed no longer relays: it waits to say so, its farewell is queued or was taken, or it was aborted; and only a failed session ever says farewell |
| SessionEnds.FailedPeerComesBack | src/iroh.rs:244-253 | from every closed state in which the session of a Connected entry fails, its farewell and the manager's steps alone bring the peer back to its role; with nothing else about it under way, exactly one disconnect is reported |
| SessionEnds.DisplacedSessionsEnd | src/iroh.rs:433-456 | over every run, a session no entry names any more can hand over all that is left in its channel, in order, and return without a farewell; an aborted one can return at once |
| SessionEnds.AbortedDialsEnd | src/iroh.rs:336-338 | an aborted dial that has not handed its connection over can end at once, and then nothing ever comes of it |
| CoordinatorObject.CoordinatorActor.HandleIrohEvent | src/coord.rs:73-76 | the report reaches the core as the matching event, and everything it asks for is forwarded in order |
| CoordinatorObject.CoordinatorActor.HandlePacketFromTun | src/coord.rs:78-81 | the same for a packet from TUN |
| CoordinatorObject.CoordinatorActor.HandleActions | src/coord.rs:84-123 | packets for TUN are appended in order as long as fewer than 8192 wait; packets for the manager likewise; disconnects are never dropped |
| CoordinatorRuns.HandleAllWrites | src/coord.rs:105-115 | a list of actions leaves in the channel to TUN exactly its packets for TUN, in order, as far as they fit |
| CoordinatorRuns.HandleAllOrders | src/coord.rs:94-104 | the same for the channel to the manager, when no disconnect is among them |
| CoordinatorRuns.HandleAllDisconnects | src/coord.rs:87-93 | every disconnect asked for reaches the manager, in order, however full the channel |
| Node.StepKeepsWired | src/main.rs:38-84 | every step of the wired node keeps the manager closed, the core sound and every channel within its capacity |
| Node.NodeRunsClosedManager | src/main.rs:38-84 | whatever the node does, its manager has made a closed run |
| NodeViews.ViewCoupling | src/coord.rs:125-131 | at every point of every run, the core's flag with the queued reports applied is exactly whether the manager shows the peer connected |
| NodeViews.NothingUnexpected | src/vpn_core.rs:166-199 | the core never asks for a disconnect, never logs an unknown or already disconnected peer, and the coordinator never panics |
| NodeViews.ClosedSystem | src/coord.rs:87-93 | the table, the core's peers and the route table's keys are always the same set, and the manager is only asked to send |
| NodeViews.DropAttribution | src/iroh.rs:288-297 | a packet met by an unconnected peer implies a disconnect reported and not yet processed by the core when it sent the packet; for a connected peer it is lost only to a full or returned session |
| NodeForwarding.OrderedForwarding | src/iroh.rs:288-294 | across reconnects, what is put into a peer's sessions is in order, and each at most once, part of the packets that entered from TUN and are by their bytes deliverable to it |
| NodeForwarding.RelayedAreDeliverable | src/vpn_core.rs:253-282 | every packet ever put into a session entered from TUN and is deliverable to that peer |
| NodeForwarding.ReadEntersWithRoom | src/tun.rs:206-217 | a packet read from TUN enters, at the end of the queue, exactly if fewer than 8192 are queued |
| NodeLosses.LossOnlyAtTrySend | src/coord.rs:94-104 | between core and sessions a step that records no drop keeps what is in flight exactly and in order; a step of the core adds exactly what it sends |
| NodeLosses.NodeConservation | src/coord.rs:78-104 | over every run, each packet that entered from TUN for a peer is in the TUN channel, queued in the core, lost to overflow, on its way, in a session of that peer, or a recorded drop, exactly once |
| NodeLosses.DropsExplained | src/iroh.rs:288-297 | over every run, each drop for an unconnected peer was overtaken by a disconnect the core had not processed when it sent the packet; each drop at a session met one that had returned or had been given a channel's worth of packets |
| NodeInbound.InboundForwarding | src/coord.rs:105-115 | what reaches TUN is in order, and each at most once, part of the datagrams sessions received that pass the check for that very peer |
| NodeInbound.InboundConservation | src/coord.rs:105-115 | over every run, each such datagram whose report was taken is written, waits for TUN, is about to be put there, or was dropped with 8192 packets waiting, exactly once |
| NodeInbound.ReceiveReportsWithRoom | src/iroh.rs:415-421 | a datagram is reported, under the key of the session's own peer, exactly if fewer than 8192 reports wait |
| NodeLiveness.DeadlockFreedom | src/coord.rs:84-115 | whenever a channel holds a message, a handler is unfinished or a task waits to send, some actor can step |
| NodeLiveness.BlockingSendWouldDeadlock | src/coord.rs:88-93 | at the coordinator's blocking send with both channels full neither actor could step, which is why the core never asking for a disconnect matters |
| NodeLiveness.DrainLowers | src/iroh.rs:131-164 | every manager or coordinator step lowers a lexicographic measure on queues and handler phase |
| NodeLiveness.DrainConverges | src/coord.rs:37-71 | with a silent environment every schedule comes to rest, with the core's flags equal to the manager's Connected set |
| Mesh.StepKeepsInv | src/iroh.rs:406-505 | every step of a mesh of any size keeps each node's closed invariant and every connection where its link says |
| MeshTunnels.SingleTunnelPerPair | src/iroh.rs:167-403 | whenever nothing is under way between two nodes, whatever others do: one is connected to the other over a connection if and only if the other is over the same one, and there is at most one; an unjoined pair has exactly one dial at work, at the larger key, and the other waits |
| MeshTunnels.QuietMesh | src/iroh.rs:167-403 | when the whole mesh is at rest this holds of every pair |
| MeshTunnels.RolesNeverClash | src/iroh.rs:224-228 | two nodes never both dial or both wait for each other, and an incoming connection from another node never meets a Connecting entry |
| MeshFarewells.DialerFarewellsAreOwn | src/iroh.rs:244-253 | in every mesh run, at the node with the larger key of a pair, every queued farewell comes from the very session its entry names, which has returned, and no session with that peer is aborted |
| MeshReach.EveryPairCanJoin | src/iroh.rs:354-505 | from every reachable mesh, any two nodes that list each other can come to be connected over one and the same open connection |
| EndToEnd.WrittenHadEntered | src/coord.rs:73-115 | any number of whole nodes, datagrams authenticated, lossy and reordered: a packet written to TUN at one node from another node's address was written no more often than it entered from TUN there, deliverable to this one |
| Tun.ClassifyTunError | src/tun.rs:25-51 | exactly which kinds of error drop the packet and which reconnect; every other one is fatal |
| Tun.StepKeepsInv | src/tun.rs:78-300 | every step of supervisor, reader, writer or coordinator keeps who owns the receiver, the order of packets, which word fits what a worker met, and why each epoch ended |
| Tun.SupervisorEpochs | src/tun.rs:78-180 | a device is created, or the supervisor stops, only with the receiver back and both workers gone; impossible arms are never taken; packets leave the channel in order, each written once or lost to one failed write |
| Tun.EpochsEndAsHeard | src/tun.rs:107-180 | over every run, each epoch ended by the first worker heard, every one but the last by a lost device; the supervisor has stopped if and only if the last word was fatal and both workers are collected, and creates a device if and only if none was, with the channel as it is |
| Tun.WordsFitResults | src/tun.rs:183-300 | over every run, a worker's word asks to reconnect exactly if its last read gave no bytes or the device was lost, is fatal exactly if a channel was closed or the kind is unlisted, and otherwise answers a stop signal |
| Tun.TransientErrorsPass | src/tun.rs:228-231 | a transient error, or none, costs at most the packet in hand; the worker goes on and nothing else changes |
| Tun.ChannelTells | src/tun.rs:246-300 | over every run, what the coordinator sent, and nothing else, has been taken, is being written or waits in the channel, in order |
| Tun.OutcomesTell | src/tun.rs:264-285 | over every run, the outcomes tell exactly which writes succeeded, in order |
| Tun.ReceiverComesBack | src/tun.rs:113-178 | once one worker has been heard, some three or fewer more steps bring the receiver back, whatever a pending write returns |
| Tun.AwaitIsBounded | src/tun.rs:113-178 | under any schedule, while the supervisor waits, at most twice the queued and still sent packets plus three effective steps are taken, and the next one towards the end is always possible |

## Left out

- Endpoint construction, address lookup, relays, hole punching, QUIC and TLS: foreign code; connections open, fail, close and deliver datagrams arbitrarily.
- `src/custom_transport.rs`: it returns constants.
- Kernel TUN device, real reads and writes, sleeps and retry delays: nondeterministic results; there are no clocks.
- TOML parsing, key files, log levels, defaults and the rest of `Config::from_file`, and the text of addresses and keys: an address text is four numbers or malformed, a key text is a key or malformed.
- The text of log messages, `Display`, and channels whose other end is gone inside a node: main then ends the whole process.
- Fairness and real time: claims are about safety, about what can still be reached, and about draining; that a dial eventually succeeds is not claimed.
- ManagerObject.Iroh.HandleConnEvent: takes every send to the coordinator to find room; waiting for room, with other tasks moving meanwhile, is in the split moves of `ManagerRuns` and `Node`.
- ManagerObject.Iroh.HandleCoreEvent: the same.
- CoordinatorObject.CoordinatorActor.HandleActions: nobody reads from the channels during the loop; the interleaved form handles one action at a time in `Node`.
- CoordinatorObject.CoordinatorActor.HandleIrohEvent: the same.
- CoordinatorObject.CoordinatorActor.HandlePacketFromTun: the same.
- Tun.StepKeepsInv: supervisor and workers are moves on values, not an object, because three tasks interleave; the field `self.rx_from_coord` is the `owner` of the receiver.
- The `select!` loops of the manager and the coordinator have no object form: choosing the next message is a move.
- MeshTunnels.SingleTunnelPerPair: each node of the mesh is its manager with tasks; its coordinator only restricts when reports find room, and endpoints outside the mesh may dial anybody but run no modelled code.
- EndToEnd.WrittenHadEntered: gives counts, not order, because the network may reorder; which connection carries a datagram is not tied to the links of `Mesh`, so a session may hear from its peer over any of them.
- Tun.AwaitIsBounded: does not bound how often an awaited reader reads on, because nothing in the code prefers the stop signal to a packet.
- `VpnCore::verify_connection` and `Action::ConnectToPeer`: nothing uses them.
