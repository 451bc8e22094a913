# Backhaul: a verified model

Backhaul is a reverse tunnel. A server accepts local connections and asks a client, with single bytes on a control
channel, to dial tunnel connections back; it then pairs each local connection with one tunnel. The interesting part
is not the I/O but the queues, counters, session tables, framings and locks around it, which goroutines on two machines
share. This project models that part and proves what it keeps.

Protocols are state machines. A state holds the shared memory of the goroutines (channels are sequences, connections are
numbers) and where each goroutine stands; a step is one shared-memory operation or one outcome of the network, and every
timeout, error and interleaving is a step that may or may not come. `Run` folds any sequence of steps, so that a lemma
about `Run` is about every interleaving; a step that is not enabled leaves the state as it is. The object that the
program updates in place is a class beside the machine. Each of its methods is proved to be one of the machine's steps
and to keep the machine's laws (`Valid()`), so that a lookup finds an open channel, a close closes one, and a slot given
back was taken. Algorithms with loops and buffers are methods proved against functions, and the properties are lemmas
about those functions.

Two kinds of law are proved of a machine. Invariants say what holds in every state a run can reach. Traces compare the
state with what the steps of the run say: a queue gives out in order what it takes in, and a history is exactly the list
of the steps that were to contribute to it (`Gathered`, `Once`, `Times`), so that no outcome comes from any other step.

| files | what they model |
|---|---|
| `TunnelSupply`, `TunnelSupplyLaws`, `TunnelSupplyTraces`, `PoolTraces`, `TcpTransports` | requests, signals, dials, pairing and pool control of the TCP transport, on both machines |
| `UdpSessions`, `UdpRouting`, `UdpRefusals`, `UdpHandover`, `UdpListener` | the UDP listener of the TCP transport: session table, congestion hand-over, routing, refused sessions |
| `ByteStreams`, `Framing`, `UdpTunnelCopy` | datagrams over a TCP tunnel, both framings, the congestion test |
| `MuxScheduler`, `MuxOrder`, `MuxStarvation`, `MuxTransport` | counters, slots and the request rule of the multiplexed transport |
| `WsHandoff`, `WsOrder`, `WsTransport` | pings against the hand-over of a WebSocket tunnel, and the client that skips pings |
| `UdpTables`, `UdpTablesLaws`, `UdpLeftovers`, `UdpOrder`, `UdpTransport` | tunnel and session tables of the UDP transport, and what they never clear away |
| `BinaryCodec`, `CopyLoop` | self-delimiting messages and the raw copy loop |
| `GoStrings`, `PortMapping` | port mappings, from the configuration to the client's resolution |
| `UsageAccounting`, `UsageMonitor` | usage in memory, drained and saved to a file |
| `Tuning`, `TuningDirections`, `TuningInterval`, `TunerObject` | the auto-tuner |
| `Base` | options, bytes, counting and summing |

All claims are within one generation, that is between two calls of `Restart`.

## Findings

Some things one might expect are false of the code. The model keeps the code as it is and says exactly when they hold.

- A failed address write on a multiplexed session keeps its slot. `MuxStarvation.FailedSendsStarve` gives, for
  any number of sessions and slots, a run in which all sessions count as live and can serve nothing, the only connection
  waits and no session is requested;
  `MuxScheduler.RoomExactly` is the exact condition on the two counters under which every waiting connection has a slot.
- A UDP session refused by a full handler channel stays in the table, and its address is silenced for good
  (`UdpRefusals.RefusedForever`); no other open session is ever forgotten (`UdpRefusals.RunForgets`).
- In the UDP transport exactly the sessions skipped as expired and the tunnels with a failed address write are forgotten
  (`UdpLeftovers.RunForgetsLocals`, `UdpLeftovers.RunForgetsTunnels`), and they stay in their tables for good
  (`UdpLeftovers.ExpiredStays`, `UdpLeftovers.StuckStays`).
- The congestion test misses any packet up to ten minutes old that crosses a window boundary
  (`UdpTunnelCopy.BoundaryHidesLateness`); it has no false positives.
- Saves run in goroutines of their own and may overlap; then usage can be lost (`UsageAccounting.OverlapLoses`), exactly
  when a write finds the file changed since its reading (`UsageAccounting.WriteConservesWhenFresh`), and the traffic
  counter can part from the file (`UsageAccounting.OverlapParts`). While only the save that last reset the counter stores
  to it, they agree at rest exactly when the last reset and the last write come from saves with equal sums
  (`UsageAccounting.RunTotalAgrees`); a store goes wrong exactly when another came between its load and itself
  (`UsageAccounting.StoreAddsWhenCurrent`).
- A message over 65535 bytes is cut and its tail read as tunnel data (`BinaryCodec.DecodeEncode`).
- README.en.md, line 209, shows the mapping "443-600:5201"; the parser rejects the form (`PortMapping.ColonRangeIsFatal`).
  In "local=remote" the ports 1 and 65535 are taken for an address (`PortMapping.SingleForwards`).
- The comment at `internal/tuning/tuner.go:345` says that an unstable network is tuned more often; with a base interval
  under five minutes it is tuned less often (`TuningInterval.AdjustmentsTurnAround`).
- A channel size in 256..8192 that is not a power of two leaves that range on some run (`Tuning.ChannelSizeStays`).

## Model

| member | source | states |
|---|---|---|
| `TunnelSupplyLaws.RunBalanced` | internal/server/transport/tcp.go:505-521 | Conservation across both machines over every run: tunnels being dialed, idle or lost, requests still on their way and requests dropped equal the target pool size, outstanding shrink tokens and the connections waiting, timed out or abandoned |
| `TunnelSupplyLaws.IdleTunnelsCoverWaiting` | internal/client/transport/tcp.go:180-241 | with nothing pending, being dialed, lost or dropped, the idle tunnels exceed the waiting connections by at least the configured pool size |
| `TunnelSupplyLaws.RunPartitioned` | internal/server/transport/tcp.go:526-560 | with any number of handle loops sharing the queues, every accepted connection is in exactly one of queued, held, paired, timed out and abandoned, and every established tunnel in exactly one of arriving, queued, held, paired and lost |
| `TunnelSupplyLaws.PairingIsOneToOne` | internal/server/transport/tcp.go:544-554 | no tunnel is ever given to two connections and no connection gets two tunnels |
| `TunnelSupplyLaws.FailedWriteCostsOnlyTheTunnel` | internal/server/transport/tcp.go:546-550 | after a failed address write the worker still holds its connection, and the tunnel is paired with nothing in any continuation of the run |
| `TunnelSupplyLaws.RunPoolControlled` | internal/client/transport/tcp.go:205-241 | over every run the target pool size never falls below the configured one, swallowed signals plus tokens equal shrinks, the idle gauge equals the dialers awaiting an address, and load windows plus overwritten increments account for every signal |
| `TunnelSupplyLaws.GrowAndShrinkDisjoint` | internal/client/transport/tcp.go:227-233 | for non-negative counts the grow and shrink conditions exclude each other in both factor sets |
| `TunnelSupplyLaws.ResizeFollowsDemand` | internal/client/transport/tcp.go:185-197 | both conditions are monotone in load and idle tunnels |
| `TunnelSupply.CeilTenth` | internal/client/transport/tcp.go:219-223 | a window total of a non-negative count is rounded up to tenths |
| `TunnelSupplyTraces.RunOutcomes` | internal/server/transport/tcp.go:529-554 | the connections timed out are exactly those found older than three seconds, in order; those abandoned, the ones a stopping worker waited with; the pairs, those whose address was sent; the tunnels lost, those turned away or whose address could not be sent |
| `TunnelSupplyTraces.RunWaits` | internal/server/transport/tcp.go:534-544 | a worker waits for a tunnel only with a connection that it found young enough, having done nothing else since |
| `TunnelSupplyTraces.RunKeepsConnOrder` | internal/server/transport/tcp.go:505-531 | connections are accepted exactly while the local channel has room and taken in that order |
| `TunnelSupplyTraces.RunKeepsTunnelOrder` | internal/server/transport/tcp.go:319-350 | tunnels are admitted exactly from the control channel's peer while there is room, and taken in that order |
| `TunnelSupplyTraces.RunKeepsSignalOrder` | internal/client/transport/tcp.go:252-318 | the client handles signals in the order in which the server wrote them, none lost and none twice, until one ends its loop |
| `TunnelSupplyTraces.RunRequests` | internal/server/transport/tcp.go:508-514 | the request channel holds what was put in and not taken out; requests are dropped exactly on a full channel or a failed control write |
| `TunnelSupplyTraces.RunControls` | internal/server/transport/tcp.go:245-251 | the control channel is up until a signal could not be written |
| `TunnelSupplyTraces.ServerStepWorkers` | internal/server/transport/tcp.go:526-560 | what each step makes of a worker, the other workers untouched |
| `PoolTraces.RunBooked` | internal/client/transport/tcp.go:217-240 | the target pool size is the configured one plus the windows that wanted more less those that wanted fewer; dialers are started for these, for every signal without a token and at the start; tokens swallow exactly while there are any |
| `PoolTraces.RawConditions` | internal/client/transport/tcp.go:185-233 | the grow and shrink conditions in whole numbers: more than 5 average - 4 or 2 average - 1 of load, less than 4 average - 3 or three quarters of the average |
| `PoolTraces.RunMeasured` | internal/client/transport/tcp.go:213-224 | a window's readings are the idle gauge once a second and the signals counted since the last window |
| `PoolTraces.StepDialers` | internal/client/transport/tcp.go:324-350 | what each step makes of a dialer, the others untouched |
| `TcpTransports.ServerTransport.constructor` | internal/server/transport/tcp.go:54-65 | the queues start empty and all workers idle |
| `TcpTransports.ServerTransport.AcceptLocalConn` | internal/server/transport/tcp.go:505-521 | the step of queueing a connection, done exactly when the local channel has room; the partition of connections is kept and the ledger is unchanged |
| `TcpTransports.ServerTransport.RequestNewConn` | internal/server/transport/tcp.go:508-514 | the step of asking for a tunnel, or dropping the request on a full channel; the partition of connections is kept and the ledger is unchanged |
| `TcpTransports.ServerTransport.SendSignal` | internal/server/transport/tcp.go:245-251 | the step of writing one signal; a failed write ends the control loop; the partition of connections is kept and the ledger loses what goes to the wire |
| `TcpTransports.ServerTransport.AcceptTunnelConn` | internal/server/transport/tcp.go:319-350 | the step of queueing a tunnel from the peer's address, any other or surplus one being lost; the partition of connections is kept and the ledger gains one tunnel |
| `TcpTransports.ServerTransport.HandleLocal` | internal/server/transport/tcp.go:531-533 | the step of taking the oldest local connection; the partition of connections is kept and the ledger is unchanged |
| `TcpTransports.ServerTransport.CheckAge` | internal/server/transport/tcp.go:534-538 | connections older than three seconds, and only they, time out; the others are waited with; the partition of connections is kept and the ledger is unchanged |
| `TcpTransports.ServerTransport.HandleTunnel` | internal/server/transport/tcp.go:544 | the step of taking the oldest tunnel; the partition of connections is kept and the ledger is unchanged |
| `TcpTransports.ServerTransport.FinishSend` | internal/server/transport/tcp.go:546-554 | the step after the address write: paired on success; tunnel lost and connection kept on failure; the partition of connections is kept and the ledger is unchanged |
| `TcpTransports.ServerTransport.Cancel` | internal/server/transport/tcp.go:113-115 | cancellation moves nothing by itself; the partition of connections is kept and the ledger is unchanged |
| `TcpTransports.ServerTransport.Stop` | internal/server/transport/tcp.go:529-542 | at cancellation a waiting worker abandons its connection; the partition of connections is kept and the ledger is unchanged |
| `TcpTransports.ClientTransport.constructor` | internal/client/transport/tcp.go:181-206 | one dialer per configured pool connection and the factor set chosen by the configuration |
| `TcpTransports.ClientTransport.HandleMessage` | internal/client/transport/tcp.go:285-318 | dispatch of one control byte; unexpected and closing bytes and a failed RTT reply end the loop; the pool bounds are kept and the ledger is unchanged |
| `TcpTransports.ClientTransport.TakeTokenOrDial` | internal/client/transport/tcp.go:290-296 | a token swallows the signal, otherwise a dialer starts; the pool bounds are kept and the ledger is unchanged |
| `TcpTransports.ClientTransport.AccumulatePool` | internal/client/transport/tcp.go:213-215 | the gauge is added to the window sum; the pool bounds are kept and the ledger is unchanged |
| `TcpTransports.ClientTransport.LoadWindow` | internal/client/transport/tcp.go:219 | the load is read apart from its reset; the pool bounds are kept and the ledger is unchanged |
| `TcpTransports.ClientTransport.AdjustPool` | internal/client/transport/tcp.go:217-240 | reset and resize together are the machine's step; the pool bounds are kept and the ledger is unchanged |
| `TcpTransports.ClientTransport.ResetWindow` | internal/client/transport/tcp.go:220-224 | the reset erases increments made since the read, and these are accounted for; the pool bounds are kept |
| `TcpTransports.ClientTransport.ResizePool` | internal/client/transport/tcp.go:227-239 | grow, shrink with a token owed, or neither; the pool bounds are kept |
| `TcpTransports.ClientTransport.PushToken` | internal/client/transport/tcp.go:238 | the token owed is delivered once there is room; the pool bounds are kept and the ledger is unchanged |
| `TcpTransports.ClientTransport.AwaitAddress` | internal/client/transport/tcp.go:337-341 | the gauge goes up when a dial has succeeded; the pool bounds are kept and the ledger is unchanged |
| `TcpTransports.ClientTransport.FinishAwait` | internal/client/transport/tcp.go:343-344 | the gauge goes down once per dialer, on success or error; the pool bounds are kept and the ledger is unchanged |
| `UdpSessions.RunSafe` | internal/server/transport/accept_udp.go:62-119 | over every interleaving of listener, handlers and congestion flags: no send to a closed payload channel, no second close, and a closed channel found in the table belongs to a congested session |
| `UdpSessions.TableGuarantees` | internal/server/transport/accept_udp.go:159-187 | at most one session per client address is neither congested nor closed, and a finishing handler that deletes an entry deletes its own |
| `UdpRouting.RunRouted` | internal/server/transport/accept_udp.go:53-120 | every datagram read is in exactly one queue, once, or dropped, once; queues hold only their own address's datagrams in arrival order |
| `UdpRouting.OutputIsPrefix` | internal/server/transport/accept_udp.go:189-229 | what a session's tunnel accepted is a prefix of the frames of the datagrams queued to it |
| `UdpRouting.RunFramed` | internal/server/transport/accept_udp.go:212-223 | at every moment the bytes written and the rest of the current packet are exactly the frames of the datagrams taken |
| `UdpRouting.RunDropsFull` | internal/server/transport/accept_udp.go:73-80 | a datagram is dropped only when the session found has a full payload channel or the handler channel is full |
| `UdpRefusals.RunForgets` | internal/server/transport/accept_udp.go:107-119 | over every run an open session is in nobody's hands (not the listener's, not in the handler channel, not with the handler loop, no handler running) if and only if its offer once met a full handler channel |
| `UdpRefusals.RunRefuses` | internal/server/transport/accept_udp.go:118-119 | over every run a session is refused if and only if its offer met a full handler channel |
| `UdpRefusals.RunPlaced` | internal/server/transport/accept_udp.go:102-149 | over every run a stored session is with the listener, an offered one in the handler channel, a held one with the handler loop |
| `UdpRefusals.RefusalOrphans` | internal/server/transport/accept_udp.go:107-119 | an offer orphans the session just stored if and only if the handler channel is full |
| `UdpRefusals.RefusedForever` | internal/server/transport/accept_udp.go:102-119 | a refused session stays the table's entry for its address for the rest of the run: never served, never replaced, its datagrams never sent |
| `UdpRefusals.SecondAddressRefused` | internal/server/transport/accept_udp.go:118-119 | a run with a handler channel of one place that refuses the second address |
| `UdpHandover.RunAsSaid` | internal/server/transport/accept_udp.go:255-267 | over every run a session is congested if and only if it was flagged, closed if and only if its handler exited, and its copiers are done if and only if they ended |
| `UdpHandover.LookupDecides` | internal/server/transport/accept_udp.go:62-99 | a datagram goes to the table's session of its address exactly while that is there and not congested, and otherwise to a session of its own |
| `UdpHandover.RunKeepsOfferOrder` | internal/server/transport/accept_udp.go:107-133 | the arrivals are the datagrams read, and the handler loop takes sessions in the order in which they were offered, its channel never over its size |
| `UdpHandover.RunPayloadsFit` | internal/server/transport/accept_udp.go:90 | no payload channel ever holds more than 100000 datagrams |
| `UdpHandover.HandoverReached` | internal/server/transport/accept_udp.go:62-119 | a run in which a session is flagged, the next datagram of its address goes to a second one, and the first handler's exit leaves the second one's entry |
| `UdpListener.AcceptUdpListener.constructor` | internal/server/transport/accept_udp.go:32-42 | an empty table and an idle listener |
| `UdpListener.AcceptUdpListener.ReadDatagram` | internal/server/transport/accept_udp.go:53-86 | a live uncongested entry is found, any other address leads to a new session; all laws of the table, the routing and the framing are kept |
| `UdpListener.AcceptUdpListener.Send` | internal/server/transport/accept_udp.go:74-80 | a send to an open channel queues, or drops when it is full |
| `UdpListener.AcceptUdpListener.DeliverToExisting` | internal/server/transport/accept_udp.go:73-82 | the send to the session found, whose channel is open; all laws of the table, the routing and the framing are kept |
| `UdpListener.AcceptUdpListener.StoreSession` | internal/server/transport/accept_udp.go:90-105 | the new session replaces the address's entry; all laws of the table, the routing and the framing are kept |
| `UdpListener.AcceptUdpListener.OfferSession` | internal/server/transport/accept_udp.go:107-120 | session and first payload reach the handler loop and a tunnel is requested, or the datagram is dropped; all laws of the table, the routing and the framing are kept |
| `UdpListener.AcceptUdpListener.TakeSession` | internal/server/transport/accept_udp.go:133 | the handler loop takes the oldest session; all laws of the table, the routing and the framing are kept |
| `UdpListener.AcceptUdpListener.StartHandler` | internal/server/transport/accept_udp.go:149-152 | the session gets its handler; all laws of the table, the routing and the framing are kept |
| `UdpListener.AcceptUdpListener.Flag` | internal/server/transport/accept_udp.go:264-267 | the session is congested from here on, without the mutex; all laws of the table, the routing and the framing are kept |
| `UdpListener.AcceptUdpListener.FinishHandler` | internal/server/transport/accept_udp.go:180-186 | the payload channel, which was open, is closed, and no entry but the session's own is deleted; all laws of the table, the routing and the framing are kept |
| `Framing.ParseCut` | internal/client/transport/accept_udp.go:46-72 | a stream of frames cut at any byte parses to exactly the packets whose frames lie wholly before the cut, for both header forms |
| `Framing.ParseWhole` | internal/client/transport/accept_udp.go:46-72 | an uncut stream parses to every packet sent and nothing else |
| `Framing.DatagramsSurvive` | internal/client/transport/accept_udp.go:62-82 | whatever prefix arrives, the datagrams forwarded are a prefix of the non-empty ones sent, all of them if all arrives, and matched peers never reach the oversize branch |
| `Framing.BrokenOff` | internal/server/transport/accept_udp.go:215-223 | a write loop that fails anywhere inside a packet has written a prefix of the whole stream |
| `Framing.Uint16RoundTrip` | internal/server/transport/accept_udp.go:210 | the length field holds the length modulo 65536 |
| `Framing.Uint32RoundTrip` | internal/client/transport/accept_udp.go:123 | a timestamp below 2^32 survives its four-byte header |
| `UdpTunnelCopy.TowardsClient` | internal/server/transport/accept_udp.go:189-229 | server to client, end to end: frames of any datagrams within the reader's buffer come out in order, a prefix if the stream is cut |
| `UdpTunnelCopy.TowardsServer` | internal/client/transport/accept_udp.go:92-146 | client to server, end to end, for timestamped packets |
| `UdpTunnelCopy.UdpToTcp` | internal/server/transport/accept_udp.go:195-234 | for every short-write pattern the tunnel holds a prefix of the frames; the loop ends by idling, with all of them, if and only if no write failed; payloads too long for the header are skipped; usage recorded never exceeds what was written and lags by at most one packet |
| `UdpTunnelCopy.ReadSized` | internal/client/transport/accept_udp.go:46-72 | one packet read: exactly when a whole acceptable packet is there, with the oversize case distinguished |
| `UdpTunnelCopy.ClientTcpToUdp` | internal/client/transport/accept_udp.go:42-90 | the reader forwards the non-empty datagrams parsed from the stream, exactly as many as its socket accepts, stops at an oversize packet if and only if there is one, and records their volume |
| `UdpTunnelCopy.ClientUdpToTcp` | internal/client/transport/accept_udp.go:92-153 | for every short-write pattern the stream is a prefix of the timestamped frames, complete if and only if no write failed, each packet fits the preallocated buffer, and recorded usage lags by at most one packet |
| `UdpTunnelCopy.ReadStamped` | internal/server/transport/accept_udp.go:244-298 | one timestamped packet read in three exact reads |
| `UdpTunnelCopy.ServerTcpToUdp` | internal/server/transport/accept_udp.go:238-320 | forwards like the client's reader and flags the session exactly when one of the timestamps read looks late, and records the volume forwarded |
| `UdpTunnelCopy.LatenessTest` | internal/server/transport/accept_udp.go:255-267 | the test sees the true age less ten minutes per window boundary crossed: it never fires on a packet younger than three RTTs (300 ms if the RTT is unmeasured) and is exact within one window |
| `UdpTunnelCopy.BoundaryHidesLateness` | internal/server/transport/accept_udp.go:258-265 | a packet up to ten minutes old that crosses a window boundary is never noticed |
| `UdpTunnelCopy.StampsOfCut` | internal/server/transport/accept_udp.go:244-256 | the timestamps read from a cut stream are those of the packets sent, in order, exactly as far as their four bytes lie before the cut |
| `UdpTunnelCopy.NoFalseCongestion` | internal/client/transport/accept_udp.go:113-123 | with a common clock, a flagged session has a packet whose true age exceeded three effective RTTs when it was read |
| `UdpTunnelCopy.LatePacketCongests` | internal/server/transport/accept_udp.go:255-267 | within one window a packet older than three RTTs whose timestamp was read flags the session |
| `ByteStreams.Stream.ReadFull` | internal/server/transport/accept_udp.go:245 | a full read or an error after draining what is left |
| `ByteStreams.Sink.Write` | internal/server/transport/accept_udp.go:217 | a write takes some first part of its argument, whether it succeeds or fails, and failures are remembered |
| `ByteStreams.Sink.WriteAll` | internal/server/transport/accept_udp.go:215-223 | the loop around short writes writes everything or, on an error, a prefix |
| `MuxScheduler.RunAccounted` | internal/server/transport/tcpmux.go:573-636 | over every run streams counted plus accepters still to count equal queued, held and running ones; sessions counted equal live ones until cancellation; each live session's slots are its unreleased streams, its current pick and one per failed address send, never above the limit |
| `MuxScheduler.RoomExactly` | internal/server/transport/tcpmux.go:535-546 | over every run until cancellation there is a free slot for every waiting connection if and only if streams counted or to be counted and slots withheld fit into the counted sessions, leaving aside streams of sessions that are gone |
| `MuxScheduler.RoomLedger` | internal/server/transport/tcpmux.go:573-636 | the exact difference between waiting connections and free slots, in terms of the two counters |
| `MuxScheduler.RequestRuleSound` | internal/server/transport/tcpmux.go:535-546 | while the counters ask for no session, the waiting connections can outnumber the free slots only by accepters still counting and slots withheld |
| `MuxScheduler.QuietAcceptHasRoom` | internal/server/transport/tcpmux.go:538-546 | with counting and releasing done, no failed send and a loaded count not below the current one, an accept that asks for nothing leaves a slot for every waiting connection |
| `MuxScheduler.WedgedForever` | internal/server/transport/tcpmux.go:604-609 | a session that lost all its slots to failed address sends picks no connection for the rest of the run and still counts as live |
| `MuxOrder.RunPlaces` | internal/server/transport/tcpmux.go:573-636 | over every run each accepted connection is in exactly one place, as often as it was accepted: queued, in a session's hands, served by a stream, or expired |
| `MuxOrder.RunKeepsOrder` | internal/server/transport/tcpmux.go:586 | connections are picked in exactly the order in which they entered the queue, by an accept or a requeue; the queue never exceeds its size |
| `MuxOrder.RunRequests` | internal/server/transport/tcpmux.go:538-546 | a session is asked for exactly by an accept whose loaded count reaches the counted sessions' slots, or by a session that could open no stream, while the request channel has room |
| `MuxOrder.RunStreams` | internal/server/transport/tcpmux.go:597-617 | running and finishing streams, failed sends and the goroutines between two operations are exactly as many as the steps say |
| `MuxOrder.SessionMoves` | internal/server/transport/tcpmux.go:573-619 | what each step makes of its session, the other sessions untouched |
| `MuxStarvation.FailedSendsStarve` | internal/server/transport/tcpmux.go:604-609 | the request rule fails after failed sends, for every number of slots and sessions with more than one slot in all: a run leaves the only connection queued, every session wedged and nothing requested |
| `MuxStarvation.OneFails` | internal/server/transport/tcpmux.go:604-609 | a failed address send costs its session one slot and changes nothing else |
| `MuxTransport.TcpMuxTransport.constructor` | internal/server/transport/tcpmux.go:76-84 | empty queue, no sessions, counters at zero |
| `MuxTransport.TcpMuxTransport.AcceptLocalConn` | internal/server/transport/tcpmux.go:531-533 | queueing, done exactly when the local channel has room; all accounts are kept |
| `MuxTransport.TcpMuxTransport.CountStream` | internal/server/transport/tcpmux.go:536 | the stream counter is raised after queueing; all accounts are kept |
| `MuxTransport.TcpMuxTransport.LoadStreams` | internal/server/transport/tcpmux.go:538 | the stream counter is loaded first; all accounts are kept |
| `MuxTransport.TcpMuxTransport.CompareCounters` | internal/server/transport/tcpmux.go:538-546 | a session is requested exactly when the streams loaded reach sessions times slots and the request channel has room; all accounts are kept |
| `MuxTransport.TcpMuxTransport.RequestNewConn` | internal/server/transport/tcpmux.go:541-545 | a request is dropped on a full channel |
| `MuxTransport.TcpMuxTransport.StartSession` | internal/server/transport/tcpmux.go:564-568 | the session is counted and started; all accounts are kept |
| `MuxTransport.TcpMuxTransport.AcquireSlot` | internal/server/transport/tcpmux.go:580 | a slot is taken before selecting; all accounts are kept |
| `MuxTransport.TcpMuxTransport.PickConnection` | internal/server/transport/tcpmux.go:586 | the oldest connection is picked; all accounts are kept |
| `MuxTransport.TcpMuxTransport.Expire` | internal/server/transport/tcpmux.go:587-592 | an expired pick lowers the stream counter; all accounts are kept |
| `MuxTransport.TcpMuxTransport.ReleaseSlot` | internal/server/transport/tcpmux.go:593-594 | and then gives its slot back; all accounts are kept |
| `MuxTransport.TcpMuxTransport.FailSession` | internal/server/transport/tcpmux.go:597-625 | a session that opens no stream stops counting; all accounts are kept |
| `MuxTransport.TcpMuxTransport.PutBack` | internal/server/transport/tcpmux.go:627-628 | and its connection is queued again; all accounts are kept |
| `MuxTransport.TcpMuxTransport.AskAndReturn` | internal/server/transport/tcpmux.go:630-635 | and another session is requested; all accounts are kept |
| `MuxTransport.TcpMuxTransport.RequeueAfterFailedSend` | internal/server/transport/tcpmux.go:604-608 | the connection is queued again but the slot stays taken; all accounts are kept |
| `MuxTransport.TcpMuxTransport.StartStream` | internal/server/transport/tcpmux.go:611-617 | the stream starts copying with its slot; all accounts are kept |
| `MuxTransport.TcpMuxTransport.EndStream` | internal/server/transport/tcpmux.go:613-614 | the stream counter is lowered after copying; all accounts are kept |
| `MuxTransport.TcpMuxTransport.ReleaseStream` | internal/server/transport/tcpmux.go:615 | and then the slot is given back; all accounts are kept |
| `WsHandoff.RunSafe` | internal/server/transport/ws.go:529-594 | over every run each tunnel's written messages are pings, then possibly one address followed only by data; the two goroutines never hold the lock together; no ping channel is closed twice |
| `WsHandoff.AddressRecovered` | internal/client/transport/ws.go:333-371 | from the messages of any run the client recovers exactly the address handed over, with only data left to read, if and only if the address is not the single ping byte |
| `WsHandoff.NothingBeforeHandover` | internal/client/transport/ws.go:340-354 | before the address is written the client finds none |
| `WsHandoff.AwaitAddress` | internal/client/transport/ws.go:330-357 | the client's loop returns the first message that is not a ping and leaves the idle gauge as it found it |
| `WsOrder.RunAsSaid` | internal/server/transport/ws.go:543-594 | over every run a tunnel's messages are exactly those its steps got through, in order and with their bytes; it was taken for the one address sent on it; it is closed and its pings are silenced exactly by the steps that say so |
| `WsOrder.RunKeepsOrder` | internal/server/transport/ws.go:303-310 | tunnels are taken in the order in which they connected, and connect exactly while the channel has room |
| `WsOrder.TunnelStepMoves` | internal/server/transport/ws.go:563-594 | what each step makes of the keep-alive goroutine, the worker and the lock |
| `WsOrder.TickDecides` | internal/server/transport/ws.go:576-583 | a tick pings exactly when the lock is free, and otherwise ends the pings for good |
| `WsTransport.TunnelChannel.constructor` | internal/server/transport/ws.go:298-302 | a tunnel starts unlocked with an open ping channel |
| `WsTransport.TunnelChannel.TryPing` | internal/server/transport/ws.go:576-583 | a tick ends the pings when the lock is taken, and never takes it from the worker; the discipline is kept |
| `WsTransport.TunnelChannel.SendPing` | internal/server/transport/ws.go:585 | one ping under the lock, after nothing but pings; the discipline is kept |
| `WsTransport.TunnelChannel.UnlockAfterPing` | internal/server/transport/ws.go:586-590 | the lock is given back after success and failure alike; the discipline is kept |
| `WsTransport.TunnelChannel.Take` | internal/server/transport/ws.go:546 | the worker takes a tunnel that nobody else has; the discipline is kept |
| `WsTransport.TunnelChannel.StopPings` | internal/server/transport/ws.go:547 | the worker closes the ping channel, which is open; the discipline is kept |
| `WsTransport.TunnelChannel.LockForever` | internal/server/transport/ws.go:548 | the worker takes the lock for good, with nothing but pings written; the discipline is kept |
| `WsTransport.TunnelChannel.SendAddress` | internal/server/transport/ws.go:549-553 | the address is written right after the pings, or the connection closed; the discipline is kept |
| `WsTransport.TunnelChannel.SendData` | internal/server/transport/ws.go:555 | data follows the address; the discipline is kept |
| `UdpTablesLaws.RunSafe` | internal/server/transport/udp.go:323-373 | over every run of a generation, with one handle loop per listener sharing the tunnel channel: every payload channel a reader looks up is open, payload and ping channels are closed at most once, and bindings of tunnels to local sessions are one to one |
| `UdpLeftovers.RunForgetsLocals` | internal/server/transport/udp.go:581-584 | over every run an open session is in nobody's hands (reader, channel, loop or binding) if and only if its loop once skipped it as expired |
| `UdpLeftovers.RunForgetsTunnels` | internal/server/transport/udp.go:596-600 | over every run an open tunnel is in nobody's hands if and only if writing an address to it once failed |
| `UdpLeftovers.RunPlaced` | internal/server/transport/udp.go:360-611 | over every run each stage of a session or tunnel names whose queue, hands or binding it is in |
| `UdpLeftovers.RunExpires` | internal/server/transport/udp.go:581-584 | a session is expired if and only if its loop skipped it, refused if and only if its offer met a full channel, closed if and only if its copiers closed it |
| `UdpLeftovers.RunSticks` | internal/server/transport/udp.go:597-599 | a tunnel is stuck if and only if its address write failed, refused if and only if its offer met a full channel, ended if and only if its copiers closed it |
| `UdpLeftovers.ExpiredStays` | internal/server/transport/udp.go:581-584 | an expired session keeps its table entry, open and unserved, for the rest of the run |
| `UdpLeftovers.StuckStays` | internal/server/transport/udp.go:597-599 | a tunnel whose address write failed keeps its table entry, open and unbound, for the rest of the run |
| `UdpLeftovers.ExpiryReached` | internal/server/transport/udp.go:581-584 | a run of one listener that expires a session |
| `UdpLeftovers.FailureReached` | internal/server/transport/udp.go:597-599 | a run of one listener and one tunnel whose address write fails |
| `UdpOrder.RunNames` | internal/server/transport/udp.go:340-361 | over every run the tunnels are exactly those announced by the token from an unknown address, in order; the sessions, those opened; the bindings, those whose address was sent |
| `UdpOrder.RunKeepsTunnelOrder` | internal/server/transport/udp.go:364-367 | the loops take tunnels in the order in which they were offered, though they share the channel |
| `UdpOrder.RunKeepsLocalOrder` | internal/server/transport/udp.go:547-580 | each loop takes its sessions in the order in which they were offered |
| `UdpOrder.LocalPacketDecides` | internal/server/transport/udp.go:514-528 | a local packet from a known address changes no table, any other opens a session |
| `UdpTransport.UdpServer.constructor` | internal/server/transport/udp.go:488-497 | empty tables and channels |
| `UdpTransport.UdpServer.AcceptTunnelPacket` | internal/server/transport/udp.go:323-343 | a known tunnel is found with its channel open, only the token announces a new one; all tables stay safe |
| `UdpTransport.UdpServer.StoreTunnel` | internal/server/transport/udp.go:345-361 | the tunnel enters the table; all tables stay safe |
| `UdpTransport.UdpServer.OfferTunnel` | internal/server/transport/udp.go:364-373 | the tunnel is queued, or closed and deleted on a full channel; all tables stay safe |
| `UdpTransport.UdpServer.AcceptLocalPacket` | internal/server/transport/udp.go:514-528 | a known session is found with its channel open; all tables stay safe |
| `UdpTransport.UdpServer.StoreLocal` | internal/server/transport/udp.go:530-545 | the session enters its listener's table; all tables stay safe |
| `UdpTransport.UdpServer.OfferLocal` | internal/server/transport/udp.go:547-566 | the session is offered, or closed and deleted on a full channel; all tables stay safe |
| `UdpTransport.UdpServer.TakeLocal` | internal/server/transport/udp.go:580-584 | sessions older than three seconds are skipped; all tables stay safe |
| `UdpTransport.UdpServer.TakeTunnel` | internal/server/transport/udp.go:592 | the oldest tunnel is taken; all tables stay safe |
| `UdpTransport.UdpServer.ClosePing` | internal/server/transport/udp.go:593 | its ping channel, which is open, is closed; all tables stay safe |
| `UdpTransport.UdpServer.SendAddress` | internal/server/transport/udp.go:596-606 | the binding is made, or the tunnel left behind; all tables stay safe |
| `UdpTransport.UdpServer.CloseLocal` | internal/server/transport/udp.go:628-632 | the session is closed and deleted first; all tables stay safe |
| `UdpTransport.UdpServer.CloseTunnel` | internal/server/transport/udp.go:634-638 | then the tunnel; all tables stay safe |
| `BinaryCodec.DecodeEncode` | internal/utils/binary.go:12-85 | what arrives of any message is its first part of length modulo 65536; the rest is taken for tunnel bytes |
| `BinaryCodec.MessageSurvives` | internal/utils/binary.go:87-166 | message, transport byte and following raw bytes survive if and only if the message is at most 65535 bytes |
| `BinaryCodec.TruncatedMessageIsRejected` | internal/utils/binary.go:121-166 | a message cut anywhere is an error |
| `BinaryCodec.DecodeConcatenation` | internal/utils/binary.go:43-85 | concatenated messages decode to exactly those messages |
| `BinaryCodec.Send` | internal/utils/binary.go:87-119 | the buffer written in one write is the encoding, or a prefix of it on a short write, and the result is that of the write |
| `BinaryCodec.Receive` | internal/utils/binary.go:121-166 | two exact reads decode the message and leave the following bytes unread |
| `CopyLoop.Source.Read` | internal/utils/tcpConnHandler.go:30 | a read delivers the next bytes offered, at most a buffer full, or an error, possibly with bytes |
| `CopyLoop.TransferData` | internal/utils/tcpConnHandler.go:26-65 | for every pattern of short reads, short writes and errors it goes on until the source reports an error or a write fails, and tells which; the bytes written are a prefix of those the source offers before its first error, all of them unless a write failed; recorded usage never exceeds them and lags by at most 16 KiB |
| `PortMapping.ParsePortMappings` | internal/server/transport/tcp.go:355-444 | the listeners started are those of the mappings in order, up to the first fatal one |
| `PortMapping.StartMapping` | internal/server/transport/tcp.go:357-442 | the branches for one mapping start what its meaning says |
| `PortMapping.StartRange` | internal/server/transport/tcp.go:384-389 | one listener per port of a range, in order |
| `PortMapping.Range` | internal/server/transport/tcp.go:367-382 | bounds accepted are ports, the first not above the second |
| `PortMapping.RangeListens` | internal/server/transport/tcp.go:362-390 | "a-b" starts exactly the listeners from a to b if both are ports and a is not above b, and is fatal otherwise |
| `PortMapping.RangeForwards` | internal/server/transport/tcp.go:399-428 | "a-b=R" sends R for every port of the range, under the same condition |
| `PortMapping.RangeEndToEnd` | internal/client/transport/shared.go:117-141 | the text sent for port p of a range is resolved by the client to p at 127.0.0.1:p |
| `PortMapping.SingleEndToEnd` | internal/server/transport/tcp.go:391-398 | every numeral Atoi accepts as a port listens there and resolves to the same port; any other text is fatal |
| `PortMapping.SingleForwards` | internal/server/transport/tcp.go:429-437 | "p=R" listens on ":p" if and only if p lies strictly between 1 and 65535 |
| `PortMapping.AddressForwards` | internal/server/transport/tcp.go:429-437 | "local=remote" with any other local text takes it for an address as it is |
| `PortMapping.TwoEqualsIsFatal` | internal/server/transport/tcp.go:438-440 | a mapping with more than one "=" is fatal |
| `PortMapping.MapAllInOrder` | internal/server/transport/tcp.go:356-443 | mappings are taken one after the other, each starting its own listeners, until one is fatal |
| `PortMapping.SpacesIgnored` | internal/server/transport/tcp.go:363 | spaces around a text make no difference |
| `PortMapping.ColonRangeIsFatal` | README.en.md:209 | the documented form "a-b:c" is always rejected |
| `PortMapping.NumeralResolves` | internal/client/transport/shared.go:124-131 | a bare numeral resolves to that port of the local host |
| `PortMapping.HostPortResolves` | internal/client/transport/shared.go:134-140 | "host:port" passes through exactly when its port is a number |
| `PortMapping.ColonsResolve` | internal/client/transport/shared.go:119-140 | only the text between the first two colons is read as the port |
| `GoStrings.SplitAt` | internal/server/transport/tcp.go:357 | splitting at the first separator |
| `GoStrings.AtoiItoa` | internal/server/transport/tcp.go:385-387 | a printed port parses to itself |
| `GoStrings.TrimAround` | internal/server/transport/tcp.go:363 | trimming text around a character that is not a space trims each side |
| `GoStrings.TrimSpaces` | internal/server/transport/tcp.go:363 | trimming removes the spaces around a text and nothing else |
| `GoStrings.AsciiSpaces` | internal/server/transport/tcp.go:363 | which ASCII characters are spaces |
| `GoStrings.AtoiSigned` | internal/server/transport/tcp.go:393 | signed numerals parse to their values, within 64 bits |
| `UsageAccounting.RunConserves` | internal/web/sniffer.go:311-390 | over every run, with saves overlapping in any way, a port's usage in file, memory and unwritten drains changes by exactly what was added less what writes from an outdated reading discard, modulo 2^64 |
| `UsageAccounting.RunConservesUsage` | internal/web/sniffer.go:294-390 | with saves that do not overlap, it changes by exactly what was added |
| `UsageAccounting.WriteConservesWhenFresh` | internal/web/sniffer.go:346-390 | a write conserves a port's usage if and only if the file still says what the save had read |
| `UsageAccounting.OverlapLoses` | internal/web/sniffer.go:237-238 | two overlapping saves started by the ticker lose usage, in a concrete run for every port and amount |
| `UsageAccounting.MergeConserves` | internal/web/sniffer.go:349-367 | merging adds drained usage to the file's, port by port |
| `UsageAccounting.LastEntryCounts` | internal/web/sniffer.go:353-355 | of several file entries of a port the last one counts |
| `UsageAccounting.RunDistinct` | internal/web/sniffer.go:371-388 | from the first write on the file lists no port twice, whatever the interleaving |
| `UsageAccounting.RunTotalAgrees` | internal/web/sniffer.go:369-388 | on every schedule whose stores since the last reset are all by the save that reset: at rest totalTraffic is the file's sum if and only if that save's entries come to as much as those of the save that last wrote |
| `UsageAccounting.StoreAddsWhenCurrent` | internal/web/sniffer.go:375 | a store adds its entry to totalTraffic if and only if the counter still is what was loaded |
| `UsageAccounting.RunQuiet` | internal/web/sniffer.go:369-376 | on such schedules no interference is recorded and the pending load is up to date |
| `UsageAccounting.RunTotalExactly` | internal/web/sniffer.go:369-388 | the books of every schedule at rest: the counter against the file, with the interference recorded store by store |
| `UsageAccounting.RunTotalled` | internal/web/sniffer.go:369-376 | over every run totalTraffic is what the save that last reset it has added plus the interference since |
| `UsageAccounting.RunSavedWithoutOverlap` | internal/web/sniffer.go:369-388 | with saves that do not overlap, totalTraffic equals the file's sum after each save |
| `UsageAccounting.OverlapParts` | internal/web/sniffer.go:237-238 | two overlapping saves leave totalTraffic at zero beside a non-empty file, in a concrete run for every port and amount |
| `UsageAccounting.RunReads` | internal/web/sniffer.go:442-447 | after a write, reads are strictly increasing by port and list exactly the file's table |
| `UsageAccounting.OrderIsInvisible` | internal/web/sniffer.go:371-376 | sorted read and traffic total do not depend on the order in which a map was ranged over |
| `UsageAccounting.SortOrders` | internal/web/sniffer.go:442-445 | a read is ordered by port |
| `UsageAccounting.SortCounts` | internal/web/sniffer.go:442-445 | a read has the file's entries, each as often |
| `UsageMonitor.Usage.constructor` | internal/web/sniffer.go:68-82 | nothing in memory, no save under way |
| `UsageMonitor.Usage.AddOrUpdatePort` | internal/web/sniffer.go:294-309 | usage is added to the port's entry; the laws of saves and counter are kept |
| `UsageMonitor.Usage.CollectUsageData` | internal/web/sniffer.go:474-487 | memory is emptied into a list of every entry, once |
| `UsageMonitor.Usage.OpenSave` | internal/web/sniffer.go:311-343 | a save starts from the file's content; the laws of saves and counter are kept |
| `UsageMonitor.Usage.DrainSave` | internal/web/sniffer.go:346 | and takes what memory holds; the laws of saves and counter are kept |
| `UsageMonitor.Usage.ResetTotal` | internal/web/sniffer.go:349-369 | the entries are merged and the counter is reset; the laws of saves and counter are kept |
| `UsageMonitor.Usage.LoadTotal` | internal/web/sniffer.go:375 | adding an entry loads the counter; the laws of saves and counter are kept |
| `UsageMonitor.Usage.StoreTotal` | internal/web/sniffer.go:375 | and stores it, without a lock; the laws of saves and counter are kept |
| `UsageMonitor.Usage.AddAllToTotal` | internal/web/sniffer.go:373-376 | all merged entries are added |
| `UsageMonitor.Usage.FinishSave` | internal/web/sniffer.go:379-389 | the merged entries are written; the laws of saves and counter are kept |
| `UsageMonitor.Usage.SaveUsageData` | internal/web/sniffer.go:311-390 | a whole save adds memory to the file port by port, empties memory, leaves no duplicate port and a counter equal to the file's sum |
| `UsageMonitor.Usage.GetUsageFromFile` | internal/web/sniffer.go:392-448 | the file sorted by port |
| `UsageMonitor.Merge` | internal/web/sniffer.go:349-367 | the merge loops |
| `UsageMonitor.ListEntries` | internal/web/sniffer.go:371-374 | the merged map as a list without duplicates |
| `Tuning.RunSettles` | internal/tuning/tuner.go:182-315 | over every sequence of measurements each followed setting keeps its first value while every target lies within a step of it, and is otherwise exactly at the last target |
| `Tuning.RunKeepalives` | internal/tuning/tuner.go:156-176 | the same for the two keepalives together: both keep their values, or both are at the last target |
| `Tuning.RunDesynchronised` | internal/tuning/tuner.go:156-176 | the keepalives disagree after a run if and only if they did before and no successful tick was a step away from either |
| `Tuning.DifferentTargetsSynchronise` | internal/tuning/tuner.go:137-176 | any two successful ticks with different targets make the keepalives equal |
| `Tuning.RunBuffers` | internal/tuning/tuner.go:205-248 | the stream buffer never exceeds the receive buffer, from any ordered positive start |
| `Tuning.TickOrdersBuffers` | internal/tuning/tuner.go:205-248 | one successful tick not pointing down orders the buffers from any start |
| `Tuning.RunPool` | internal/tuning/tuner.go:95-107 | the pool stays between 1 and 64, or moves there from outside |
| `Tuning.ChannelSizeStays` | internal/tuning/tuner.go:110-122 | a channel size in 256..8192 stays there on every run if and only if it is a power of two |
| `Tuning.DefaultChannelSize` | cmd/defaults.go:15 | from the default size every run keeps a power of two in 256..8192 |
| `TuningDirections.LoadMovesServer` | internal/tuning/tuner.go:133-315 | in terms of the raw readings: a high load moves heartbeat, streams and buffers towards 120 s, 2, 16 KiB, 1 MiB and 64 KiB, a low one towards 10 s, 32, 128 KiB, 16 MiB and 1 MiB, any other to the middle, buffers only with a measured latency |
| `TuningDirections.LoadMovesKeepalives` | internal/tuning/tuner.go:137-176 | both keepalives go to 10, 180 or 75 when either is five or more away |
| `TuningDirections.LoadMovesPool` | internal/tuning/tuner.go:95-107 | a hot machine shrinks the pool by one, a cool one grows it by one |
| `TuningDirections.MemoryMovesChannelSize` | internal/tuning/tuner.go:110-122 | scarce memory halves the channel size, plenty doubles it |
| `TuningDirections.TickIsMonotone` | internal/tuning/tuner.go:133-315 | more load never means more streams, larger buffers, more frequent heartbeats or a larger pool |
| `TuningInterval.RunInterval` | internal/tuning/tuner.go:343-369 | over every run the interval is the base, its shortened or its stretched form, between min(base, 5 min) and max(base, 15 min) |
| `TuningInterval.RunRemembers` | internal/tuning/tuner.go:329-333 | the history is the last ten successful latencies |
| `TuningInterval.RunTracks` | internal/tuning/tuner.go:336-361 | after a success with three or more latencies known the interval is within five seconds of what they ask for |
| `TuningInterval.AdjustmentsTurnAround` | internal/tuning/tuner.go:344-353 | an unstable network shortens the interval if and only if the base is above five minutes, a stable one lengthens it if and only if it is below fifteen |
| `TuningInterval.AdjustedIntervals` | internal/tuning/tuner.go:345-353 | the two adjusted intervals: half the base and half as much again, within their limits |
| `TuningInterval.SpreadDecides` | internal/tuning/tuner.go:344-356 | a variance above three tenths of the average wants the short interval, one below a tenth the long one |
| `TuningInterval.IntervalChanges` | internal/tuning/tuner.go:336-361 | when and to what the interval changes |
| `TuningInterval.SteadyLatencyStretches` | internal/tuning/tuner.go:337-353 | equal positive latencies stretch the interval |
| `TuningInterval.VarianceSign` | internal/tuning/tuner.go:376-387 | the variance is never negative and, for two or more values, zero exactly when they agree |
| `TuningInterval.MeanIsCentre` | internal/tuning/tuner.go:390-400 | squared deviations are least around the average |
| `TuningInterval.VarianceOfSquares` | internal/tuning/tuner.go:376-387 | the variance is the mean of the squares less the square of the mean |
| `TunerObject.Tuner.constructor` | internal/tuning/tuner.go:32-44 | the default interval of ten minutes and an empty history |
| `TunerObject.Tuner.AdjustParameters` | internal/tuning/tuner.go:76-316 | one tick: every setting of server and client moves as the control laws say |
| `TunerObject.Tuner.AdjustPool` | internal/tuning/tuner.go:95-107 | the pool moves by one or stays |
| `TunerObject.Tuner.AdjustChannelSize` | internal/tuning/tuner.go:110-122 | the channel size halves, doubles or stays |
| `TunerObject.Tuner.AdjustKeepalive` | internal/tuning/tuner.go:137-176 | each end moves when it or the other is a step away |
| `TunerObject.Tuner.AdjustBuffers` | internal/tuning/tuner.go:182-249 | frame size and buffers follow their targets |
| `TunerObject.Tuner.AdjustHeartbeatAndMux` | internal/tuning/tuner.go:252-315 | heartbeat and streams per session follow their targets |
| `TunerObject.Tuner.AdjustInterval` | internal/tuning/tuner.go:319-373 | history and interval move as the laws say, and the ticker with the interval |
| `TunerObject.CalculateAverage` | internal/tuning/tuner.go:390-400 | the loop computes the mean |
| `TunerObject.CalculateVariance` | internal/tuning/tuner.go:376-387 | the loop computes the variance |

## Left out

- QUIC, wsmux and the client's sides of the tcpmux and udp transports: QUIC is withdrawn, the others repeat the scheduler and pool logic modelled here.
- `Restart` and everything across it: counters are reset while old goroutines may still change them, so nothing is claimed.
- The handshake, tokens and tunnels that arrive before the control channel is set: no tunnel is accepted before a generation begins.
- The server's side of the RTT exchange and read retries on the control channel: they do not touch the queues.
- TunnelSupplyLaws.RunBalanced: assumes `AcceptUDP` is off, because with it UDP sessions also take tunnels from the same channel.
- TunnelSupplyLaws.RunPoolControlled: does not model 32-bit wrap-around of the counters, which would take 2^31 pending connections.
- MuxScheduler.RunAccounted: does not model 32-bit wrap-around of the counters or of their product with the slot limit.
- UdpSessions.RunSafe: takes the offer of a session and the send of its first payload as one step; the 60-second idle timer of a handler is assumed not to fire inside it.
- UdpTablesLaws.RunSafe: takes offering a session or tunnel and the send, close and delete that follow as one step; the deletes at `internal/server/transport/udp.go:372` and `565` run without the mutex, a data race that is not modelled. Payload bytes are not modelled there either.
- UdpTransport.UdpServer.AcceptTunnelPacket: finds the tunnel with its channel open; queueing the payload, or dropping it on a full channel, is left out.
- UdpTransport.UdpServer.AcceptLocalPacket: the same for a session's payload.
- UdpTransport.UdpServer.OfferTunnel: the keep-alive goroutine of `internal/server/transport/udp.go:714` that starts here is not repeated; its lock discipline is that of the WebSocket transport.
- UdpTransport.UdpServer.OfferLocal: the first payload and the request for a tunnel, which do not touch the tables, are left out.
- WsHandoff.RunSafe: workers choose addresses freely; the age check of local connections is modelled in the TCP transport only.
- UdpTunnelCopy.ReadStamped: reads a whole packet before the flag is set; the code sets it after the timestamp, and nothing in this goroutine depends on it in between.
- UdpTunnelCopy.ClientTcpToUdp: a UDP write sends a whole datagram or fails, as sockets do; an empty datagram is never written by the loop.
- UdpTunnelCopy.LatenessTest: assumes the two peers share a clock; with a skew the age is off by the skew.
- CopyLoop.TransferData: reports usage as a running sum, as do the UDP copy loops; the record itself is the accounting model.
- UsageAccounting.RunConserves: file errors, torn reads of a file being written, corrupted JSON and the JSON text itself are left out; a missing file counts as empty.
- UsageMonitor.Usage.GetUsageFromFile: the library's sort is an insertion sort here, so among duplicate ports of a hand-edited file the order is fixed where the library leaves it open.
- PortMapping.ParsePortMappings: starting a listener is the pair of texts it is given; opening sockets, and the pause between the ports of a range, are left out.
- Tuning.RunSettles: uses reals for floats and unbounded integers; measuring the machine and the network is a parameter. Tuner changes do not reach a running transport's copied configuration.
- TuningInterval.VarianceSign: over reals; with floating point the variance of equal values can differ from zero by rounding.
- Internals of smux, gorilla/websocket, TLS and sockets: FIFO streams that may fail.
- HTTP panel, HTML, certificates, sysctl tuning, obfuscated paths, hot reload, logging and `installer.sh`: I/O and user interface.
