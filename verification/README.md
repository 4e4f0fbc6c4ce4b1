# A model of the LoRa maritime-mesh simulator

The simulator lets fishing vessels exchange telemetry over a simulated LoRa mesh. A scheduler builds a routing
table from ship positions and shore edges, ships send frames to their parent, a Virtual Ether decides which frames
survive, and dashboards watch. This project models those parts in Dafny and proves what holds in every run.

| part | modules | source |
|---|---|---|
| routing | `Order`, `MeshGraph`, `Mesh`, `MeshTheorems` | `domain/mesh.go` |
| virtual ether | `Protocol`, `Decimal`, `StateStore`, `Ether`, `SimulationEngine`, `Sums`, `EtherTheorems`, `EtherOrder`, `Fates`, `Verdicts` | `repository/state_repo.go`, `service/simulation_engine.go`, `domain/packet.go`, `domain/lora.go` |
| ships | `ShipNode`, `Fleet`, `FleetTheorems`, `FleetResults`, `FleetAcks`, `Schedules`, `RetryWindow`, `Receipts`, `CrossedAcks` | `cmd/nodesim/main.go` |
| routing, ether and ships together | `SteadyRoutes`, `Delivery` | all of the above |
| connections and route distribution | `Hub`, `Distribution`, `DistributionTheorems` | `ws/hub.go`, `service/mesh_topology.go` |
| payload schema | `Schema`, `SchemaTypes`, `MessagePack`, `SchemaTheorems`, `SchemaRecords` | `domain/schema.go`, `service/schema_service.go` |
| dashboard | `MetricStore`, `TopologyStore`, `TopologyRuns`, `RetryMarks`, `Dashboard`, `ShipMarkers` | `frontend/src/stores`, `frontend/src/lib/lora.ts` |

How the pieces fit:

- `Mesh.BuildTopology` is the source's breadth-first search with its loops. Its contract is `MeshGraph.IsTopology`, a
  table defined without layers or iteration order: shortest in-range paths and lexicographic (distance, name) minima.
  Every theorem on routes is about `IsTopology`. Distances come from an arbitrary function on points, over the reals.
- `Ether` splits the engine's handlers into atomic store and socket operations, so that any number of workers
  interleave freely; lookups, dice and store faults are answers (`Env`) chosen anew at each operation. The log records
  what is sent, and beside it what theorems speak of: verdicts, claims of dedup keys with the frame's tag and the times,
  and ACK losses counted without an event.
  `SimulationEngine.Handlers` is the handlers in the source's form over the mutable `StateStore.StateRepository`; each
  is proved to do exactly what its steps do, and `HandlerIsARun` makes the undisturbed handler one of the interleavings.
- `Fates` states, case by case and without the handlers' own functions, what becomes of a queued frame or node:ack:
  which envelopes are refused and with what code, which payload sizes, hop counts and answers drop a frame for which
  reason under which counter, and what every other one stores, sends, counts and announces. `Verdicts` carries this to
  all interleaved runs, as to where each surviving frame, each drop and each announcement in the log comes from.
- `ShipNode.Node` is one ship, proved against functions on `Ship`; its retry loop is proved against `Sends` and `Waits`
  whatever else changes the waiters while it waits, and `Schedules.LoopIsARun` shows that a fleet call with only the
  engine at work beside it does what that loop does; `Delivery.ReportAnswered` is the ordinary case of it. `Fleet` joins any number of
  ships to the ether. Frames may be lost, delayed, reordered or repeated by the engine's queues, and routes and
  parameters may change at any time. `FleetResults.EngineRun` carries all ether theorems over to fleet runs.
- `SteadyRoutes` is about every fleet run under one routing table, with any loss, repetition, delay and retries: frames
  keep to their origin's parent chain. `Delivery` is the other half: any reachable fleet has a run that delivers.
- `Hub` and `Distribution` supply registration and route pushes; `DistributionTheorems` runs them together, and
  `Dashboard` adds the dashboard's topology store.
- `SchemaTypes` says name by name what a declared type is: its size, its range of values and what a decoder shows for
  every value. `MessagePack` writes and reads the value formats. `SchemaTheorems` bounds packed records from both sides,
  and `SchemaRecords` follows a record from the ship's values through its bytes to the stored row.
- `TopologyRuns` characterises the dashboard's store after any messages: on place, presence, route and retry mark a ship
  shows the last word heard. `RetryMarks` joins that to the ether's events, `ShipMarkers` to the server's positions and
  registry.
- Time is in milliseconds, and a key with a TTL reads as absent from its expiry instant on.

What the code does differently from what its comments or design suggest, kept as the code has it:

- At SF12 a retry burst spans 3 x 10.5 s, longer than the 30 s dedup window, so one call can be delivered twice.
  `RetryWindow.NeverTwiceIff` gives the exact condition on timeout, timer delay and queue delay.
- A change of distance is measured against the last computed row, not the last row sent, so a ship's copy can drift by
  50 m per tick; the drift ends only at the radio range. `DistributionTheorems.DriftBounded` gives the bound and
  `DriftAttained` attains it.
- The dashboard's size estimate is described as an exact mirror of the server's, but it skips an unknown type together
  with its key; `Schema.EstimatesAgreeIff` says exactly when the two agree.
- `uint64` values from 2^63 on wrap to negative numbers; `SchemaTheorems.IntegersLosslessIff` gives the exact condition.
- `forwardToNode` does not look at whether the frame was sent, and the ACK for a filtered duplicate is sent by the
  filter. So an ACK proves a survived traversal (`FleetAcks.AckedMeansSurvived`), and it proves receipt iff it is not
  such a replay, which a ship can tell by the `duplicate` flag (`Receipts.ProvesReceiptIff`; `Receipts.AckedUnheard` is a
  run in which a call ends acked and its receiver never took the packet in).
- Waiters are keyed by packet alone. A ship that relays its own packet can take the ACK for one call as the other's
  (`CrossedAcks.AckedForAnother`). A ship with one call per packet cannot (`FleetAcks.AckedByOwnFrame`), and under one
  routing table no ship has two (`SteadyRoutes.OneCallPerShip`).
- Some lost ACKs are counted without an event. The dashboard's `acks_dropped` is right iff none was
  (`MetricStore.MirrorExactAtRest`); `MetricStore.SilentLossHappens` is a run in which it is too small.
- A ship that drops and returns between two ticks with its route unchanged stays isolated on the dashboard, because no
  table is broadcast; `Dashboard.ShownIff` says exactly when the shown route is the stored one.
- A stored table still lists a ship that left since the last tick, and the dashboard shows ships it first meets in a
  table as present; a ping that was queued when its socket closed does the same. `ShipMarkers.PresenceShownIff` says
  exactly when presence is shown rightly, and `ShipMarkers.GoneShipShown` is a run in which it is not.

## Model

| member | source | states |
|---|---|---|
| Mesh.BuildTopology | backend/internal/domain/mesh.go:46-146 | For ships with distinct ids, the returned table is the declarative one: exactly the listed ships, each on its shortest hop distance (1 to 5) with the least (distance, name) parent, isolated when no such path exists |
| Mesh.NearestEdge | backend/internal/domain/mesh.go:69-82 | Finds an edge exactly when one is in range, and then the least by distance and code |
| Mesh.NearestParent | backend/internal/domain/mesh.go:104-118 | Finds a parent exactly when a ship of the previous level is in range, and then the least by distance and id |
| Mesh.FirstLayer | backend/internal/domain/mesh.go:66-95 | Level 1 is exactly the ships at hop distance 1; every ship is either finally routed or known to be farther |
| Mesh.NextLevel | backend/internal/domain/mesh.go:98-135 | Extends a search finished up to level k-1 to one finished up to level k; every earlier row stays as it was |
| Mesh.SearchEnds | backend/internal/domain/mesh.go:98-144 | Whatever stops the level loop (five levels, nobody left, an empty level), isolating the rest gives the declarative table |
| MeshGraph.NextLayer | backend/internal/domain/mesh.go:98-118 | A ship beyond distance k is at distance k+1 exactly when it hears a ship at distance k |
| MeshGraph.EmptyLayerEnds | backend/internal/domain/mesh.go:98-98 | An empty level proves every remaining ship unreachable over any number of links, so stopping early loses nothing |
| MeshTheorems.HopLevelIsShortestPath | backend/internal/domain/mesh.go:66-144 | Hop level k means shortest path length k; isolated means no in-range path of at most five links |
| MeshTheorems.NearestEdgeWins | backend/internal/domain/mesh.go:69-82 | A ship that hears an edge is at level 1 under the nearest edge it hears, the lexicographically first code among equally near ones |
| MeshTheorems.NearestShipWins | backend/internal/domain/mesh.go:104-118 | A ship further out has the nearest of the ships it hears one level closer in, the first id among equally near ones |
| MeshTheorems.FiveHopsOnALine | backend/internal/domain/mesh.go:9-9 | On a line of ships that hear only their neighbours the first five are routed, each by its neighbour towards the edge, and every other is isolated |
| Order.LessIs | backend/internal/domain/mesh.go:77-77 | One name precedes another where they first differ, or as its proper prefix |
| MeshTheorems.TableUnique | backend/internal/domain/mesh.go:52-54 | Any two listings of the same ships and edges, in any order, have one and the same table |
| MeshTheorems.GrowthNeverRaises | backend/internal/domain/mesh.go:72-118 | More range, edges or ships never isolate a routed ship nor raise its level; fewer never lower one |
| MeshTheorems.ParentChainDescends | backend/internal/domain/mesh.go:83-135 | Parent pointers from level k are exactly k in-range links, one level down each, ending at an in-range edge: no cycles |
| MeshTheorems.RowShape | backend/internal/domain/mesh.go:83-144 | Parent is an edge iff hop level 1; routed iff level at least 1 iff a parent is named; levels stay within 0..5 |
| StateStore.StateRepository.MarkPacketSeen | backend/internal/repository/state_repo.go:83-89 | True exactly when no live key for this packet and receiver exists; then the key lives 30 s, otherwise nothing changes |
| StateStore.StateRepository.RememberAckSender | backend/internal/repository/state_repo.go:95-101 | Overwrites the sender for this packet and receiver and lets it live two minutes; nothing else changes |
| StateStore.StateRepository.TakeAckSender | backend/internal/repository/state_repo.go:105-114 | Returns the live sender or none, and removes the key either way |
| StateStore.StateRepository.IncrStat | backend/internal/repository/state_repo.go:130-135 | Adds one to this counter and leaves all other keys alone |
| SimulationEngine.Handlers.HandleTransmit | backend/internal/service/simulation_engine.go:116-227 | The whole handler leaves exactly the keys, counters and messages of its step sequence, for every frame and every answer from outside; `Fates` says case by case what those are |
| SimulationEngine.Handlers.HandleDuplicate | backend/internal/service/simulation_engine.go:232-256 | The duplicate steps end with one duplicate counted and announced, then either a repeated ACK or one loss counted in silence |
| SimulationEngine.Handlers.ForwardToNode | backend/internal/service/simulation_engine.go:259-280 | The forward steps end with the sender noted unless the store fails, the frame sent unchanged, counted and announced |
| SimulationEngine.Handlers.DeliverToEdge | backend/internal/service/simulation_engine.go:284-359 | The delivery steps end with the row (path closed by the edge code, payload decoded by the active schema or kept raw, problems beside it), counted and announced even when the insert fails, and the edge's ACK sent or lost, announced from the edge to the transmitter |
| SimulationEngine.Handlers.HandleAck | backend/internal/service/simulation_engine.go:365-421 | A node:ack spends its noted sender and is relayed, lost or stale exactly as its steps say; `Fates.AckFate` and `Fates.StaleAckFate` say what that is |
| SimulationEngine.Handlers.AnswerBack | backend/internal/service/simulation_engine.go:339-358 | The ACK steps end with a lost ACK counted and announced, or a surviving one sent, counted and announced: each event is from the receiver to the ship answered |
| SimulationEngine.HandledStretch | backend/internal/service/simulation_engine.go:143-227 | A frame that passes screening and the air takes the whole handler to exactly one end: duplicate iff its key is held, else delivery or forward under a new claim |
| SimulationEngine.Handlers.Reject | backend/internal/service/simulation_engine.go:481-489 | The rejection steps end with one invalid envelope counted and the error code told to the sender, nothing else |
| SimulationEngine.Handlers.DropFrame | backend/internal/service/simulation_engine.go:493-525 | The drop steps end with one more on its reason's counter and one event naming the reason |
| SimulationEngine.HandlerIsARun | backend/internal/service/simulation_engine.go:116-227 | Scheduling one job to its end yields the plain handler's store and log, so run theorems apply to real handlers |
| Fates.Refused | backend/internal/service/simulation_engine.go:117-141 | A faulty envelope, a transmitter that is not the sender and a payload that is no Base64 are counted invalid and told to the sender, the first fault first; without session parameters the sender is told only that |
| Fates.DropFate | backend/internal/service/simulation_engine.go:143-209 | For exactly these payload sizes (242, 115, 51 bytes), hop counts (above 5), lookups and dice a frame is dropped for each reason, with one more on that reason's counter and one event from its sender to its target |
| Fates.FaultFate | backend/internal/service/simulation_engine.go:160-175 | A failed lookup on the way ends a counted frame in silence |
| Fates.DuplicateFate | backend/internal/service/simulation_engine.go:212-256 | While its key lives a frame that got through is counted and announced as a duplicate and answered again, or that ACK is lost and counted in silence |
| Fates.ForwardFate | backend/internal/service/simulation_engine.go:212-280 | Otherwise a frame to a ship holds its key for 30 s and its sender for two minutes, goes on unchanged, is counted and announced |
| Fates.DeliveryFate | backend/internal/service/simulation_engine.go:212-359 | And a frame to an edge is stored with its path closed by the edge, counted and announced, and the edge's ACK is sent or lost, announced from edge to sender |
| Fates.StaleAckFate | backend/internal/service/simulation_engine.go:365-381 | A node:ack without a packet id or with a failing store does nothing; one whose sender is not noted any more is counted stale |
| Fates.AckFate | backend/internal/service/simulation_engine.go:369-421 | A node:ack with a noted sender spends it and goes back to that sender: lost in silence without both positions, lost and announced, or sent, counted and announced, from the receiver to the sender |
| EtherTheorems.NeverDecreases | backend/internal/service/simulation_engine.go:116-421 | A balance over store, log and open jobs that no single operation lowers is never negative in any interleaved run |
| EtherTheorems.FramesConserved | backend/internal/service/simulation_engine.go:143-227 | In every interleaving: frames counted = six drop counters + duplicates + forwards + deliveries + fault aborts + frames in flight |
| EtherTheorems.AcksBounded | backend/internal/service/simulation_engine.go:247-421 | At rest, ACKs relayed + ACKs dropped + noted senders never exceed forwards + deliveries + duplicates |
| Verdicts.SurvivorsCleared | backend/internal/service/simulation_engine.go:117-212 | In every run: a frame that survived had a clean envelope from its last path entry, a payload within its spreading factor's ceiling, 1 to 5 hops, a transmitter position, and as target an edge or an online ship with a position |
| Verdicts.DropsExplained | backend/internal/service/simulation_engine.go:146-209 | In every run: a drop event names packet, sender and target of a frame that was judged and a reason that held of it |
| Verdicts.EventsNameTheFrame | backend/internal/service/simulation_engine.go:237-421 | In every run: a duplicate, forward or deliver event goes from the sender to the receiver of an earlier surviving frame, an ack or ack_drop event from that receiver back to that sender |
| Verdicts.AckEventsMatch | backend/internal/service/simulation_engine.go:339-421 | In every run, per packet, receiver and sender: ack events equal the ACKs sent, replays aside, less those about to be announced |
| EtherOrder.AckHasCause | backend/internal/service/simulation_engine.go:247-416 | Every ACK to s for (packet, receiver) follows a surviving frame from exactly s for exactly that pair |
| EtherOrder.AdmissionsSpaced | backend/internal/repository/state_repo.go:83-89 | Two claims of one (packet, receiver) are at least 30 s apart in every run |
| EtherOrder.PassagesSpaced | backend/internal/repository/state_repo.go:14-16 | Two forwards or deliveries of one (packet, receiver) are at least 30 s less d apart when their handlers take at most d from claim to passage |
| RetryWindow.SpacingAttained | backend/internal/repository/state_repo.go:14-16 | Exactly so: for every d up to 30 s a run has two deliveries 30 s less d apart, so 30 s hold only for handlers without delay |
| EtherOrder.OnePassagePerAdmission | backend/internal/service/simulation_engine.go:209-226 | For every set of claims (one key's, one call's, a single one): no more forwards and deliveries go back to them than there are claims |
| EtherOrder.EdgeAcksFollowDelivery | backend/internal/service/simulation_engine.go:310-358 | Every ACK an edge sends follows its delivery of that very packet |
| EtherOrder.OneRelayPerForward | backend/internal/service/simulation_engine.go:263-416 | At rest each forward authorised at most one relayed node:ack; before that, frames noted and about to be sent count too |
| Receipts.RelayMayPrecedeForward | backend/internal/service/simulation_engine.go:263-271 | They have to: a run in which a node:ack is relayed before its forward is sent |
| ShipNode.Node.TransmitWithRetry | backend/cmd/nodesim/main.go:451-486 | The same frame at most four times, one more exactly after each timeout; dead exactly when all four time out; which waiters it leaves, whatever other calls and the reader do to them meanwhile, and for an undisturbed call exactly when its own stays |
| ShipNode.AttemptsAired | backend/cmd/nodesim/main.go:451-486 | A call whose first n attempts time out airs n frames and one more unless the write fails; after four it stops |
| Schedules.LoopIsARun | backend/cmd/nodesim/main.go:451-486 | A fleet call with any engine work beside it airs exactly the loop's frames in order, leaves exactly its waiters, changes no other ship, call or airing, and ends acked iff the loop's last attempt is answered |
| Delivery.ReportAnswered | backend/cmd/nodesim/main.go:451-475 | In any reachable fleet holding its rows a level-1 report, handled by the engine while the loop waits, airs one frame and ends acked |
| ShipNode.Node.HandleReceive | backend/cmd/nodesim/main.go:378-409 | A frame goes on iff its packet is new here and there is a route, to the parent, with one more hop, this ship added to its path and the rest unchanged; no frame of that packet ever goes on again |
| ShipNode.Node.TransmitTelemetry | backend/cmd/nodesim/main.go:412-445 | A frame goes out iff there is a route and it fits or the limit is ignored; its packet id differs from every other ship's and from all earlier ones; the sequence number is spent either way |
| ShipNode.Node.AckReceived | backend/cmd/nodesim/main.go:334-349 | Closes the waiter of this packet id iff there is one, undoing exactly its registration; the same ACK again closes nothing |
| FleetAcks.AckedMeansSurvived | backend/cmd/nodesim/main.go:334-349 | In every fleet run a call that ended acked was sent an ACK for its packet, and before it a frame of its ship for that packet survived the air |
| FleetAcks.AckedByOwnFrame | backend/cmd/nodesim/main.go:334-349 | If the ship has no other call for the packet, that ACK and that frame are for this call and its addressee |
| CrossedAcks.AckedForAnother | backend/cmd/nodesim/main.go:334-349 | Otherwise not: a run in which a call ends acked and no ACK was ever sent for its frame |
| ShipNode.Node.RoutingUpdate | backend/cmd/nodesim/main.go:312-325 | From then on every report and relay is addressed to the new parent, and none leaves unless the status is routed with a parent named |
| Delivery.PushesInform | backend/cmd/nodesim/main.go:312-325 | Ships that applied the last route they were sent hold exactly the parent and routed flag of the stored table |
| ShipNode.Node.SyncParams | backend/cmd/nodesim/main.go:287-298 | After a positive timeout no report above the new limit leaves unless the limit is ignored; otherwise nothing changes |
| SteadyRoutes.NeverTooLarge | backend/internal/service/session_service.go:47-58 | In every run in which ships report only within the session's parameters, no frame is dropped for its size, however often relayed |
| ShipNode.PacketIdsUnique | backend/cmd/nodesim/main.go:437-437 | Packet ids collide only for the same ship and the same sequence number, also beyond four digits |
| FleetTheorems.AlwaysOk | backend/cmd/nodesim/main.go:378-486 | In every fleet run: frames, calls, airings and queued jobs keep all facts the results below need |
| FleetTheorems.RelayIsNew | backend/cmd/nodesim/main.go:388-408 | A ship that has not seen a packet sent to it is not yet a relayer of it, and no call has its next hop count |
| FleetResults.FramesOnAir | backend/cmd/nodesim/main.go:387-443 | Every frame on air has hop count = path length (at most 6), from its origin to its transmitter; per packet id one call per hop and one relay per ship |
| FleetResults.HonestFramesPassScreening | backend/internal/domain/packet.go:26-55 | No honest frame is ever refused for its path length, hop count, empty path or transmitter |
| FleetResults.AtMost24Frames | backend/cmd/nodesim/main.go:451-486 | At most 6 calls x 4 attempts = 24 frames ever carry one packet id, under any loss, repetition and route change |
| FleetResults.EngineRun | backend/internal/service/simulation_engine.go:116-421 | The engine inside any fleet run is itself a run of the ether |
| FleetResults.OneAdmissionPerBurst | backend/cmd/nodesim/main.go:451-482 | A call whose attempts fit the dedup window, with its timer and queue delays, claims a key at most once |
| FleetResults.OnePassagePerBurst | backend/cmd/nodesim/main.go:451-482 | So it causes at most one forward or delivery |
| FleetResults.BurstFitsWindow | backend/internal/domain/lora.go:49-56 | At SF7 to SF11 that holds whenever the total slack stays below 9 s |
| RetryWindow.DeliveredTwice | backend/internal/repository/state_repo.go:14-16 | Otherwise there is a fleet run, within the same delays, that delivers one call twice |
| RetryWindow.NeverTwiceIff | backend/cmd/nodesim/main.go:451-482 | At most one forward or delivery per call in all runs iff 3 x (timeout + 0.5 s + timer) + queue < 30 s |
| RetryWindow.OnlySf12Repeats | backend/internal/domain/lora.go:49-68 | With the default timeouts and no slack, exactly SF12 fails |
| RetryWindow.QueueRoom | backend/internal/domain/lora.go:49-68 | With exact timers a frame may queue for 25.5, 24, 21, 16.5 and 9 s at SF7 to SF11 before a call can be delivered twice, and no longer |
| Receipts.KindProves | backend/internal/service/simulation_engine.go:349-416 | In every fleet run an ACK that is no replay is logged after the edge's delivery, or after a ship took the packet in |
| Receipts.AckedUnheard | backend/internal/service/simulation_engine.go:247-271 | A run in which a call ends acked by a replay while no ship took anything in and nothing was delivered |
| Receipts.ProvesReceiptIff | backend/internal/service/simulation_engine.go:247-271 | A kind of ACK proves receipt in every run iff it is not the replay |
| Delivery.ChainDelivers | backend/internal/service/simulation_engine.go:116-321 | A fleet call at level h has a continuation of h transmissions that ends with the row stored at the edge of its parent chain, nothing dropped or filtered |
| SteadyRoutes.FramesFollowChain | backend/cmd/nodesim/main.go:402-408 | Under one table, in every run: a frame with hop count h carries the first h ships of its origin's parent chain and is addressed to the next stop, within the TTL |
| SteadyRoutes.DeliveriesFollowChain | backend/internal/service/simulation_engine.go:310-321 | Under one table, in every run: whatever is delivered comes from a level-k ship with hop count k, at the edge of its chain, with the chain and the edge as its path |
| SteadyRoutes.NeverTooFar | backend/internal/service/simulation_engine.go:153-157 | Under one table, in every run: no frame is dropped for its hop count |
| SteadyRoutes.OneCallPerShip | backend/cmd/nodesim/main.go:388-408 | Under one table, in every run: a ship has one call for a packet, as chains never come back |
| SteadyRoutes.AckedByNextStop | backend/cmd/nodesim/main.go:334-349 | Under one table, in every run: a call that ended acked was acked for its own frame by the next stop of its chain |
| SteadyRoutes.PushedRoutesFollowTable | backend/internal/service/mesh_topology.go:152-174 | After any scheduler run, ships told what the server last sent deliver only along the stored table |
| Delivery.LosslessDelivery | backend/cmd/nodesim/main.go:402-445 | And deliveries are within reach: from any reachable fleet holding its rows, a run delivers a level-k report on transmission k, nothing dropped or filtered |
| Delivery.PushedRoutesDeliver | backend/internal/service/mesh_topology.go:152-174 | From any reachable fleet with the stored ships aboard, whatever they know: a run takes in the last pushes of any scheduler run and then delivers a level-k report on transmission k |
| Delivery.AlwaysOnlyMinted | backend/cmd/nodesim/main.go:418-437 | No ship remembers and no dedup key names a packet id that no ship has issued, so a new report is new to everybody |
| Hub.Hub.RegisterNode | backend/internal/ws/hub.go:112-126 | The newest socket of a ship holds its entry and the replaced one is closed |
| Hub.Hub.UnregisterNode | backend/internal/ws/hub.go:130-141 | Removes, and reports so, exactly when the entry still is this very client |
| Hub.Hub.RegisterMonitor | backend/internal/ws/hub.go:143-150 | Adds this monitor to its session and changes no other session |
| Hub.Hub.UnregisterMonitor | backend/internal/ws/hub.go:152-159 | Removes this monitor; its session entry stays exactly while monitors remain; other sessions keep theirs |
| Hub.Hub.OnlineNodes | backend/internal/ws/hub.go:87-97 | Exactly the registered ships of the session, strictly ascending |
| Hub.RegistryExact | backend/internal/ws/hub.go:112-141 | After any operations a socket is registered iff it is the latest of its ship and was not shut since |
| Hub.NoSocketForgotten | backend/internal/ws/hub.go:112-141 | Every socket ever opened is registered, was shut, or was closed by its successor; no empty session map remains |
| Hub.LateCloseIsNoOp | backend/internal/ws/hub.go:130-141 | A replaced socket's late close changes nothing |
| Distribution.MeshTopologyService.Recompute | backend/internal/service/mesh_topology.go:118-192 | Stores the declarative table of the online ships, sends exactly the changed rows, and broadcasts exactly when a row changed or the size did |
| Distribution.MeshTopologyService.LiveNodes | backend/internal/service/mesh_topology.go:131-142 | Exactly the positioned ships that are online, ids still distinct |
| Distribution.MeshTopologyService.MonitorTable | backend/internal/service/mesh_topology.go:205-213 | Every row once, rounded, in ship-id order |
| Distribution.MeshTopologyService.ChangedRows | backend/internal/service/mesh_topology.go:160-174 | One rounded update for each row that is new or changed, and none for others |
| Distribution.Round3Error | backend/internal/service/mesh_topology.go:265-267 | Rounding to metres moves a distance by at most 0.0005 km |
| Distribution.RoundedRowIs | backend/internal/service/mesh_topology.go:205-213 | A row told to monitors is the stored one with its distance in whole metres, at most half a metre off |
| DistributionTheorems.ShipsAgree | backend/internal/service/mesh_topology.go:152-203 | After any connects, reconnects, closes, pings and ticks, an online ship in the table holds its stored parent, parent kind, hop and status, and a distance within 0.0005 + 0.05 k km after k ticks without a send |
| DistributionTheorems.MonitorsAgree | backend/internal/service/mesh_topology.go:176-180 | A monitor keeping the last table it got has the stored key set, parents, hops and statuses |
| DistributionTheorems.SilentTick | backend/internal/service/mesh_topology.go:160-203 | A tick that broadcasts nothing changed no key, parent, hop or status; a vanished ship cannot hide behind a new one |
| DistributionTheorems.RegistryIsHub | backend/internal/ws/hub.go:112-141 | The registry of any such run is the hub's after the same connects and closes |
| DistributionTheorems.PositionIsLastPing | backend/internal/service/simulation_engine.go:83-111 | A ship has a stored position iff it pinged and its registered socket has not closed since, and it is that of the last ping |
| DistributionTheorems.LateCloseKeepsPosition | backend/internal/ws/gateway.go:180-184 | A ship reconnects and its old socket closes only later: position, registration, held route and all else stay as they are |
| DistributionTheorems.DriftBounded | backend/internal/service/mesh_topology.go:194-203 | While a session keeps its radio range R, that distance is at most 0.0005 + min(0.05 k, R) km wrong |
| DistributionTheorems.DriftAttained | backend/internal/service/mesh_topology.go:194-203 | For every R and every k it has room for, a run within that range is exactly 0.0005 + 0.05 k km wrong after k silent ticks |
| Schema.ValidateSchemaFields | backend/internal/domain/schema.go:65-86 | Accepts exactly the valid schemas; otherwise names the first faulty field and its first fault |
| SchemaTypes.NameRule | backend/internal/domain/schema.go:36-36 | A field name is a letter and up to 29 more letters, digits and underscores |
| SchemaTypes.KnownTypes | backend/internal/domain/schema.go:41-63 | A type is known iff it is one of eleven names, with the size of the table, or string_n for n from 1 to 242 without a leading zero, with size n |
| Schema.EstimatePackedBytes | backend/internal/domain/schema.go:91-106 | The running total is the estimate: three bytes and what `SchemaTheorems.CostOf` gives for each field; `EstimateIsTight` compares it with the longest record |
| Schema.EstimatesAgreeIff | frontend/src/lib/lora.ts:116-127 | The dashboard's estimate never exceeds the server's, and equals it iff every type is known |
| Schema.DecodePayload | backend/internal/domain/schema.go:113-158 | Fails, with that one problem, exactly on garbage; otherwise returns the shown values and the problems in field order, for maps and positional arrays; which values those are is said by `DecodedFields`, `CoercionByType` and `IntegerCoercion` |
| SchemaTypes.CoercionByType | backend/internal/domain/schema.go:160-187 | A bool field shows bools only; a string_n field shows text of at most n characters, else it is too long or no text; a float field shows the number given in whatever numeric form, else it is no number |
| SchemaTypes.IntegerCoercion | backend/internal/domain/schema.go:188-257 | An integer field, or one of an unknown type, shows integers and whole floats below 2^63, wraps unsigned numbers from there on and takes nothing else |
| SchemaTypes.OwnValuesDecode | backend/internal/domain/schema.go:160-192 | Every value of its declared type decodes to itself, unsigned numbers from 2^63 on wrapped, with no problem |
| SchemaTheorems.EstimateBoundsRecords | backend/internal/domain/schema.go:91-106 | For a valid schema every conforming MessagePack record, whatever subset, order and narrower formats, is at most the estimate less its slack: two bytes for up to 15 fields, one per bool and per string of at most 31 |
| SchemaTheorems.EstimateIsTight | backend/internal/domain/schema.go:91-106 | And some conforming record is exactly that long |
| SchemaTheorems.CostOf | backend/internal/domain/schema.go:93-104 | A field adds its key header and name, and for a known type a marker, two bytes for text, and the declared size |
| SchemaTheorems.SizeDropIff | backend/internal/service/schema_service.go:53-60 | A conforming record too long for the SF exists iff the estimate exceeds the ceiling by more than the slack |
| MessagePack.ReadBack | backend/internal/domain/schema.go:113-118 | A value written in any of its formats reads back as itself, whatever follows |
| SchemaRecords.EveryValueTravels | backend/internal/domain/schema.go:41-46 | Every value in the range of its type name has a conforming encoding, which reads back as that value |
| SchemaRecords.ConformingBelongs | backend/internal/domain/schema.go:41-46 | And every conforming encoding stands for a value of the type |
| SchemaRecords.RecordReadsBack | backend/internal/domain/schema.go:113-118 | A packed record of a valid schema reads back as exactly its values by field name |
| SchemaRecords.RecordDecodes | backend/internal/domain/schema.go:135-157 | Decoded, each field it carries shows its value, each other shows null, and the problems are exactly one per missing field |
| SchemaRecords.DeliveredAsPacked | backend/internal/service/simulation_engine.go:284-321 | The row stored for a delivered record holds the values its ship packed |
| SchemaTheorems.NoWarningNoSizeDrop | backend/internal/service/schema_service.go:53-60 | A schema stored without a warning never has a conforming payload dropped for its size at that SF |
| SchemaTheorems.ShapesAgree | backend/internal/domain/schema.go:113-134 | An array of any length decodes like the record of as many leading fields: same values, same problems |
| SchemaTheorems.DecodedFields | backend/internal/domain/schema.go:135-157 | Decoded keys are exactly schema and payload keys; a coercible field shows its coercion, a malformed one its raw value, a missing one null, extras unchanged |
| SchemaTheorems.NoProblemsIff | backend/internal/domain/schema.go:135-157 | No problems exactly when every schema field is present and coerces |
| SchemaTheorems.IntegersLosslessIff | backend/internal/domain/schema.go:224-257 | Integer coercion keeps a number iff it is below 2^63, and wraps it by 2^64 otherwise |
| MetricStore.HydratedMidRun | frontend/src/stores/metricStore.ts:48-60 | Counters fetched mid-run and fed with the later events are too high by exactly the events still due at the fetch, too low by those due now and by silent losses since |
| MetricStore.Store.ApplyPacketEvent | frontend/src/stores/metricStore.ts:53-60 | Each counter grows by one iff it is the event's, and the total of drops grows exactly with drop events |
| MetricStore.Store.TotalDropped | frontend/src/lib/lora.ts:163-169 | The sum of exactly the seven drop counters present |
| MetricStore.MirrorFollows | frontend/src/stores/metricStore.ts:29-60 | At every moment of every interleaving the server is ahead of the folded events by exactly the events about to be sent, for acks_dropped also by the silent losses |
| MetricStore.MirrorExactAtRest | frontend/src/stores/metricStore.ts:29-60 | At rest the mirrored counters are equal; acks_dropped is equal iff no ACK was lost silently, and too small otherwise |
| MetricStore.SilentLossHappens | backend/internal/service/simulation_engine.go:247-250 | A run at rest in which it is too small |
| MetricStore.DropsWithinTransmits | frontend/src/lib/lora.ts:152-169 | Total drops less rejected envelopes never exceed transmit_total |
| TopologyStore.Store.ApplyRoutes | frontend/src/stores/topologyStore.ts:196-214 | Skipping unchanged rows gives the same state as overwriting every listed row |
| TopologyStore.Store.ApplySnapshot | frontend/src/stores/topologyStore.ts:84-96 | Positions and presence first, then routes, edges added; unlisted ships stay |
| TopologyStore.Store.ApplyRoutingTable | frontend/src/stores/topologyStore.ts:98-99 | The listed rows overwrite the routes and nothing else |
| TopologyStore.Store.ApplyPing | frontend/src/stores/topologyStore.ts:101-116 | The ship is shown at the pinged place, present, touched now; it keeps its route and retry mark, or has none when new; other ships stay; coherence is kept |
| TopologyStore.Store.SetEdges | frontend/src/stores/topologyStore.ts:179-186 | Listed edges are added or replaced, the last of a code winning; others stay |
| TopologyStore.Store.SetOnline | frontend/src/stores/topologyStore.ts:118-135 | The ship is shown present or gone as the message says and keeps its position; gone it has no route and waits for no retry, present it keeps both; other ships stay; coherence is kept |
| TopologyStore.Store.ApplyPacketEvent | frontend/src/stores/topologyStore.ts:142-177 | Ships, routes, positions and presence stay; only the concerned ship's retry mark takes the event's value |
| TopologyStore.AlwaysCoherent | frontend/src/stores/topologyStore.ts:84-214 | In every reachable store: routed iff a parent is shown iff hop level at least 1 |
| TopologyStore.BroadcastRowsCoherent | backend/internal/service/mesh_topology.go:205-213 | The rows of any computed table satisfy what the store's invariant needs |
| TopologyStore.RowsShown | frontend/src/stores/topologyStore.ts:196-214 | After a table every listed ship shows exactly its row and waits for no retry, where it was and as present as it was |
| TopologyStore.EdgesShown | frontend/src/stores/topologyStore.ts:90-95 | An edge shows its last listing, or stays when unlisted |
| TopologyRuns.LastWordShown | frontend/src/stores/topologyStore.ts:84-214 | After any actions a ship shows on each matter the last word heard since a reset: its place from a ping or snapshot, its presence from a ping, presence message or snapshot, its route from a row or an offline message, its retry mark from a packet event, a row or an offline message |
| TopologyRuns.NoWordNoFact | frontend/src/stores/topologyStore.ts:53-68 | Where it heard none it shows the blank: no place, present, no route, not waiting |
| RetryMarks.MarkHasCause | frontend/src/stores/topologyStore.ts:142-177 | The ship whose mark an announced event sets or clears is the one whose own frame was judged and dropped, or survived; for an ack event the one the ACK was sent to |
| RetryMarks.WaitingHasCause | frontend/src/stores/topologyStore.ts:137-177 | A ship shown waiting: the last word on it is an event saying that a frame of that very ship was dropped, filtered, or lost its ACK |
| Dashboard.ShownIff | frontend/src/stores/topologyStore.ts:98-135 | A connected dashboard shows a ship's stored parent, kind, hop and status iff it did not see it go offline since the last table it took, or the ship is isolated anyway |
| Dashboard.OutageHidesRoute | backend/internal/service/mesh_topology.go:160-180 | A run in which a ship is online, positioned and routed in the stored table and shown isolated |
| ShipMarkers.PlaceShownIff | frontend/src/stores/topologyStore.ts:84-110 | A connected dashboard shows a positioned ship exactly where the server has it iff a ping of it or a snapshot ever reached it, and nowhere otherwise |
| ShipMarkers.PresenceShownIff | frontend/src/stores/topologyStore.ts:101-135 | It shows a ship present iff the ship is registered or the last it heard of its presence, if anything, was not true; so whom it shows gone is gone |
| ShipMarkers.GoneShipShown | backend/internal/service/simulation_engine.go:469-476 | A run in which a ship is shown present whose only socket has closed |

## Left out

- Haversine distance, floating-point rounding and NaN: distances are an arbitrary real-valued function; the float to integer conversion of out-of-range values is taken as failing, and rounding of integers to floats is not modelled. A float in a record is any finite IEEE 754 number; infinities and NaN do not conform.
- Loss probabilities and random numbers: the air verdict is any outcome.
- WebSocket pumps, JSON, Base64, HTTP handlers, middleware, configuration, logging: a payload is absent, undecodable or bytes, and an error event is its code and the envelope fault behind it.
- Redis, PostgreSQL and the MessagePack library: replaced by key maps with expiry, a row map, a spec-level encoder and reader of records, and an already unpacked value. The reader covers the value formats of records and maps of them; positional arrays are taken unpacked. Counter increments and socket sends are taken to succeed.
- Session, edge and schema CRUD, several sessions at once, the edge cache's refresh, the ping rate limit and its counters.
- Fine interleaving of connect-time pushes with a tick: `DistributionTheorems` keeps these handlers atomic. `NodeConnected` and `NodeDisconnected` are functions on that state rather than methods.
- EtherOrder.PassagesSpaced: the time d a handler takes from claim to passage is a hypothesis, as the source has no bound for it; `RetryWindow.SpacingAttained` shows the 30 s are false without it.
- EtherOrder.OneRelayPerForward: while handlers run, a frame whose sender is noted and which is about to be sent counts as a forward; `Receipts.RelayMayPrecedeForward` shows why.
- ShipNode.Node.TransmitWithRetry: how each attempt ends, and what others did to the waiters by then, are inputs; in the fleet they come from the run.
- FleetResults.AtMost24Frames: a ship is one process. A restarted client numbers its packets from 1 again and remembers none, so this bound and the uniqueness of packet ids are per process.
- FleetResults.OnePassagePerBurst: the timer and queue delays of a run are a hypothesis on the call, as the source has no bound for them.
- Delivery.LosslessDelivery: a delivering run exists; what holds in every run is `SteadyRoutes`. Both assume usable names (non-empty, at most 100 characters) and no ship named like an edge; this one also no active schema, and it does not follow the ACK traffic beside the frame.
- DistributionTheorems.ShipsAgree: about ships that stay registered under their own name in one session.
- Dashboard.ShownIff: about one dashboard that misses no message once it is connected; a reconnect is the table it takes, and a snapshot is taken and applied in one step.
- ShipMarkers.PlaceShownIff: about ships that have a stored position; a ship that left stays shown where it last was.
- EtherTheorems.AcksBounded: stated when no handler is in progress.
- A telemetry row has its path as a list rather than joined text, and its decoding problems beside the decoded keys rather than under a reserved key.
- Strings are sequences of characters that stand for bytes; counters, drop reasons and event types are enumerations; `sort.Slice` is an insertion sort.
- The inner scans of `BuildTopology`, the two halves of `HandleTransmit` and the loops of `DecodePayload` are methods of their own.
- React components, map drawing, log and flow stores, formatting.
