/** Honest ships running nodesim on top of the Virtual Ether, under arbitrary loss, delay, reordering and route
    changes. */
module Fleet {
  import opened MeshGraph
  import opened Protocol
  import opened Ether
  import opened ShipNode

  // One transmitWithRetry call and, in order, the airings it has made.
  datatype Phase = Ready | Waiting(since: int, timeout: int, acked: bool) | Ended(acked: bool)
  datatype Call = Call(ship: string, frame: TransmitPacket, phase: Phase, aired: seq<nat>)
  // One frame put on the air.
  datatype Airing = Airing(call: nat, attempt: nat, at: int, timeout: int)

  datatype World = World(ships: map<string, Ship>, calls: seq<Call>, airings: seq<Airing>, engine: Engine)

  const GENESIS := World(map[], [], [], INIT)

  datatype Action =
    | Pass(ms: nat) | Join(id: string)
    | Route(id: string, parent: string, parentIsEdge: bool, status: Status)
    | Params(id: string, timeoutMs: int, maxPayload: int)
    | Report(id: string, raw: seq<byte>, ignoreSF: bool)     // transmitTelemetry
    | Hear(id: string, i: nat)                               // mesh:receive_rf logged at i
    | HearAck(id: string, i: nat)                            // mesh:ack logged at i
    | Air(call: nat) | FailWrite(call: nat) | Expire(call: nat) | Succeed(call: nat) | Quit(call: nat)
    | Arrive(airing: nat)                                    // the frame enters the gateway's job queue
    | SendNodeAck(id: string, i: nat)                        // node:ack for the frame logged at i
    | Serve(job: nat, env: Env)                              // one worker operation

  function Now(w: World): int { w.engine.store.now }

  function Engage(w: World, step: Step): World { w.(engine := Apply(w.engine, step)) }

  function StartCall(w: World, s: Ship, frame: Option<TransmitPacket>): World {
    var w' := w.(ships := w.ships[s.id := s]);
    match frame
    case None => w'
    case Some(f) => w'.(calls := w.calls + [Call(s.id, f, Ready, [])])
  }

  predicate CanAir(w: World, c: nat) {
    c < |w.calls| && w.calls[c].phase.Ready? && w.calls[c].ship in w.ships
  }

  function AirFrame(w: World, c: nat): World
    requires CanAir(w, c)
  {
    var call := w.calls[c];
    var s := w.ships[call.ship];
    var n := |call.aired|;
    w.(ships := w.ships[call.ship := Listen(s, call.frame.packetId, Ticket(c, n))],
       calls := w.calls[c := call.(phase := Waiting(Now(w), s.ackTimeout, false), aired := call.aired + [|w.airings|])],
       airings := w.airings + [Airing(c, n, Now(w), s.ackTimeout)])
  }

  predicate CanExpire(w: World, c: nat) {
    c < |w.calls| && w.calls[c].phase.Waiting? && w.calls[c].ship in w.ships
    && Now(w) >= w.calls[c].phase.since + w.calls[c].phase.timeout + RETRY_GUARD
  }

  function ExpireCall(w: World, c: nat): World
    requires CanExpire(w, c)
  {
    var call := w.calls[c];
    w.(ships := w.ships[call.ship := StopListening(w.ships[call.ship], call.frame.packetId)],
       calls := w.calls[c := call.(phase := if |call.aired| <= MAX_RETRIES then Ready else Ended(false))])
  }

  predicate CanHearAck(w: World, id: string, i: nat) {
    id in w.ships && i < |w.engine.log| && w.engine.log[i].AckSent? && w.engine.log[i].to == id
  }

  function AckShip(w: World, id: string, i: nat): World
    requires CanHearAck(w, id, i)
  {
    var (s, ticket) := OnAck(w.ships[id], w.engine.log[i].key.packetId);
    var w' := w.(ships := w.ships[id := s]);
    match ticket
    case None => w'
    case Some(t) =>
      if t.call < |w.calls| && w.calls[t.call].phase.Waiting? && |w.calls[t.call].aired| == t.attempt + 1
      then w'.(calls := w.calls[t.call := w.calls[t.call].(phase := w.calls[t.call].phase.(acked := true))])
      else w'
  }

  predicate Received(w: World, id: string, i: nat) {
    id in w.ships && i < |w.engine.log| && w.engine.log[i].FrameSent? && w.engine.log[i].to == id
  }

  // Any action may come next; one that is not enabled changes nothing.
  function Next(w: World, a: Action): World {
    match a
    case Pass(ms) => Engage(w, Tick(ms))
    case Join(id) => if id in w.ships then w else w.(ships := w.ships[id := Fresh(id)])
    case Route(id, parent, isEdge, status) =>
      if id in w.ships then w.(ships := w.ships[id := OnRoutingUpdate(w.ships[id], parent, isEdge, status)]) else w
    case Params(id, ms, limit) =>
      if id in w.ships then w.(ships := w.ships[id := OnSyncParams(w.ships[id], ms, limit)]) else w
    case Report(id, raw, ignoreSF) =>
      if id in w.ships then var (s, f) := Originate(w.ships[id], raw, ignoreSF); StartCall(w, s, f) else w
    case Hear(id, i) =>
      if Received(w, id, i) then var (s, f) := Receive(w.ships[id], w.engine.log[i].pkt); StartCall(w, s, f) else w
    case HearAck(id, i) => if CanHearAck(w, id, i) then AckShip(w, id, i) else w
    case Air(c) => if CanAir(w, c) then AirFrame(w, c) else w
    case FailWrite(c) =>
      if CanAir(w, c) then
        w.(ships := w.ships[w.calls[c].ship := Listen(w.ships[w.calls[c].ship], w.calls[c].frame.packetId,
          Ticket(c, |w.calls[c].aired|))],
           calls := w.calls[c := w.calls[c].(phase := Ended(false))])
      else w
    case Expire(c) => if CanExpire(w, c) then ExpireCall(w, c) else w
    case Succeed(c) =>
      if c < |w.calls| && w.calls[c].phase.Waiting? && w.calls[c].phase.acked
      then w.(calls := w.calls[c := w.calls[c].(phase := Ended(true))]) else w
    case Quit(c) =>
      if c < |w.calls| && !w.calls[c].phase.Ended? then w.(calls := w.calls[c := w.calls[c].(phase := Ended(false))])
        else w
    case Arrive(x) =>
      if x < |w.airings| && w.airings[x].call < |w.calls|
      then Engage(w, Submit(Transmit(w.calls[w.airings[x].call].ship, w.calls[w.airings[x].call].frame, x))) else w
    case SendNodeAck(id, i) =>
      if Received(w, id, i) then Engage(w, Submit(Ack(id, w.engine.log[i].pkt.packetId))) else w
    case Serve(j, env) => Engage(w, Work(j, env))
  }

  function Play(actions: seq<Action>): World {
    if |actions| == 0 then GENESIS else Next(Play(actions[..|actions| - 1]), actions[|actions| - 1])
  }
}
