/** The Virtual Ether of service/simulation_engine.go, one atomic store or socket operation per step. */
module Ether {
  import opened MeshGraph
  import opened Protocol
  import opened StateStore
  import Schema

  // A queued node:transmit (with a tag naming its origin) or node:ack.
  datatype Request = Transmit(sender: string, pkt: TransmitPacket, tag: nat) | Ack(receiver: string, packetId: string)

  // Where a worker stands in its handler: the next operation it will perform. `since` is when the handler's frame
  // claimed its dedup key.
  datatype Pc =
    | Screen | CountInvalid(code: RejectCode) | NotifyReject(code: RejectCode)
    | CountTransmit(params: SessionParams) | Judge(params: SessionParams)
    | CountDrop(reason: DropReason) | EmitDrop(reason: DropReason)
    | Dedup(edge: bool)
    | CountDup | EmitDup | ReplyDup | CountSilentLoss
    | NoteSender(since: int) | SendFrame(since: int) | CountForward | EmitForward
    | Persist(since: int) | CountDeliver | EmitDeliver | EdgeReply
    | TakeSender | CountStale | RelayBack(to: string)
    | CountAckLoss(to: string) | EmitAckLoss(to: string)
    | SendAck(to: string) | CountAck(to: string) | EmitAck(to: string)
    | Done

  datatype Job = Job(request: Request, pc: Pc)

  // Ack jobs never stand in a transmit handler and the other way round.
  predicate OwnPc(j: Job) {
    match j.pc
    case Done => true
    case TakeSender => j.request.Ack? case CountStale => j.request.Ack? case RelayBack(_) => j.request.Ack?
    case CountSilentLoss => true case CountAckLoss(_) => true case EmitAckLoss(_) => true
    case SendAck(_) => true case CountAck(_) => true case EmitAck(_) => true
    case _ => j.request.Transmit?
  }

  // What the world answers while a handler runs: reads, dice and store faults.
  datatype Lookup = Found | Missing | Broken
  datatype Target = EdgeTarget | ShipTarget | LookupFailed
  datatype Env = Env(params: Option<SessionParams>, target: Target, txPos: Lookup, rxPos: Lookup, online: bool,
                     lost: bool, outOfRange: bool, ackLost: bool, storeFault: bool,
                     schema: Option<seq<Schema.SchemaField>>, unpacked: Schema.Unpacked)

  // The decoded_payload column: the frame's own text, or its fields; either with the problems found.
  datatype Content = Raw(payload: Payload, problems: seq<Schema.Problem>)
                   | Fields(values: map<string, Schema.Value>, problems: seq<Schema.Problem>)
  datatype TelemetryRow = TelemetryRow(origin: string, edge: string, hopCount: int, path: seq<string>, content: Content)

  // An ACK answers a delivery, replays one for a filtered duplicate, or relays a ship's node:ack.
  datatype AckKind = FromEdge | Replayed | Relayed

  // Everything observable a handler leaves behind, in order.
  datatype Output =
    | Survived(key: Key, sender: string)              // the frame's air verdict
    | Admitted(key: Key, at: int, tag: nat)           // first claim of the dedup key
    | Noted(key: Key) | Taken(key: Key)               // ACK sender stored / popped
    | FrameSent(to: string, pkt: TransmitPacket, tag: nat, since: int, at: int)                // mesh:receive_rf
    | Delivered(key: Key, row: TelemetryRow, stored: bool, tag: nat, since: int, at: int)      // telemetry insert
    | AckSent(to: string, key: Key, kind: AckKind)    // mesh:ack
    | Event(ev: PacketEvent)                          // packet:event
    | Rejected(to: string, code: RejectCode)          // error event
    | SilentLoss(key: Key)                            // an ACK loss counted without an event
    | Aborted                                         // silent return on a fault

  datatype Effect = Effect(store: Store, pc: Pc, out: seq<Output>)

  function FrameKey(p: TransmitPacket): Key { Key(p.packetId, p.targetParent) }

  function JobKey(r: Request): Key {
    match r
    case Transmit(_, p, _) => FrameKey(p)
    case Ack(receiver, id) => Key(id, receiver)
  }

  function Start(r: Request): Pc { if r.Transmit? then Screen else if r.packetId == "" then Done else TakeSender }

  datatype Verdict = Drop(reason: DropReason) | Fault | Pass(edge: bool)

  function PayloadSize(pkt: TransmitPacket): nat { if pkt.payload.Bytes? then |pkt.payload.data| else 0 }

  // Byte ceiling, TTL, target resolution, positions, dice: the branch order of HandleTransmit.
  function JudgeFrame(pkt: TransmitPacket, params: SessionParams, env: Env): Verdict
  {
    if PayloadSize(pkt) > MaxPayloadBytes(params.spreadingFactor) then Drop(SfLimitExceeded)
    else if pkt.hopCount > MAX_HOPS then Drop(MaxHopsExceeded)
    else if env.target.LookupFailed? then Fault
    else if env.txPos.Missing? then Drop(TransmitterNoPosition)
    else if env.txPos.Broken? then Fault
    else if env.target.ShipTarget? && !env.online then Drop(TargetOffline)
    else if env.target.ShipTarget? && env.rxPos.Missing? then Drop(TargetNoPosition)
    else if env.target.ShipTarget? && env.rxPos.Broken? then Fault
    else if env.lost then Drop(if env.outOfRange then OutOfRange else AirLoss)
    else Pass(env.target.EdgeTarget?)
  }

  // Admission checks before anything is counted.
  function ScreenFrame(sender: string, pkt: TransmitPacket, env: Env): Pc {
    if Validate(pkt) != None then CountInvalid(InvalidEnvelope(Validate(pkt).value))
    else if Transmitter(pkt) != sender then CountInvalid(TransmitterMismatch)
    else if !pkt.payload.Bytes? then CountInvalid(InvalidBase64)
    else match env.params case None => Done case Some(p) => CountTransmit(p)
  }

  // What a delivery stores of the payload: nothing decoded without a schema, or when the bytes are garbage.
  function ContentOf(payload: Payload, schema: Option<seq<Schema.SchemaField>>, unpacked: Schema.Unpacked): Content {
    match schema
    case None => Raw(payload, [])
    case Some(fields) =>
      match unpacked
      case Garbage => Raw(payload, [Schema.DecodeFailed])
      case Record(m) => Fields(Schema.Decoded(m, fields), Schema.Problems(m, fields))
      case Positional(items) =>
        var m := Schema.Named(items, fields);
        Fields(Schema.Decoded(m, fields), Schema.Problems(m, fields))
  }

  function RowOf(p: TransmitPacket, env: Env): TelemetryRow {
    TelemetryRow(p.originNode, p.targetParent, p.hopCount, p.routingPath + [p.targetParent],
                 ContentOf(p.payload, env.schema, env.unpacked))
  }

  function PacketOf(r: Request): TransmitPacket {
    if r.Transmit? then r.pkt else TransmitPacket("", "", "", 0, [], NoText)
  }

  function SenderName(r: Request): string {
    if r.Transmit? && |r.pkt.routingPath| > 0 then Transmitter(r.pkt) else ""
  }

  function FrameEvent(kind: EventType, r: Request, reason: Option<DropReason>): Output {
    Event(PacketEvent(kind, PacketOf(r).packetId, SenderName(r), PacketOf(r).targetParent, reason))
  }

  function AckEventOf(kind: EventType, r: Request, to: string): Output {
    Event(PacketEvent(kind, JobKey(r).packetId, JobKey(r).receiver, to, None))
  }

  // One atomic operation of the handler that stands at pc.
  function Perform(r: Request, pc: Pc, s: Store, env: Env): (e: Effect)
    ensures |e.out| <= 1
  {
    var key := JobKey(r);
    match pc
    case Screen =>
      var next := ScreenFrame(SenderOfJob(r), PacketOf(r), env);
      Effect(s, next, if next == Done then [Rejected(SenderOfJob(r), SessionUnavailable)] else [])
    case CountInvalid(code) => Effect(Incr(s, DroppedInvalid), NotifyReject(code), [])
    case NotifyReject(code) => Effect(s, Done, [Rejected(SenderOfJob(r), code)])
    case CountTransmit(p) => Effect(Incr(s, TransmitTotal), Judge(p), [])
    case Judge(p) => (
      match JudgeFrame(PacketOf(r), p, env)
      case Drop(reason) => Effect(s, CountDrop(reason), [])
      case Fault => Effect(s, Done, [Aborted])
      case Pass(edge) => Effect(s, Dedup(edge), [Survived(key, SenderName(r))]))
    case CountDrop(reason) => Effect(Incr(s, DropStat(reason)), EmitDrop(reason), [])
    case EmitDrop(reason) => Effect(s, Done, [FrameEvent(DropEvent, r, Some(reason))])
    case Dedup(edge) =>
      if env.storeFault then Effect(s, Done, [Aborted])
      else if Seen(s, key) then Effect(s, CountDup, [])
      else Effect(MarkSeen(s, key), if edge then Persist(s.now) else NoteSender(s.now),
        [Admitted(key, s.now, TagOf(r))])
    case CountDup => Effect(Incr(s, DuplicatesFiltered), EmitDup, [])
    case EmitDup => Effect(s, ReplyDup, [FrameEvent(DuplicateEvent, r, None)])
    case ReplyDup => if env.ackLost then Effect(s, CountSilentLoss, [])
      else Effect(s, Done, [AckSent(SenderName(r), key, Replayed)])
    case CountSilentLoss => Effect(Incr(s, AcksDropped), Done, [SilentLoss(key)])
    case NoteSender(since) =>
      if env.storeFault then Effect(s, SendFrame(since), [])
        else Effect(Remember(s, key, SenderName(r)), SendFrame(since), [Noted(key)])
    case SendFrame(since) => Effect(s, CountForward, [FrameSent(key.receiver, PacketOf(r), TagOf(r), since, s.now)])
    case CountForward => Effect(Incr(s, ForwardedToNode), EmitForward, [])
    case EmitForward => Effect(s, Done, [FrameEvent(ForwardEvent, r, None)])
    case Persist(since) =>
      Effect(s, CountDeliver, [Delivered(key, RowOf(PacketOf(r), env), !env.storeFault, TagOf(r), since, s.now)])
    case CountDeliver => Effect(Incr(s, DeliveredToEdge), EmitDeliver, [])
    case EmitDeliver => Effect(s, EdgeReply, [FrameEvent(DeliverEvent, r, None)])
    case EdgeReply => Effect(s, if env.ackLost then CountAckLoss(SenderName(r)) else SendAck(SenderName(r)), [])
    case TakeSender =>
      if env.storeFault then Effect(s, Done, [])
      else (match SenderOf(s, key)
        case None => Effect(Forget(s, key), CountStale, [])
        case Some(sender) => Effect(Forget(s, key), RelayBack(sender), [Taken(key)]))
    case CountStale => Effect(Incr(s, AcksStale), Done, [])
    case RelayBack(to) =>
      if env.params == None then Effect(s, Done, [])
      else if env.rxPos != Found || env.txPos != Found then Effect(s, CountSilentLoss, [])
      else Effect(s, if env.ackLost then CountAckLoss(to) else SendAck(to), [])
    case CountAckLoss(to) => Effect(Incr(s, AcksDropped), EmitAckLoss(to), [])
    case EmitAckLoss(to) => Effect(s, Done, [AckEventOf(AckDropEvent, r, to)])
    case SendAck(to) => Effect(s, CountAck(to), [AckSent(to, key, if r.Ack? then Relayed else FromEdge)])
    case CountAck(to) => Effect(Incr(s, AcksRelayed), EmitAck(to), [])
    case EmitAck(to) => Effect(s, Done, [AckEventOf(AckEvent, r, to)])
    case Done => Effect(s, Done, [])
  }

  function SenderOfJob(r: Request): string { if r.Transmit? then r.sender else r.receiver }
  function TagOf(r: Request): nat { if r.Transmit? then r.tag else 0 }

  // The whole engine: key store, every job ever queued, and everything emitted so far.
  datatype Engine = Engine(store: Store, jobs: seq<Job>, log: seq<Output>)

  const INIT := Engine(EMPTY, [], [])

  datatype Step = Tick(ms: nat) | Submit(request: Request) | Work(job: nat, env: Env)

  // Any worker may take its next step at any time; Work on a job that does not exist changes nothing.
  function Apply(e: Engine, step: Step): Engine {
    match step
    case Tick(ms) => e.(store := e.store.(now := e.store.now + ms))
    case Submit(r) => e.(jobs := e.jobs + [Job(r, Start(r))])
    case Work(i, env) =>
      if i < |e.jobs| then
        var r := Perform(e.jobs[i].request, e.jobs[i].pc, e.store, env);
        Engine(r.store, e.jobs[i := e.jobs[i].(pc := r.pc)], e.log + r.out)
      else e
  }

  function Run(steps: seq<Step>): Engine {
    if |steps| == 0 then INIT else Apply(Run(steps[..|steps| - 1]), steps[|steps| - 1])
  }

  predicate Quiescent(e: Engine) { forall j :: j in e.jobs ==> j.pc == Done }
}
