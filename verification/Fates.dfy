/** What becomes of a queued frame or node:ack, case by case: a reference independent of the handlers' steps. */
module Fates {
  import opened MeshGraph
  import opened Protocol
  import opened StateStore
  import opened Ether
  import opened EtherTheorems
  import opened SimulationEngine
  import Schema

  // ---- A frame, from the conditions of its envelope to what is stored, sent and counted ---------------

  predicate Named(s: string) { 1 <= |s| <= 100 }

  // The first thing wrong with an envelope.
  predicate FirstFault(p: TransmitPacket, f: EnvelopeFault) {
    var ids := Named(p.packetId) && Named(p.originNode) && Named(p.targetParent);
    var counted := ids && p.hopCount >= 1;
    match f
    case NoPacketId => !Named(p.packetId)
    case NoOrigin => Named(p.packetId) && !Named(p.originNode)
    case NoTarget => Named(p.packetId) && Named(p.originNode) && !Named(p.targetParent)
    case BadHopCount => ids && p.hopCount < 1
    case EmptyPath => counted && p.routingPath == []
    case PathTooLong => counted && |p.routingPath| > 6
    case NoPayload => counted && 1 <= |p.routingPath| <= 6 && p.payload == NoText
    case BadPathEntry =>
      counted && 1 <= |p.routingPath| <= 6 && p.payload != NoText && exists hop :: hop in p.routingPath && !Named(hop)
  }

  predicate CleanEnvelope(p: TransmitPacket) {
    && Named(p.packetId) && Named(p.originNode) && Named(p.targetParent) && p.hopCount >= 1
    && 1 <= |p.routingPath| <= 6 && (forall hop :: hop in p.routingPath ==> Named(hop)) && p.payload != NoText
  }

  predicate Acceptable(p: TransmitPacket, sender: string) {
    CleanEnvelope(p) && p.routingPath[|p.routingPath| - 1] == sender && p.payload.Bytes?
  }

  lemma FaultOrClean(p: TransmitPacket)
    ensures CleanEnvelope(p) <==> Validate(p) == None
    ensures forall f :: FirstFault(p, f) <==> Validate(p) == Some(f)
  {
    assert (exists i :: 0 <= i < |p.routingPath| && !GoodId(p.routingPath[i]))
      <==> (exists hop :: hop in p.routingPath && !Named(hop)) by {
      if hop :| hop in p.routingPath && !Named(hop) {
        var i :| 0 <= i < |p.routingPath| && p.routingPath[i] == hop;
        assert !GoodId(p.routingPath[i]);
      }
      if i :| 0 <= i < |p.routingPath| && !GoodId(p.routingPath[i]) { assert p.routingPath[i] in p.routingPath; }
    }
  }

  /** A refused frame is counted invalid and its sender is told the first thing that is wrong; without session
      parameters it is only told so. */
  lemma Refused(s: Store, log: seq<Output>, sender: string, p: TransmitPacket, tag: nat, answers: Pc -> Env)
    ensures var end := Drain(s, log, Transmit(sender, p, tag), Screen, answers);
      && (forall f :: FirstFault(p, f) ==>
        end == (Incr(s, DroppedInvalid), log + [Rejected(sender, InvalidEnvelope(f))]))
      && (CleanEnvelope(p) && p.routingPath[|p.routingPath| - 1] != sender ==>
            end == (Incr(s, DroppedInvalid), log + [Rejected(sender, TransmitterMismatch)]))
      && (CleanEnvelope(p) && p.routingPath[|p.routingPath| - 1] == sender && p.payload == NotBase64 ==>
            end == (Incr(s, DroppedInvalid), log + [Rejected(sender, InvalidBase64)]))
      && (Acceptable(p, sender) && answers(Screen).params == None ==>
        end == (s, log + [Rejected(sender, SessionUnavailable)]))
  {
    hide Drain, Incr, FirstFault, CleanEnvelope;
    var r := Transmit(sender, p, tag);
    FaultOrClean(p);
    CleanPath(p);
    Onward(s, log, r, Screen, answers);
    hide Validate;
    forall code
      ensures Drain(s, log, r, CountInvalid(code), answers) == (Incr(s, DroppedInvalid), log + [Rejected(sender, code)])
    {
      RejectStretch(s, log, r, code, answers);
    }
  }

  lemma CleanPath(p: TransmitPacket)
    ensures CleanEnvelope(p) ==> |p.routingPath| > 0
  {
  }

  lemma Accepted(p: TransmitPacket, sender: string, env: Env)
    requires Acceptable(p, sender) && env.params.Some?
    ensures |p.routingPath| > 0 && Transmitter(p) == sender
      && ScreenFrame(sender, p, env) == CountTransmit(env.params.value)
  {
    FaultOrClean(p);
  }

  // The byte ceilings of the spreading factors.
  predicate Fits(size: nat, sf: int) { size <= 242 && (sf >= 9 ==> size <= 115) && (sf >= 10 ==> size <= 51) }

  // Why a frame that was accepted and counted is dropped, in the order of the checks.
  predicate DroppedFor(reason: DropReason, p: TransmitPacket, sf: int, env: Env)
    requires p.payload.Bytes?
  {
    var fits := Fits(|p.payload.data|, sf);
    var near := fits && p.hopCount <= 5 && env.target != LookupFailed;
    var seen := near && env.txPos == Found;
    match reason
    case SfLimitExceeded => !fits
    case MaxHopsExceeded => fits && p.hopCount > 5
    case TransmitterNoPosition => near && env.txPos == Missing
    case TargetOffline => seen && env.target == ShipTarget && !env.online
    case TargetNoPosition => seen && env.target == ShipTarget && env.online && env.rxPos == Missing
    case AirLoss => Located(p, sf, env) && env.lost && !env.outOfRange
    case OutOfRange => Located(p, sf, env) && env.lost && env.outOfRange
  }

  // Sender and receiver have positions and the receiver listens.
  predicate Located(p: TransmitPacket, sf: int, env: Env)
    requires p.payload.Bytes?
  {
    && Fits(|p.payload.data|, sf) && p.hopCount <= 5 && env.target != LookupFailed && env.txPos == Found
    && (env.target == ShipTarget ==> env.online && env.rxPos == Found)
  }

  predicate Gone(p: TransmitPacket, sf: int, env: Env)
    requires p.payload.Bytes?
  {
    && Fits(|p.payload.data|, sf) && p.hopCount <= 5
    && (env.target == LookupFailed || env.txPos == Broken
        || (env.txPos == Found && env.target == ShipTarget && env.online && env.rxPos == Broken))
  }

  // The counter and the reason of each drop.
  predicate CountedUnder(reason: DropReason, k: Stat) {
    match reason
    case SfLimitExceeded => k == DroppedSFLimit
    case MaxHopsExceeded => k == DroppedMaxHops
    case TransmitterNoPosition => k == DroppedNoPosition
    case TargetNoPosition => k == DroppedNoPosition
    case TargetOffline => k == DroppedTargetOffline
    case AirLoss => k == DroppedAirLoss
    case OutOfRange => k == DroppedOutOfRange
  }

  lemma VerdictIs(p: TransmitPacket, params: SessionParams, env: Env)
    requires p.payload.Bytes?
    ensures forall reason ::
      DroppedFor(reason, p, params.spreadingFactor, env) <==> JudgeFrame(p, params, env) == Drop(reason)
    ensures Gone(p, params.spreadingFactor, env) <==> JudgeFrame(p, params, env) == Fault
    ensures forall edge :: JudgeFrame(p, params, env) == Pass(edge) <==>
      Located(p, params.spreadingFactor, env) && !env.lost && edge == (env.target == EdgeTarget)
  {
  }

  /** An accepted frame is counted and, for exactly these payload sizes, hop counts and answers, dropped: one more on
      the reason's counter, one event from the sender to the target naming the reason, nothing else. */
  lemma DropFate(s: Store, log: seq<Output>, sender: string, p: TransmitPacket, tag: nat, params: SessionParams,
                 answers: Pc -> Env, reason: DropReason, k: Stat)
    requires Acceptable(p, sender) && answers(Screen).params == Some(params)
    requires DroppedFor(reason, p, params.spreadingFactor, answers(Judge(params))) && CountedUnder(reason, k)
    ensures Drain(s, log, Transmit(sender, p, tag), Screen, answers)
      == (Incr(Incr(s, TransmitTotal), k),
          log + [Event(PacketEvent(DropEvent, p.packetId, sender, p.targetParent, Some(reason)))])
  {
    hide Drain, ScreenFrame, JudgeFrame, Incr, DroppedFor, Acceptable;
    Accepted(p, sender, answers(Screen));
    BytesOf(p, sender);
    VerdictIs(p, params, answers(Judge(params)));
    DroppedStretch(s, log, Transmit(sender, p, tag), params, reason, answers);
  }

  lemma BytesOf(p: TransmitPacket, sender: string)
    requires Acceptable(p, sender)
    ensures p.payload.Bytes? && |p.routingPath| > 0 && Transmitter(p) == sender
  {
  }

  /** A store fault on the way ends it in silence. */
  lemma FaultFate(s: Store, log: seq<Output>, sender: string, p: TransmitPacket, tag: nat, params: SessionParams,
      answers: Pc -> Env)
    requires Acceptable(p, sender) && answers(Screen).params == Some(params)
    requires Gone(p, params.spreadingFactor, answers(Judge(params)))
    ensures Drain(s, log, Transmit(sender, p, tag), Screen, answers) == (Incr(s, TransmitTotal), log + [Aborted])
  {
    hide Drain, ScreenFrame, JudgeFrame, Incr, Gone, Acceptable;
    var r, s1 := Transmit(sender, p, tag), Incr(s, TransmitTotal);
    Accepted(p, sender, answers(Screen));
    BytesOf(p, sender);
    VerdictIs(p, params, answers(Judge(params)));
    Onward(s, log, r, Screen, answers);
    Onward(s, log, r, CountTransmit(params), answers);
    Onward(s1, log, r, Judge(params), answers);
  }

  // ---- A frame that got through ------------------------------------------------------------------------

  predicate Through(p: TransmitPacket, sender: string, params: SessionParams, answers: Pc -> Env) {
    && Acceptable(p, sender) && answers(Screen).params == Some(params)
    && Located(p, params.spreadingFactor, answers(Judge(params))) && !answers(Judge(params)).lost
    && !answers(Dedup(answers(Judge(params)).target == EdgeTarget)).storeFault
  }

  lemma ThroughPasses(p: TransmitPacket, sender: string, tag: nat, params: SessionParams, answers: Pc -> Env)
    requires Through(p, sender, params, answers)
    ensures PassesAir(Transmit(sender, p, tag), params, answers(Judge(params)).target == EdgeTarget, answers)
  {
    hide ScreenFrame, JudgeFrame, Acceptable, Located;
    Accepted(p, sender, answers(Screen));
    BytesOf(p, sender);
    VerdictIs(p, params, answers(Judge(params)));
  }

  /** While its dedup key lives it is a duplicate: counted, announced from the sender to the target, and answered again
      to the sender, or that ACK is lost and counted in silence. */
  lemma DuplicateFate(s: Store, log: seq<Output>, sender: string, p: TransmitPacket, tag: nat, params: SessionParams,
      answers: Pc -> Env)
    requires Through(p, sender, params, answers)
    requires var key := Key(p.packetId, p.targetParent); key in s.dedup && s.now < s.dedup[key]
    ensures var key := Key(p.packetId, p.targetParent);
      var s1 := Incr(Incr(s, TransmitTotal), DuplicatesFiltered);
      var log1 := log + [Survived(key, sender)]
        + [Event(PacketEvent(DuplicateEvent, p.packetId, sender, p.targetParent, None))];
      Drain(s, log, Transmit(sender, p, tag), Screen, answers)
      == if answers(ReplyDup).ackLost then (Incr(s1, AcksDropped), log1 + [SilentLoss(key)])
         else (s1, log1 + [AckSent(sender, key, Replayed)])
  {
    hide Drain, PassesAir, Through, Incr;
    ThroughPasses(p, sender, tag, params, answers);
    SenderIs(p, sender, params, answers);
    HandledStretch(s, log, Transmit(sender, p, tag), params, answers(Judge(params)).target == EdgeTarget, answers);
  }

  lemma SenderIs(p: TransmitPacket, sender: string, params: SessionParams, answers: Pc -> Env)
    requires Through(p, sender, params, answers)
    ensures |p.routingPath| > 0 && Transmitter(p) == sender
  {
  }

  // What claiming the dedup key makes of the store: held for 30 s.
  function Claimed(s: Store, key: Key): Store { s.(dedup := s.dedup[key := s.now + 30000]) }

  /** Otherwise, for a ship, it claims the key for 30 s, notes the sender for two minutes unless that fails, is sent to
      the target unchanged, counted and announced. */
  lemma ForwardFate(s: Store, log: seq<Output>, sender: string, p: TransmitPacket, tag: nat, params: SessionParams,
      answers: Pc -> Env)
    requires Through(p, sender, params, answers) && answers(Judge(params)).target == ShipTarget
    requires var key := Key(p.packetId, p.targetParent); key in s.dedup ==> s.now >= s.dedup[key]
    ensures var key := Key(p.packetId, p.targetParent);
      var fault := answers(NoteSender(s.now)).storeFault;
      var s1 := Claimed(Incr(s, TransmitTotal), key);
      var s2 := if fault then s1 else s1.(ackSender := s1.ackSender[key := Lease(sender, s.now + 120000)]);
      Drain(s, log, Transmit(sender, p, tag), Screen, answers)
      == (Incr(s2, ForwardedToNode),
          log + [Survived(key, sender)] + [Admitted(key, s.now, tag)] + (if fault then [] else [Noted(key)])
          + [FrameSent(p.targetParent, p, tag, s.now, s.now)]
          + [Event(PacketEvent(ForwardEvent, p.packetId, sender, p.targetParent, None))])
  {
    hide Drain, PassesAir, Through;
    ThroughPasses(p, sender, tag, params, answers);
    SenderIs(p, sender, params, answers);
    HandledStretch(s, log, Transmit(sender, p, tag), params, false, answers);
    hide Incr;
    IncrStats(s);
    assert forall l: seq<Output> :: l + [] == l;
  }

  lemma IncrStats(s: Store)
    ensures forall k :: Incr(s, k).now == s.now && Incr(s, k).dedup == s.dedup && Incr(s, k).ackSender == s.ackSender
  {
  }

  // The decoded_payload column.
  ghost predicate StoredAs(p: TransmitPacket, env: Env, content: Content) {
    match env.schema
    case None => content == Raw(p.payload, [])
    case Some(fields) =>
      match env.unpacked
      case Garbage => content == Raw(p.payload, [Schema.DecodeFailed])
      case Record(m) => content == Fields(Schema.Decoded(m, fields), Schema.Problems(m, fields))
      case Positional(items) =>
        content == Fields(Schema.Decoded(Schema.Named(items, fields), fields),
          Schema.Problems(Schema.Named(items, fields), fields))
  }

  /** For an edge it claims the key, is stored with its path closed by the edge, counted and announced even when the
      insert fails, and the edge's ACK goes to the sender or is lost, counted and announced from the edge to the
      sender. */
  lemma DeliveryFate(s: Store, log: seq<Output>, sender: string, p: TransmitPacket, tag: nat, params: SessionParams,
      answers: Pc -> Env)
    requires Through(p, sender, params, answers) && answers(Judge(params)).target == EdgeTarget
    requires var key := Key(p.packetId, p.targetParent); key in s.dedup ==> s.now >= s.dedup[key]
    ensures var key, env := Key(p.packetId, p.targetParent), answers(Persist(s.now));
      exists content :: StoredAs(p, env, content) &&
        var row := TelemetryRow(p.originNode, p.targetParent, p.hopCount, p.routingPath + [p.targetParent], content);
        var s1 := Incr(Claimed(Incr(s, TransmitTotal), key), DeliveredToEdge);
        var log1 := log + [Survived(key, sender)] + [Admitted(key, s.now, tag)]
          + [Delivered(key, row, !env.storeFault, tag, s.now, s.now)]
          + [Event(PacketEvent(DeliverEvent, p.packetId, sender, p.targetParent, None))];
        Drain(s, log, Transmit(sender, p, tag), Screen, answers)
        == if answers(EdgeReply).ackLost
           then (Incr(s1, AcksDropped),
                 log1 + [Event(PacketEvent(AckDropEvent, p.packetId, p.targetParent, sender, None))])
           else (Incr(s1, AcksRelayed), log1 + [AckSent(sender, key, FromEdge)]
                 + [Event(PacketEvent(AckEvent, p.packetId, p.targetParent, sender, None))])
  {
    hide Drain, PassesAir, Through, ContentOf;
    ThroughPasses(p, sender, tag, params, answers);
    SenderIs(p, sender, params, answers);
    HandledStretch(s, log, Transmit(sender, p, tag), params, true, answers);
    var env := answers(Persist(s.now));
    ContentIs(p, env);
    hide Incr, StoredAs;
    IncrStats(s);
    assert StoredAs(p, env, ContentOf(p.payload, env.schema, env.unpacked));
  }

  lemma ContentIs(p: TransmitPacket, env: Env)
    ensures StoredAs(p, env, ContentOf(p.payload, env.schema, env.unpacked))
  {
  }

  // ---- A node:ack --------------------------------------------------------------------------------------

  // The noted sender of a frame, while it lives.
  predicate NotedSender(s: Store, key: Key, sender: string) {
    key in s.ackSender && s.now < s.ackSender[key].expires && s.ackSender[key].sender == sender
  }

  /** Without a packet id or on a store fault nothing happens; without a live noted sender it is stale. */
  lemma StaleAckFate(s: Store, log: seq<Output>, receiver: string, packetId: string, answers: Pc -> Env)
    ensures var key, r := Key(packetId, receiver), Ack(receiver, packetId);
      var end := Drain(s, log, r, Start(r), answers);
      && (packetId == "" || answers(TakeSender).storeFault ==> end == (s, log))
      && (packetId != "" && !answers(TakeSender).storeFault && (forall sender :: !NotedSender(s, key, sender)) ==>
            end == (Incr(s.(ackSender := s.ackSender - {key}), AcksStale), log))
  {
    hide Drain, Incr;
    var key, r := Key(packetId, receiver), Ack(receiver, packetId);
    if key in s.ackSender && s.now < s.ackSender[key].expires { assert NotedSender(s, key, s.ackSender[key].sender); }
    Onward(s, log, r, TakeSender, answers);
    Onward(s.(ackSender := s.ackSender - {key}), log, r, CountStale, answers);
  }

  /** With one it spends the note and, unless the session is gone, goes back to that sender: lost in silence without
      both positions, lost and announced in the air, or sent, counted and announced; always from the receiver to the
      sender. */
  lemma AckFate(s: Store, log: seq<Output>, receiver: string, packetId: string, sender: string, answers: Pc -> Env)
    requires packetId != "" && !answers(TakeSender).storeFault && NotedSender(s, Key(packetId, receiver), sender)
    ensures var key, r, env := Key(packetId, receiver), Ack(receiver, packetId), answers(RelayBack(sender));
      var s1, log1 := s.(ackSender := s.ackSender - {key}), log + [Taken(key)];
      Drain(s, log, r, Start(r), answers)
      == if env.params == None then (s1, log1)
         else if env.rxPos != Found || env.txPos != Found then (Incr(s1, AcksDropped), log1 + [SilentLoss(key)])
         else if env.ackLost
         then (Incr(s1, AcksDropped), log1 + [Event(PacketEvent(AckDropEvent, packetId, receiver, sender, None))])
         else (Incr(s1, AcksRelayed), log1 + [AckSent(sender, key, Relayed)]
               + [Event(PacketEvent(AckEvent, packetId, receiver, sender, None))])
  {
    hide Drain, Incr;
    var key, r, env := Key(packetId, receiver), Ack(receiver, packetId), answers(RelayBack(sender));
    var s1, log1 := s.(ackSender := s.ackSender - {key}), log + [Taken(key)];
    Onward(s, log, r, TakeSender, answers);
    Onward(s1, log1, r, RelayBack(sender), answers);
    Onward(s1, log1, r, CountSilentLoss, answers);
    LostAckStretch(s1, log1, r, sender, answers);
    AckStretch(s1, log1, r, sender, answers);
  }
}
