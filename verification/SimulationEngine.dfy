/** The handlers of service/simulation_engine.go as the source writes them, over a mutable key store. */
module SimulationEngine {
  import opened MeshGraph
  import opened Protocol
  import opened StateStore
  import opened Ether
  import Schema

  function Rank(pc: Pc): nat {
    match pc
    case Screen => 12 case CountTransmit(_) => 11 case Judge(_) => 10 case Dedup(_) => 9
    case CountInvalid(_) => 2 case NotifyReject(_) => 1 case CountDrop(_) => 2 case EmitDrop(_) => 1
    case CountDup => 4 case EmitDup => 3 case ReplyDup => 2 case CountSilentLoss => 1
    case NoteSender(_) => 4 case SendFrame(_) => 3 case CountForward => 2 case EmitForward => 1
    case Persist(_) => 7 case CountDeliver => 6 case EmitDeliver => 5 case EdgeReply => 4
    case TakeSender => 5 case CountStale => 1 case RelayBack(_) => 4
    case CountAckLoss(_) => 2 case EmitAckLoss(_) => 1 case SendAck(_) => 3 case CountAck(_) => 2 case EmitAck(_) => 1
    case Done => 0
  }

  lemma Descends(r: Request, pc: Pc, s: Store, env: Env)
    ensures pc != Done ==> Rank(Perform(r, pc, s, env).pc) < Rank(pc)
  {
    hide Count, Incr, JudgeFrame, Seen, MarkSeen, Forget, Remember, SenderOf, SenderName, FrameEvent, AckEventOf,
         JobKey, Validate, Transmitter, PacketOf, SenderOfJob, TagOf, RowOf;
  }

  // A handler left alone from pc on: what it does to the store and the log.
  function Drain(s: Store, log: seq<Output>, r: Request, pc: Pc, answers: Pc -> Env): (Store, seq<Output>)
    decreases Rank(pc)
  {
    if pc == Done then (s, log)
    else
      var e := Perform(r, pc, s, answers(pc));
      Descends(r, pc, s, answers(pc));
      Drain(e.store, log + e.out, r, e.pc, answers)
  }

  // One operation of it.
  lemma Onward(s: Store, log: seq<Output>, r: Request, pc: Pc, answers: Pc -> Env)
    requires pc != Done
    ensures var e := Perform(r, pc, s, answers(pc));
      Drain(s, log, r, pc, answers) == Drain(e.store, if e.out == [] then log else log + e.out, r, e.pc, answers)
    ensures forall t, l :: Drain(t, l, r, Done, answers) == (t, l)
  {
    var e := Perform(r, pc, s, answers(pc));
    hide Perform;
    assert e.out == [] ==> log + e.out == log;
  }

  // ---- Straight stretches: what a handler left alone ends with ----------------------------------

  lemma RejectStretch(s: Store, log: seq<Output>, r: Request, code: RejectCode, answers: Pc -> Env)
    requires r.Transmit?
    ensures Drain(s, log, r, CountInvalid(code), answers) == (Incr(s, DroppedInvalid), log + [Rejected(r.sender, code)])
  {
    hide Drain, Incr;
    Onward(s, log, r, CountInvalid(code), answers);
    Onward(Incr(s, DroppedInvalid), log, r, NotifyReject(code), answers);
  }

  function DropNotice(p: TransmitPacket, reason: DropReason): Output
    requires |p.routingPath| > 0
  {
    Event(PacketEvent(DropEvent, p.packetId, Transmitter(p), p.targetParent, Some(reason)))
  }

  lemma DropStretch(s: Store, log: seq<Output>, r: Request, reason: DropReason, answers: Pc -> Env)
    requires r.Transmit? && |r.pkt.routingPath| > 0
    ensures Drain(s, log, r, CountDrop(reason), answers)
      == (Incr(s, DropStat(reason)), log + [DropNotice(r.pkt, reason)])
  {
    hide Drain, Incr, DropStat;
    Onward(s, log, r, CountDrop(reason), answers);
    Onward(Incr(s, DropStat(reason)), log, r, EmitDrop(reason), answers);
  }

  function Notice(kind: EventType, p: TransmitPacket): Output
    requires |p.routingPath| > 0
  {
    Event(PacketEvent(kind, p.packetId, Transmitter(p), p.targetParent, None))
  }

  // One duplicate counted and announced, then an ACK again or a loss counted in silence.
  function DuplicateEnd(s: Store, log: seq<Output>, p: TransmitPacket, ackLost: bool): (Store, seq<Output>)
    requires |p.routingPath| > 0
  {
    var s' := Incr(s, DuplicatesFiltered);
    if ackLost then (Incr(s', AcksDropped), log + [Notice(DuplicateEvent, p)] + [SilentLoss(FrameKey(p))])
    else (s', log + [Notice(DuplicateEvent, p)] + [AckSent(Transmitter(p), FrameKey(p), Replayed)])
  }

  lemma DuplicateStretch(s: Store, log: seq<Output>, r: Request, answers: Pc -> Env)
    requires r.Transmit? && |r.pkt.routingPath| > 0
    ensures Drain(s, log, r, CountDup, answers) == DuplicateEnd(s, log, r.pkt, answers(ReplyDup).ackLost)
  {
    hide Drain, Incr;
    var s', log' := Incr(s, DuplicatesFiltered), log + [Notice(DuplicateEvent, r.pkt)];
    Onward(s, log, r, CountDup, answers);
    Onward(s', log, r, EmitDup, answers);
    Onward(s', log', r, ReplyDup, answers);
    if answers(ReplyDup).ackLost { Onward(s', log', r, CountSilentLoss, answers); }
  }

  // The sender is noted unless the store fails; the frame goes out unchanged, is counted, then announced.
  function ForwardEnd(s: Store, log: seq<Output>, r: Request, since: int, fault: bool): (Store, seq<Output>)
    requires r.Transmit? && |r.pkt.routingPath| > 0
  {
    var s1 := if fault then s else Remember(s, FrameKey(r.pkt), Transmitter(r.pkt));
    var log1 := if fault then log else log + [Noted(FrameKey(r.pkt))];
    (Incr(s1, ForwardedToNode),
     log1 + [FrameSent(r.pkt.targetParent, r.pkt, r.tag, since, s.now)] + [Notice(ForwardEvent, r.pkt)])
  }

  lemma ForwardStretch(s: Store, log: seq<Output>, r: Request, since: int, answers: Pc -> Env)
    requires r.Transmit? && |r.pkt.routingPath| > 0
    ensures Drain(s, log, r, NoteSender(since), answers)
      == ForwardEnd(s, log, r, since, answers(NoteSender(since)).storeFault)
  {
    hide Drain, Incr;
    Onward(s, log, r, NoteSender(since), answers);
    var fault := answers(NoteSender(since)).storeFault;
    var s1 := if fault then s else Remember(s, FrameKey(r.pkt), Transmitter(r.pkt));
    var log1 := if fault then log else log + [Noted(FrameKey(r.pkt))];
    assert s1.now == s.now;
    hide Remember;
    SendStretch(s1, log1, r, since, answers);
  }

  lemma SendStretch(s: Store, log: seq<Output>, r: Request, since: int, answers: Pc -> Env)
    requires r.Transmit? && |r.pkt.routingPath| > 0
    ensures Drain(s, log, r, SendFrame(since), answers)
      == (Incr(s, ForwardedToNode),
          log + [FrameSent(r.pkt.targetParent, r.pkt, r.tag, since, s.now)] + [Notice(ForwardEvent, r.pkt)])
  {
    hide Drain, Incr;
    var log1 := log + [FrameSent(r.pkt.targetParent, r.pkt, r.tag, since, s.now)];
    Onward(s, log, r, SendFrame(since), answers);
    Onward(s, log1, r, CountForward, answers);
    Onward(Incr(s, ForwardedToNode), log1, r, EmitForward, answers);
  }

  // A lost ACK is counted and announced; a surviving one is sent, counted and announced: from the receiver to the
  // transmitter it answers.
  function AckEnd(s: Store, log: seq<Output>, r: Request, to: string, lost: bool): (Store, seq<Output>) {
    var packetId, from := JobKey(r).packetId, JobKey(r).receiver;
    if lost then (Incr(s, AcksDropped), log + [Event(PacketEvent(AckDropEvent, packetId, from, to, None))])
    else (Incr(s, AcksRelayed),
          log + [AckSent(to, JobKey(r), if r.Ack? then Relayed else FromEdge)]
          + [Event(PacketEvent(AckEvent, packetId, from, to, None))])
  }

  lemma LostAckStretch(s: Store, log: seq<Output>, r: Request, to: string, answers: Pc -> Env)
    ensures Drain(s, log, r, CountAckLoss(to), answers) == AckEnd(s, log, r, to, true)
  {
    hide Drain, Incr, JobKey;
    Onward(s, log, r, CountAckLoss(to), answers);
    Onward(Incr(s, AcksDropped), log, r, EmitAckLoss(to), answers);
  }

  lemma AckStretch(s: Store, log: seq<Output>, r: Request, to: string, answers: Pc -> Env)
    ensures Drain(s, log, r, SendAck(to), answers) == AckEnd(s, log, r, to, false)
  {
    hide Drain, Incr, JobKey;
    var log1 := log + [AckSent(to, JobKey(r), if r.Ack? then Relayed else FromEdge)];
    Onward(s, log, r, SendAck(to), answers);
    Onward(s, log1, r, CountAck(to), answers);
    Onward(Incr(s, AcksRelayed), log1, r, EmitAck(to), answers);
  }

  // The row is inserted, the delivery counted and announced, and the edge replies.
  function DeliveryEnd(s: Store, log: seq<Output>, r: Request, since: int, env: Env, ackLost: bool): (Store,
      seq<Output>)
    requires r.Transmit? && |r.pkt.routingPath| > 0
  {
    AckEnd(Incr(s, DeliveredToEdge),
           log + [Delivered(FrameKey(r.pkt), RowOf(r.pkt, env), !env.storeFault, r.tag, since, s.now)]
             + [Notice(DeliverEvent, r.pkt)],
           r, Transmitter(r.pkt), ackLost)
  }

  lemma DeliveryStretch(s: Store, log: seq<Output>, r: Request, since: int, answers: Pc -> Env)
    requires r.Transmit? && |r.pkt.routingPath| > 0
    ensures Drain(s, log, r, Persist(since), answers)
      == DeliveryEnd(s, log, r, since, answers(Persist(since)), answers(EdgeReply).ackLost)
  {
    hide Drain, Incr, RowOf, AckEnd;
    var env, to := answers(Persist(since)), Transmitter(r.pkt);
    var log1 := log + [Delivered(FrameKey(r.pkt), RowOf(r.pkt, env), !env.storeFault, r.tag, since, s.now)];
    var s1, log2 := Incr(s, DeliveredToEdge), log1 + [Notice(DeliverEvent, r.pkt)];
    Onward(s, log, r, Persist(since), answers);
    Onward(s, log1, r, CountDeliver, answers);
    Onward(s1, log1, r, EmitDeliver, answers);
    Onward(s1, log2, r, EdgeReply, answers);
    if answers(EdgeReply).ackLost {
      LostAckStretch(s1, log2, r, to, answers);
    } else {
      AckStretch(s1, log2, r, to, answers);
    }
  }

  // ---- A frame that passes screening and the air, from the handler's first line to its last --------

  predicate PassesAir(r: Request, params: SessionParams, edge: bool, answers: Pc -> Env) {
    && r.Transmit? && |r.pkt.routingPath| > 0
    && ScreenFrame(r.sender, r.pkt, answers(Screen)) == CountTransmit(params)
    && JudgeFrame(r.pkt, params, answers(Judge(params))) == Pass(edge) && !answers(Dedup(edge)).storeFault
  }

  function HandledEnd(s: Store, log: seq<Output>, r: Request, edge: bool, answers: Pc -> Env): (Store, seq<Output>)
    requires r.Transmit? && |r.pkt.routingPath| > 0
  {
    var key := FrameKey(r.pkt);
    var s1, log1 := Incr(s, TransmitTotal), log + [Survived(key, Transmitter(r.pkt))];
    if Seen(s, key) then DuplicateEnd(s1, log1, r.pkt, answers(ReplyDup).ackLost)
    else
      var s2, log2 := MarkSeen(s1, key), log1 + [Admitted(key, s.now, r.tag)];
      if edge then DeliveryEnd(s2, log2, r, s.now, answers(Persist(s.now)), answers(EdgeReply).ackLost)
      else ForwardEnd(s2, log2, r, s.now, answers(NoteSender(s.now)).storeFault)
  }

  lemma HandledStretch(s: Store, log: seq<Output>, r: Request, params: SessionParams, edge: bool, answers: Pc -> Env)
    requires PassesAir(r, params, edge, answers)
    ensures Drain(s, log, r, Screen, answers) == HandledEnd(s, log, r, edge, answers)
  {
    hide Drain, ScreenFrame, JudgeFrame, Incr, Seen, MarkSeen, DuplicateEnd, DeliveryEnd, ForwardEnd;
    var key := FrameKey(r.pkt);
    var s1, log1 := Incr(s, TransmitTotal), log + [Survived(key, Transmitter(r.pkt))];
    Onward(s, log, r, Screen, answers);
    Onward(s, log, r, CountTransmit(params), answers);
    Onward(s1, log, r, Judge(params), answers);
    Onward(s1, log1, r, Dedup(edge), answers);
    SameKeys(s, key);
    if Seen(s, key) {
      DuplicateStretch(s1, log1, r, answers);
    } else {
      var s2, log2 := MarkSeen(s1, key), log1 + [Admitted(key, s.now, r.tag)];
      if edge { DeliveryStretch(s2, log2, r, s.now, answers); } else { ForwardStretch(s2, log2, r, s.now, answers); }
    }
  }

  // One the air or a check drops: counted, counted as dropped, announced.
  lemma DroppedStretch(s: Store, log: seq<Output>, r: Request, params: SessionParams, reason: DropReason,
      answers: Pc -> Env)
    requires r.Transmit? && |r.pkt.routingPath| > 0
    requires ScreenFrame(r.sender, r.pkt, answers(Screen)) == CountTransmit(params)
    requires JudgeFrame(r.pkt, params, answers(Judge(params))) == Drop(reason)
    ensures Drain(s, log, r, Screen, answers)
      == (Incr(Incr(s, TransmitTotal), DropStat(reason)), log + [DropNotice(r.pkt, reason)])
  {
    hide Drain, ScreenFrame, JudgeFrame, Incr, DropStat, DropNotice;
    var s1 := Incr(s, TransmitTotal);
    Onward(s, log, r, Screen, answers);
    Onward(s, log, r, CountTransmit(params), answers);
    Onward(s1, log, r, Judge(params), answers);
    DropStretch(s1, log, r, reason, answers);
  }

  lemma SameKeys(s: Store, key: Key)
    ensures var s1 := Incr(s, TransmitTotal); s1.now == s.now && (Seen(s1, key) <==> Seen(s, key))
  {
  }

  // ---- The handlers as the source writes them --------------------------------------------------

  class Handlers {
    const state: StateRepository
    var log: seq<Output>

    constructor (state: StateRepository)
      ensures this.state == state && log == []
    {
      this.state := state;
      log := [];
    }

    ghost function View(): (Store, seq<Output>)
      reads this, state
    {
      (state.View(), log)
    }

    method Reject(r: Request, code: RejectCode, ghost answers: Pc -> Env)
      requires r.Transmit?
      modifies this`log, state
      ensures View() == Drain(old(state.View()), old(log), r, CountInvalid(code), answers)
      ensures state.View() == Incr(old(state.View()), DroppedInvalid) && log == old(log) + [Rejected(r.sender, code)]
    {
      hide Drain;
      RejectStretch(state.View(), log, r, code, answers);
      state.IncrStat(DroppedInvalid);
      log := log + [Rejected(r.sender, code)];
    }

    method DropFrame(r: Request, reason: DropReason, ghost answers: Pc -> Env)
      requires r.Transmit? && |r.pkt.routingPath| > 0
      modifies this`log, state
      ensures View() == Drain(old(state.View()), old(log), r, CountDrop(reason), answers)
      ensures state.View() == Incr(old(state.View()), DropStat(reason)) && log == old(log) + [DropNotice(r.pkt, reason)]
    {
      hide Drain;
      DropStretch(state.View(), log, r, reason, answers);
      state.IncrStat(DropStat(reason));
      log := log + [DropNotice(r.pkt, reason)];
    }

    method HandleDuplicate(r: Request, answers: Pc -> Env)
      requires r.Transmit? && |r.pkt.routingPath| > 0
      modifies this`log, state
      ensures View() == Drain(old(state.View()), old(log), r, CountDup, answers)
      ensures View() == DuplicateEnd(old(state.View()), old(log), r.pkt, answers(ReplyDup).ackLost)
    {
      DuplicateStretch(state.View(), log, r, answers);
      hide Drain, Incr, Remember, MarkSeen, Forget, Notice, FrameKey;
      state.IncrStat(DuplicatesFiltered);
      log := log + [Notice(DuplicateEvent, r.pkt)];
      if answers(ReplyDup).ackLost {
        state.IncrStat(AcksDropped);
        log := log + [SilentLoss(FrameKey(r.pkt))];
        return;
      }
      log := log + [AckSent(Transmitter(r.pkt), FrameKey(r.pkt), Replayed)];
    }

    method ForwardToNode(r: Request, since: int, answers: Pc -> Env)
      requires r.Transmit? && |r.pkt.routingPath| > 0
      modifies this`log, state
      ensures View() == Drain(old(state.View()), old(log), r, NoteSender(since), answers)
      ensures View() == ForwardEnd(old(state.View()), old(log), r, since, answers(NoteSender(since)).storeFault)
    {
      ForwardStretch(state.View(), log, r, since, answers);
      hide Drain, Incr, Notice;
      if !answers(NoteSender(since)).storeFault {
        state.RememberAckSender(r.pkt.packetId, r.pkt.targetParent, Transmitter(r.pkt));
        log := log + [Noted(FrameKey(r.pkt))];
      }
      log := log + [FrameSent(r.pkt.targetParent, r.pkt, r.tag, since, state.now)];
      state.IncrStat(ForwardedToNode);
      log := log + [Notice(ForwardEvent, r.pkt)];
    }

    // The two ends an edge reply and a relayed node:ack share: the ACK dies in the air, or it goes out.
    method AnswerBack(r: Request, to: string, lost: bool, ghost answers: Pc -> Env)
      modifies this`log, state
      ensures View() == Drain(old(state.View()), old(log), r, if lost then CountAckLoss(to) else SendAck(to), answers)
      ensures View() == AckEnd(old(state.View()), old(log), r, to, lost)
    {
      hide Drain, Incr, JobKey;
      if lost {
        LostAckStretch(state.View(), log, r, to, answers);
      } else {
        AckStretch(state.View(), log, r, to, answers);
      }
      if lost {
        state.IncrStat(AcksDropped);
        log := log + [Event(PacketEvent(AckDropEvent, JobKey(r).packetId, JobKey(r).receiver, to, None))];
        return;
      }
      log := log + [AckSent(to, JobKey(r), if r.Ack? then Relayed else FromEdge)];
      state.IncrStat(AcksRelayed);
      log := log + [Event(PacketEvent(AckEvent, JobKey(r).packetId, JobKey(r).receiver, to, None))];
    }

    method DeliverToEdge(r: Request, since: int, answers: Pc -> Env)
      requires r.Transmit? && |r.pkt.routingPath| > 0
      modifies this`log, state
      ensures View() == Drain(old(state.View()), old(log), r, Persist(since), answers)
      ensures View() == DeliveryEnd(old(state.View()), old(log), r, since, answers(Persist(since)),
        answers(EdgeReply).ackLost)
    {
      DeliveryStretch(state.View(), log, r, since, answers);
      hide Drain, Incr, Notice, AckEnd;
      var p, env := r.pkt, answers(Persist(since));
      var content := StoredContent(p.payload, env.schema, env.unpacked);
      var row := TelemetryRow(p.originNode, p.targetParent, p.hopCount, p.routingPath + [p.targetParent], content);
      log := log + [Delivered(FrameKey(p), row, !env.storeFault, r.tag, since, state.now)];
      state.IncrStat(DeliveredToEdge);
      log := log + [Notice(DeliverEvent, p)];
      AnswerBack(r, Transmitter(p), answers(EdgeReply).ackLost, answers);
    }

    // The decoded_payload column, by way of the lenient decoder.
    method StoredContent(payload: Payload, schema: Option<seq<Schema.SchemaField>>, unpacked: Schema.Unpacked)
        returns (content: Content)
      ensures content == ContentOf(payload, schema, unpacked)
    {
      if schema == None { return Raw(payload, []); }
      var decoded, problems := Schema.DecodePayload(unpacked, schema.value);
      content := if decoded == None then Raw(payload, problems) else Fields(decoded.value, problems);
    }

    /** HandleTransmit, uninterrupted, does exactly what its steps in the ether do. */
    method HandleTransmit(sender: string, pkt: TransmitPacket, tag: nat, answers: Pc -> Env)
      modifies this`log, state
      ensures View() == Drain(old(state.View()), old(log), Transmit(sender, pkt, tag), Screen, answers)
    {
      hide Drain, Incr;
      var r := Transmit(sender, pkt, tag);
      Onward(state.View(), log, r, Screen, answers);
      var fault := Validate(pkt);
      if fault != None { Reject(r, InvalidEnvelope(fault.value), answers); return; }
      if Transmitter(pkt) != sender { Reject(r, TransmitterMismatch, answers); return; }
      if !pkt.payload.Bytes? { Reject(r, InvalidBase64, answers); return; }
      if answers(Screen).params == None {
        log := log + [Rejected(sender, SessionUnavailable)];
        return;
      }
      var params := answers(Screen).params.value;
      Onward(state.View(), log, r, CountTransmit(params), answers);
      state.IncrStat(TransmitTotal);
      Admitted(r, params, answers);
    }

    // HandleTransmit from the byte ceiling on.
    method Admitted(r: Request, params: SessionParams, answers: Pc -> Env)
      requires r.Transmit? && |r.pkt.routingPath| > 0
      modifies this`log, state
      ensures View() == Drain(old(state.View()), old(log), r, Judge(params), answers)
    {
      hide Drain;
      var pkt, env := r.pkt, answers(Judge(params));
      Onward(state.View(), log, r, Judge(params), answers);
      if PayloadSize(pkt) > MaxPayloadBytes(params.spreadingFactor) { DropFrame(r, SfLimitExceeded, answers); return; }
      if pkt.hopCount > MAX_HOPS { DropFrame(r, MaxHopsExceeded, answers); return; }
      if env.target.LookupFailed? { log := log + [Aborted]; return; }
      if env.txPos.Missing? { DropFrame(r, TransmitterNoPosition, answers); return; }
      if env.txPos.Broken? { log := log + [Aborted]; return; }
      var isEdge := env.target.EdgeTarget?;
      if !isEdge {
        if !env.online { DropFrame(r, TargetOffline, answers); return; }
        if env.rxPos.Missing? { DropFrame(r, TargetNoPosition, answers); return; }
        if env.rxPos.Broken? { log := log + [Aborted]; return; }
      }
      if env.lost { DropFrame(r, if env.outOfRange then OutOfRange else AirLoss, answers); return; }
      log := log + [Survived(FrameKey(pkt), Transmitter(pkt))];
      Arrived(r, isEdge, answers);
    }

    // HandleTransmit once the frame reached the receiver's radio.
    method Arrived(r: Request, isEdge: bool, answers: Pc -> Env)
      requires r.Transmit? && |r.pkt.routingPath| > 0
      modifies this`log, state
      ensures View() == Drain(old(state.View()), old(log), r, Dedup(isEdge), answers)
    {
      hide Drain, DuplicateEnd, ForwardEnd, DeliveryEnd;
      Onward(state.View(), log, r, Dedup(isEdge), answers);
      if answers(Dedup(isEdge)).storeFault { log := log + [Aborted]; return; }
      var since := state.now;
      var firstTime := state.MarkPacketSeen(r.pkt.packetId, r.pkt.targetParent);
      if !firstTime {
        HandleDuplicate(r, answers);
        return;
      }
      log := log + [Output.Admitted(FrameKey(r.pkt), since, r.tag)];
      if isEdge { DeliverToEdge(r, since, answers); } else { ForwardToNode(r, since, answers); }
    }

    /** HandleAck, uninterrupted, does exactly what its steps in the ether do. */
    method HandleAck(receiver: string, packetId: string, answers: Pc -> Env)
      modifies this`log, state
      ensures View() == Drain(old(state.View()), old(log), Ack(receiver, packetId), Start(Ack(receiver, packetId)),
        answers)
    {
      hide Drain;
      var r := Ack(receiver, packetId);
      Onward(state.View(), log, r, TakeSender, answers);
      if packetId == "" || answers(TakeSender).storeFault { return; }
      var sender := state.TakeAckSender(packetId, receiver);
      if sender == None {
        Onward(state.View(), log, r, CountStale, answers);
        state.IncrStat(AcksStale);
        return;
      }
      log := log + [Taken(Key(packetId, receiver))];
      RelayAck(r, sender.value, answers);
    }

    // HandleAck once the original sender is known.
    method RelayAck(r: Request, to: string, answers: Pc -> Env)
      requires r.Ack?
      modifies this`log, state
      ensures View() == Drain(old(state.View()), old(log), r, RelayBack(to), answers)
    {
      hide Drain, AckEnd;
      var env := answers(RelayBack(to));
      Onward(state.View(), log, r, RelayBack(to), answers);
      if env.params == None { return; }
      if env.rxPos != Found || env.txPos != Found {
        Onward(state.View(), log, r, CountSilentLoss, answers);
        state.IncrStat(AcksDropped);
        log := log + [SilentLoss(JobKey(r))];
        return;
      }
      AnswerBack(r, to, env.ackLost, answers);
    }
  }

  // ---- The uninterrupted handler is one of the interleavings ---------------------------------

  function ApplyAll(e: Engine, steps: seq<Step>): Engine
    decreases |steps|
  {
    if |steps| == 0 then e else ApplyAll(Apply(e, steps[0]), steps[1..])
  }

  function Finish(e: Engine, i: nat, answers: Pc -> Env): seq<Step>
    requires i < |e.jobs|
    decreases Rank(e.jobs[i].pc)
  {
    if e.jobs[i].pc == Done then []
    else
      Descends(e.jobs[i].request, e.jobs[i].pc, e.store, answers(e.jobs[i].pc));
      [Work(i, answers(e.jobs[i].pc))] + Finish(Apply(e, Work(i, answers(e.jobs[i].pc))), i, answers)
  }

  /** Scheduling only job i until it is done produces the store and log of the plain handler. */
  lemma {:induction false} HandlerIsARun(e: Engine, i: nat, answers: Pc -> Env)
    requires i < |e.jobs|
    ensures var e' := ApplyAll(e, Finish(e, i, answers));
      && (e'.store, e'.log) == Drain(e.store, e.log, e.jobs[i].request, e.jobs[i].pc, answers)
      && e'.jobs == e.jobs[i := e.jobs[i].(pc := Done)]
    decreases Rank(e.jobs[i].pc)
  {
    var j := e.jobs[i];
    if j.pc == Done {
      assert e.jobs[i := j.(pc := Done)] == e.jobs;
    } else {
      var step := Work(i, answers(j.pc));
      Descends(j.request, j.pc, e.store, answers(j.pc));
      HandlerIsARun(Apply(e, step), i, answers);
      hide Perform;
      assert Finish(e, i, answers)[1..] == Finish(Apply(e, step), i, answers);
    }
  }

  lemma {:induction false} RunOn(steps: seq<Step>, more: seq<Step>)
    ensures Run(steps + more) == ApplyAll(Run(steps), more)
    decreases |more|
  {
    hide Apply;
    if |more| == 0 {
      assert steps + more == steps;
    } else {
      assert (steps + [more[0]])[..|steps|] == steps;
      assert steps + more == (steps + [more[0]]) + more[1..];
      RunOn(steps + [more[0]], more[1..]);
    }
  }
}
