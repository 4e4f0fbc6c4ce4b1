/** Where the entries of the log come from, in every run: verdicts, drops and announcements. */
module Verdicts {
  import opened MeshGraph
  import opened Protocol
  import opened StateStore
  import opened Ether
  import opened EtherTheorems
  import opened EtherOrder
  import opened Fates
  import opened Sums

  // ---- Judgements ------------------------------------------------------------------------------------

  // Step n is a worker's verdict on request r under the parameters it was accepted with.
  ghost predicate JudgedAt(steps: seq<Step>, n: int, r: Request, params: SessionParams) {
    && 0 <= n < |steps| && steps[n].Work? && steps[n].job < |Run(steps[..n]).jobs|
    && Run(steps[..n]).jobs[steps[n].job] == Job(r, Judge(params))
    && r.Transmit? && Acceptable(r.pkt, r.sender)
  }

  // A verdict of this run let r's frame through.
  ghost predicate ClearedBy(steps: seq<Step>, n: int, r: Request, params: SessionParams) {
    JudgedAt(steps, n, r, params) && Located(r.pkt, params.spreadingFactor, steps[n].env) && !steps[n].env.lost
  }

  ghost predicate ClearedAs(steps: seq<Step>, key: Key, sender: string) {
    exists n, r, params :: ClearedBy(steps, n, r, params) && Carries(r, key, sender)
  }

  predicate Carries(r: Request, key: Key, sender: string) {
    r.Transmit? && key == Key(r.pkt.packetId, r.pkt.targetParent) && sender == r.sender
  }

  // A verdict of this run dropped r's frame for the reason.
  ghost predicate CondemnedBy(steps: seq<Step>, n: int, r: Request, params: SessionParams, reason: DropReason) {
    JudgedAt(steps, n, r, params) && DroppedFor(reason, r.pkt, params.spreadingFactor, steps[n].env)
  }

  ghost predicate Condemned(steps: seq<Step>, r: Request, reason: DropReason) {
    exists n, params :: CondemnedBy(steps, n, r, params, reason)
  }

  ghost predicate CondemnedAs(steps: seq<Step>, ev: PacketEvent) {
    exists r, reason :: Condemned(steps, r, reason) && Reports(ev, r, reason)
  }

  predicate Reports(ev: PacketEvent, r: Request, reason: DropReason) {
    r.Transmit? && ev.reason == Some(reason) && ev.packetId == r.pkt.packetId && ev.from == r.sender
      && ev.to == r.pkt.targetParent
  }

  lemma JudgedStays(steps: seq<Step>, step: Step, n: int, r: Request, params: SessionParams)
    requires JudgedAt(steps, n, r, params)
    ensures JudgedAt(steps + [step], n, r, params)
  {
    hide Run, Acceptable;
    assert (steps + [step])[..n] == steps[..n];
  }

  lemma ClearedStays(steps: seq<Step>, step: Step, key: Key, sender: string)
    requires ClearedAs(steps, key, sender)
    ensures ClearedAs(steps + [step], key, sender)
  {
    hide JudgedAt, Located;
    var n, r, params :| ClearedBy(steps, n, r, params) && Carries(r, key, sender);
    JudgedStays(steps, step, n, r, params);
    InBounds(steps, n, r, params);
    assert (steps + [step])[n] == steps[n];
    assert ClearedBy(steps + [step], n, r, params);
  }

  lemma InBounds(steps: seq<Step>, n: int, r: Request, params: SessionParams)
    requires JudgedAt(steps, n, r, params)
    ensures 0 <= n < |steps| && steps[n].Work? && r.Transmit? && r.pkt.payload.Bytes?
  {
    hide Run;
  }

  lemma CondemnedStays(steps: seq<Step>, step: Step, r: Request, reason: DropReason)
    requires Condemned(steps, r, reason)
    ensures Condemned(steps + [step], r, reason)
  {
    hide JudgedAt, DroppedFor;
    var n, params :| CondemnedBy(steps, n, r, params, reason);
    JudgedStays(steps, step, n, r, params);
    InBounds(steps, n, r, params);
    assert (steps + [step])[n] == steps[n];
    assert CondemnedBy(steps + [step], n, r, params, reason);
  }

  // ---- Invariant ---------------------------------------------------------------------------------------

  // Counted and not judged yet.
  predicate Accepting(j: Job) { j.request.Transmit? && (j.pc.CountTransmit? || j.pc.Judge?) }

  predicate Condemning(pc: Pc, reason: DropReason) { pc == CountDrop(reason) || pc == EmitDrop(reason) }

  ghost predicate Traced(steps: seq<Step>, e: Engine) {
    && (forall i :: 0 <= i < |e.log| && e.log[i].Survived? ==> ClearedAs(steps, e.log[i].key, e.log[i].sender))
    && (forall i :: 0 <= i < |e.log| && e.log[i].Event? && e.log[i].ev.kind.DropEvent? ==>
      CondemnedAs(steps, e.log[i].ev))
    && (forall j :: j in e.jobs && Accepting(j) ==> Acceptable(j.request.pkt, j.request.sender))
    && (forall j, reason :: j in e.jobs && Condemning(j.pc, reason) ==> Condemned(steps, j.request, reason))
  }

  // What one operation may add, in the terms of the envelope, the parameters and the answers.
  lemma StepVerdict(r: Request, pc: Pc, s: Store, env: Env)
    requires OwnPc(Job(r, pc)) && (Accepting(Job(r, pc)) ==> Acceptable(r.pkt, r.sender))
    ensures var e := Perform(r, pc, s, env);
      && (Accepting(Job(r, e.pc)) ==> Acceptable(r.pkt, r.sender))
      && (e.out != [] && e.out[0].Survived? ==>
            && pc.Judge? && r.Transmit? && Acceptable(r.pkt, r.sender)
            && Located(r.pkt, pc.params.spreadingFactor, env) && !env.lost
            && e.out[0].key == Key(r.pkt.packetId, r.pkt.targetParent) && e.out[0].sender == r.sender)
      && (forall reason :: Condemning(e.pc, reason) ==>
            Condemning(pc, reason) || (pc.Judge? && r.Transmit? && Acceptable(r.pkt, r.sender)
                                       && DroppedFor(reason, r.pkt, pc.params.spreadingFactor, env)))
  {
    hide Perform;
    if pc.Screen? { ScreenStep(r, s, env); }
    else if pc.Judge? { JudgeStep(r, pc.params, s, env); }
    else { OtherSteps(r, pc, s, env); }
  }

  lemma ScreenStep(r: Request, s: Store, env: Env)
    requires r.Transmit?
    ensures var e := Perform(r, Screen, s, env);
      && (Accepting(Job(r, e.pc)) ==> Acceptable(r.pkt, r.sender)) && (e.out != [] ==> !e.out[0].Survived?)
      && forall reason :: !Condemning(e.pc, reason)
  {
    hide Validate, Named;
    FaultOrClean(r.pkt);
    CleanPath(r.pkt);
  }

  lemma JudgeStep(r: Request, params: SessionParams, s: Store, env: Env)
    requires r.Transmit? && Acceptable(r.pkt, r.sender)
    ensures var e := Perform(r, Judge(params), s, env);
      && !Accepting(Job(r, e.pc))
      && (e.out != [] && e.out[0].Survived? ==>
            && Located(r.pkt, params.spreadingFactor, env) && !env.lost
            && e.out[0].key == Key(r.pkt.packetId, r.pkt.targetParent) && e.out[0].sender == r.sender)
      && forall reason :: Condemning(e.pc, reason) ==> DroppedFor(reason, r.pkt, params.spreadingFactor, env)
  {
    hide JudgeFrame, DroppedFor, Located, Acceptable;
    BytesOf(r.pkt, r.sender);
    VerdictIs(r.pkt, params, env);
  }

  lemma OtherSteps(r: Request, pc: Pc, s: Store, env: Env)
    requires !pc.Screen? && !pc.Judge?
    ensures var e := Perform(r, pc, s, env);
      && (Accepting(Job(r, e.pc)) ==> Accepting(Job(r, pc))) && (e.out != [] ==> !e.out[0].Survived?)
      && forall reason :: Condemning(e.pc, reason) ==> Condemning(pc, reason)
  {
    hide Count, Incr, Seen, MarkSeen, Forget, Remember, SenderOf, SenderName, JobKey, RowOf, PacketOf, SenderOfJob,
         TagOf;
  }

  lemma StepAnnounces(r: Request, pc: Pc, s: Store, env: Env)
    requires OwnPc(Job(r, pc))
    ensures var out := Perform(r, pc, s, env).out;
      out != [] && out[0].Event? && out[0].ev.kind.DropEvent? ==>
        && pc.EmitDrop? && r.Transmit? && out[0].ev.reason == Some(pc.reason) && out[0].ev.packetId == r.pkt.packetId
        && out[0].ev.from == SenderName(r) && out[0].ev.to == r.pkt.targetParent
  {
    hide Count, Incr, Seen, MarkSeen, Forget, Remember, SenderOf, SenderName, JobKey, RowOf, SenderOfJob, TagOf,
         ScreenFrame, JudgeFrame;
  }

  lemma WorkTraced(steps: seq<Step>, i: nat, env: Env)
    requires Traced(steps, Run(steps)) && i < |Run(steps).jobs|
    ensures Traced(steps + [Work(i, env)], Apply(Run(steps), Work(i, env)))
  {
    hide Run, Perform, OwnPc, ClearedAs, Condemned, CondemnedAs, JudgedAt, Acceptable, Located, DroppedFor, Condemning;
    var e, step := Run(steps), Work(i, env);
    var j, next := e.jobs[i], steps + [step];
    var x := Perform(j.request, j.pc, e.store, env);
    JobsOwnTheirPc(steps);
    assert j in e.jobs && j == Job(j.request, j.pc);
    StepVerdict(j.request, j.pc, e.store, env);
    StepAnnounces(j.request, j.pc, e.store, env);
    forall key, sender | ClearedAs(steps, key, sender)
      ensures ClearedAs(next, key, sender)
    {
      ClearedStays(steps, step, key, sender);
    }
    forall r, reason | Condemned(steps, r, reason) ensures Condemned(next, r, reason) {
      CondemnedStays(steps, step, r, reason);
    }
    forall ev | CondemnedAs(steps, ev) ensures CondemnedAs(next, ev) { CondemnedAsStays(steps, step, ev); }
    if x.out != [] && x.out[0].Survived? { NowCleared(steps, i, env, j.request, j.pc.params); }
    forall reason | Condemning(x.pc, reason) ensures Condemned(next, j.request, reason) {
      if !Condemning(j.pc, reason) { NowCondemned(steps, i, env, j.request, j.pc.params, reason); }
    }
    if x.out != [] && x.out[0].Event? && x.out[0].ev.kind.DropEvent? {
      EmitsCondemned(j);
      NowAnnounced(next, j.request, j.pc.reason, x.out[0].ev);
    }
    TracedSplit(steps, next, e, Apply(e, step), j, x.pc, x.out);
  }

  lemma EmitsCondemned(j: Job)
    requires j.pc.EmitDrop?
    ensures Condemning(j.pc, j.pc.reason)
  {
  }

  lemma CondemnedAsStays(steps: seq<Step>, step: Step, ev: PacketEvent)
    requires CondemnedAs(steps, ev)
    ensures CondemnedAs(steps + [step], ev)
  {
    hide Condemned;
    var r, reason :| Condemned(steps, r, reason) && Reports(ev, r, reason);
    CondemnedStays(steps, step, r, reason);
  }

  lemma JudgedNow(steps: seq<Step>, i: nat, env: Env, r: Request, params: SessionParams)
    requires i < |Run(steps).jobs| && Run(steps).jobs[i] == Job(r, Judge(params)) && r.Transmit?
      && Acceptable(r.pkt, r.sender)
    ensures JudgedAt(steps + [Work(i, env)], |steps|, r, params)
  {
    hide Run, Acceptable;
    assert (steps + [Work(i, env)])[..|steps|] == steps;
  }

  lemma NowCleared(steps: seq<Step>, i: nat, env: Env, r: Request, params: SessionParams)
    requires i < |Run(steps).jobs| && Run(steps).jobs[i] == Job(r, Judge(params)) && r.Transmit?
      && Acceptable(r.pkt, r.sender)
    requires Located(r.pkt, params.spreadingFactor, env) && !env.lost
    ensures ClearedAs(steps + [Work(i, env)], Key(r.pkt.packetId, r.pkt.targetParent), r.sender)
  {
    hide Run, Acceptable, Located, JudgedAt;
    JudgedNow(steps, i, env, r, params);
    assert ClearedBy(steps + [Work(i, env)], |steps|, r, params);
    assert Carries(r, Key(r.pkt.packetId, r.pkt.targetParent), r.sender);
  }

  lemma NowCondemned(steps: seq<Step>, i: nat, env: Env, r: Request, params: SessionParams, reason: DropReason)
    requires i < |Run(steps).jobs| && Run(steps).jobs[i] == Job(r, Judge(params)) && r.Transmit?
      && Acceptable(r.pkt, r.sender)
    requires DroppedFor(reason, r.pkt, params.spreadingFactor, env)
    ensures Condemned(steps + [Work(i, env)], r, reason)
  {
    hide Run, Acceptable, DroppedFor, JudgedAt;
    JudgedNow(steps, i, env, r, params);
    assert CondemnedBy(steps + [Work(i, env)], |steps|, r, params, reason);
  }

  lemma NowAnnounced(steps: seq<Step>, r: Request, reason: DropReason, ev: PacketEvent)
    requires Condemned(steps, r, reason) && ev.reason == Some(reason) && r.Transmit?
    requires ev.packetId == r.pkt.packetId && ev.from == SenderName(r) && ev.to == r.pkt.targetParent
    ensures CondemnedAs(steps, ev)
  {
    hide Run, JudgedAt, DroppedFor;
    var n, params :| CondemnedBy(steps, n, r, params, reason);
    JudgedSender(steps, n, r, params);
    assert Condemned(steps, r, reason) && Reports(ev, r, reason);
  }

  lemma JudgedSender(steps: seq<Step>, n: int, r: Request, params: SessionParams)
    requires JudgedAt(steps, n, r, params)
    ensures SenderName(r) == r.sender
  {
    hide Run;
  }

  lemma TracedSplit(steps: seq<Step>, next: seq<Step>, e: Engine, e': Engine, j: Job, pc: Pc, out: seq<Output>)
    requires Traced(steps, e) && j in e.jobs && |out| <= 1 && e'.log == e.log + out
    requires forall k :: k in e'.jobs ==> k in e.jobs || k == j.(pc := pc)
    requires forall key, sender :: ClearedAs(steps, key, sender) ==> ClearedAs(next, key, sender)
    requires forall r, reason :: Condemned(steps, r, reason) ==> Condemned(next, r, reason)
    requires forall ev :: CondemnedAs(steps, ev) ==> CondemnedAs(next, ev)
    requires out != [] && out[0].Survived? ==> ClearedAs(next, out[0].key, out[0].sender)
    requires out != [] && out[0].Event? && out[0].ev.kind.DropEvent? ==> CondemnedAs(next, out[0].ev)
    requires Accepting(j.(pc := pc)) ==> Acceptable(j.request.pkt, j.request.sender)
    requires forall reason :: Condemning(pc, reason) ==> Condemned(next, j.request, reason)
    ensures Traced(next, e')
  {
    hide ClearedAs, Condemned, CondemnedAs, Acceptable, Condemning;
  }

  lemma QuietTraced(steps: seq<Step>, step: Step)
    requires Traced(steps, Run(steps)) && (step.Tick? || step.Submit? || (step.Work? && step.job >= |Run(steps).jobs|))
    ensures Traced(steps + [step], Apply(Run(steps), step))
  {
    hide Run, ClearedAs, Condemned, CondemnedAs, Acceptable;
    var next := steps + [step];
    forall key, sender | ClearedAs(steps, key, sender)
      ensures ClearedAs(next, key, sender)
    {
      ClearedStays(steps, step, key, sender);
    }
    forall r, reason | Condemned(steps, r, reason) ensures Condemned(next, r, reason) {
      CondemnedStays(steps, step, r, reason);
    }
    forall ev | CondemnedAs(steps, ev) ensures CondemnedAs(next, ev) { CondemnedAsStays(steps, step, ev); }
  }

  lemma {:induction false} AlwaysTraced(steps: seq<Step>)
    ensures Traced(steps, Run(steps))
  {
    hide Traced, Apply;
    if |steps| == 0 {
      NothingTraced();
    } else {
      var before, step := steps[..|steps| - 1], steps[|steps| - 1];
      assert before + [step] == steps;
      AlwaysTraced(before);
      if step.Work? && step.job < |Run(before).jobs| { WorkTraced(before, step.job, step.env); }
      else { QuietTraced(before, step); }
    }
  }

  lemma NothingTraced()
    ensures Traced([], INIT)
  {
    hide ClearedAs, CondemnedAs, Condemned;
  }

  /** Every frame that survived the air was accepted with a clean envelope from its last path entry and judged with a
      payload within the ceiling of its spreading factor, at most five hops, a transmitter position, and an edge, or an
      online ship with a position, as its target. */
  lemma SurvivorsCleared(steps: seq<Step>, i: nat) returns (n: int, r: Request, params: SessionParams)
    requires i < |Run(steps).log| && Run(steps).log[i].Survived?
    ensures JudgedAt(steps, n, r, params)
    ensures var o, p, env := Run(steps).log[i], r.pkt, steps[n].env;
      && o.key == Key(p.packetId, p.targetParent) && |p.routingPath| > 0
        && o.sender == r.sender == p.routingPath[|p.routingPath| - 1]
      && p.payload.Bytes? && Fits(|p.payload.data|, params.spreadingFactor) && 1 <= p.hopCount <= 5
      && env.txPos == Found && !env.lost
      && (env.target == EdgeTarget || (env.target == ShipTarget && env.online && env.rxPos == Found))
  {
    hide Run, Condemned, CondemnedAs, JudgedAt;
    AlwaysTraced(steps);
    var o := Run(steps).log[i];
    var m, q, sf :| ClearedBy(steps, m, q, sf) && Carries(q, o.key, o.sender);
    n, r, params := m, q, sf;
    JudgedFacts(steps, n, r, params);
  }

  lemma JudgedFacts(steps: seq<Step>, n: int, r: Request, params: SessionParams)
    requires JudgedAt(steps, n, r, params)
    ensures 0 <= n < |steps| && steps[n].Work? && r.Transmit? && r.pkt.payload.Bytes? && r.pkt.hopCount >= 1
    ensures |r.pkt.routingPath| > 0 && r.sender == r.pkt.routingPath[|r.pkt.routingPath| - 1]
  {
    hide Run;
  }

  /** Every drop event names the packet, sender and target of a frame that was judged, and a reason that held of it
      then. */
  lemma DropsExplained(steps: seq<Step>, i: nat) returns (n: int, r: Request, params: SessionParams, reason: DropReason)
    requires i < |Run(steps).log| && Run(steps).log[i].Event? && Run(steps).log[i].ev.kind.DropEvent?
    ensures JudgedAt(steps, n, r, params) && r.pkt.payload.Bytes?
    ensures DroppedFor(reason, r.pkt, params.spreadingFactor, steps[n].env)
    ensures Run(steps).log[i].ev == PacketEvent(DropEvent, r.pkt.packetId, r.sender, r.pkt.targetParent, Some(reason))
  {
    hide Run, ClearedAs, JudgedAt, DroppedFor;
    AlwaysTraced(steps);
    var ev := Run(steps).log[i].ev;
    r, reason :| Condemned(steps, r, reason) && Reports(ev, r, reason);
    var m, sf :| CondemnedBy(steps, m, r, sf, reason);
    n, params := m, sf;
    JudgedFacts(steps, n, r, params);
  }

  // ---- Announcements of what survived ---------------------------------------------------------------------

  // The surviving frame an event speaks of: from its sender, or back to it.
  function Spoken(ev: PacketEvent): Option<Output> {
    match ev.kind
    case DuplicateEvent => Some(Survived(Key(ev.packetId, ev.to), ev.from))
    case ForwardEvent => Some(Survived(Key(ev.packetId, ev.to), ev.from))
    case DeliverEvent => Some(Survived(Key(ev.packetId, ev.to), ev.from))
    case AckEvent => Some(Survived(Key(ev.packetId, ev.from), ev.to))
    case AckDropEvent => Some(Survived(Key(ev.packetId, ev.from), ev.to))
    case _ => None
  }

  // The one a handler past its verdict relies on.
  function Stake(j: Job): Option<Output> {
    var own := Some(Survived(JobKey(j.request), SenderName(j.request)));
    match j.pc
    case Dedup(_) => own case CountDup => own case EmitDup => own case ReplyDup => own
    case NoteSender(_) => own case SendFrame(_) => own case CountForward => own case EmitForward => own
    case Persist(_) => own case CountDeliver => own case EmitDeliver => own case EdgeReply => own
    case RelayBack(to) => Some(Survived(JobKey(j.request), to))
    case SendAck(to) => Some(Survived(JobKey(j.request), to))
    case CountAck(to) => Some(Survived(JobKey(j.request), to))
    case EmitAck(to) => Some(Survived(JobKey(j.request), to))
    case CountAckLoss(to) => Some(Survived(JobKey(j.request), to))
    case EmitAckLoss(to) => Some(Survived(JobKey(j.request), to))
    case _ => None
  }

  ghost predicate Backed(e: Engine) {
    && (forall i :: 0 <= i < |e.log| && e.log[i].Event? ==> Grounded(e.log[..i], Spoken(e.log[i].ev)))
    && (forall k :: k in e.store.ackSender ==> Survived(k, e.store.ackSender[k].sender) in e.log)
    && (forall i :: 0 <= i < |e.jobs| ==> Grounded(e.log, Stake(e.jobs[i])))
  }

  lemma StepStakes(r: Request, pc: Pc, s: Store, env: Env, log: seq<Output>)
    requires OwnPc(Job(r, pc)) && Grounded(log, Stake(Job(r, pc)))
    requires forall k :: k in s.ackSender ==> Survived(k, s.ackSender[k].sender) in log
    ensures var e := Perform(r, pc, s, env); Grounded(log + e.out, Stake(Job(r, e.pc)))
  {
    hide Count, Incr, Seen, MarkSeen, Forget, Remember, JudgeFrame, JobKey, SenderName, FrameEvent, AckEventOf,
         PacketOf, SenderOfJob, TagOf, Validate, RowOf;
  }

  lemma StepSpeaks(r: Request, pc: Pc, s: Store, env: Env)
    requires OwnPc(Job(r, pc))
    ensures var out := Perform(r, pc, s, env).out;
      out != [] && out[0].Event? ==> Spoken(out[0].ev) == None || Spoken(out[0].ev) == Stake(Job(r, pc))
  {
    hide Count, Incr, Seen, MarkSeen, Forget, Remember, SenderOf, JudgeFrame, SenderName, SenderOfJob, TagOf, Validate,
         ScreenFrame, RowOf;
  }

  lemma StepLeasesBacked(r: Request, pc: Pc, s: Store, env: Env, log: seq<Output>)
    requires Grounded(log, Stake(Job(r, pc)))
    requires forall k :: k in s.ackSender ==> Survived(k, s.ackSender[k].sender) in log
    ensures var t := Perform(r, pc, s, env).store;
      forall k :: k in t.ackSender ==> Survived(k, t.ackSender[k].sender) in log
  {
    hide Perform, JobKey, SenderName;
    if pc.NoteSender? { NoteLease(r, pc.since, s, env); }
    else if pc.TakeSender? { TakeLease(r, s, env); }
    else { OtherLeases(r, pc, s, env); }
  }

  lemma WorkBacked(steps: seq<Step>, i: nat, env: Env)
    requires Backed(Run(steps)) && i < |Run(steps).jobs|
    ensures Backed(Apply(Run(steps), Work(i, env)))
  {
    hide Run, Perform, OwnPc, Stake, Spoken;
    var e := Run(steps);
    var j := e.jobs[i];
    JobsOwnTheirPc(steps);
    assert j in e.jobs && j == Job(j.request, j.pc);
    StepStakes(j.request, j.pc, e.store, env, e.log);
    StepSpeaks(j.request, j.pc, e.store, env);
    StepLeasesBacked(j.request, j.pc, e.store, env, e.log);
    var out := Perform(j.request, j.pc, e.store, env).out;
    forall n | 0 <= n < |e.log + out| && (e.log + out)[n].Event?
      ensures Grounded((e.log + out)[..n], Spoken((e.log + out)[n].ev))
    {
      if n < |e.log| { assert (e.log + out)[..n] == e.log[..n]; } else { assert (e.log + out)[..n] == e.log; }
    }
  }

  lemma SubmitBacked(e: Engine, r: Request)
    requires Backed(e)
    ensures Backed(Apply(e, Submit(r)))
  {
    hide Spoken;
    assert Stake(Job(r, Start(r))) == None;
    hide Stake;
  }

  lemma {:induction false} AlwaysBacked(steps: seq<Step>)
    ensures Backed(Run(steps))
  {
    if |steps| > 0 {
      hide Backed, Perform;
      var e, step := Run(steps[..|steps| - 1]), steps[|steps| - 1];
      AlwaysBacked(steps[..|steps| - 1]);
      match step
      case Tick(ms) => TickBacked(e, ms);
      case Submit(r) => SubmitBacked(e, r);
      case Work(i, env) => if i < |e.jobs| { WorkBacked(steps[..|steps| - 1], i, env); }
    }
  }

  lemma TickBacked(e: Engine, ms: nat)
    requires Backed(e)
    ensures Backed(Apply(e, Tick(ms)))
  {
  }

  /** Every event but a drop speaks of an earlier surviving frame: a duplicate, forward or delivery goes from its sender
      to its receiver, and an ack or ack_drop from that receiver back to that sender. */
  lemma EventsNameTheFrame(steps: seq<Step>, i: nat)
    requires i < |Run(steps).log| && Run(steps).log[i].Event?
    ensures var log, ev := Run(steps).log, Run(steps).log[i].ev;
      && (ev.kind in {DuplicateEvent, ForwardEvent, DeliverEvent} ==>
        Survived(Key(ev.packetId, ev.to), ev.from) in log[..i])
      && (ev.kind in {AckEvent, AckDropEvent} ==> Survived(Key(ev.packetId, ev.from), ev.to) in log[..i])
  {
    hide Run;
    AlwaysBacked(steps);
    var ev := Run(steps).log[i].ev;
    assert Grounded(Run(steps).log[..i], Spoken(ev));
  }

  // ---- An ack event for each ACK that is no replay -----------------------------------------------------------

  predicate IsAck(o: Output, k: Key, to: string) { o.AckSent? && o.kind != Replayed && o.key == k && o.to == to }
  predicate IsAckEvent(o: Output, k: Key, to: string) {
    o.Event? && o.ev.kind.AckEvent? && o.ev.packetId == k.packetId && o.ev.from == k.receiver && o.ev.to == to
  }

  function Acks(k: Key, to: string): Output -> int { (o: Output) => if IsAck(o, k, to) then 1 else 0 }
  function AckEvents(k: Key, to: string): Output -> int { (o: Output) => if IsAckEvent(o, k, to) then 1 else 0 }
  function Unspoken(k: Key, to: string): Output -> int {
    (o: Output) => (if IsAck(o, k, to) then 1 else 0) - (if IsAckEvent(o, k, to) then 1 else 0)
  }
  function Overspoken(k: Key, to: string): Output -> int {
    (o: Output) => (if IsAckEvent(o, k, to) then 1 else 0) - (if IsAck(o, k, to) then 1 else 0)
  }
  predicate Speaking(j: Job, k: Key, to: string) {
    JobKey(j.request) == k && (j.pc == CountAck(to) || j.pc == EmitAck(to))
  }
  function Speaks(k: Key, to: string): Job -> int { (j: Job) => if Speaking(j, k, to) then 1 else 0 }
  function Owed(k: Key, to: string): Job -> int { (j: Job) => if Speaking(j, k, to) then -1 else 0 }

  lemma StepAcks(r: Request, pc: Pc, s: Store, env: Env, k: Key, to: string)
    ensures Delta(r, pc, s, env, Unused(), Unspoken(k, to), Owed(k, to)) == 0
    ensures Delta(r, pc, s, env, Unused(), Overspoken(k, to), Speaks(k, to)) == 0
  {
    hide Perform, JobKey;
    AckOutputs(r, pc, s, env);
  }

  lemma AckOutputs(r: Request, pc: Pc, s: Store, env: Env)
    ensures var e := Perform(r, pc, s, env);
      && (pc.SendAck? ==>
        e.pc == CountAck(pc.to) && e.out == [AckSent(pc.to, JobKey(r), if r.Ack? then Relayed else FromEdge)])
      && (pc.CountAck? ==> e.pc == EmitAck(pc.to) && e.out == [])
      && (pc.EmitAck? ==>
            && e.pc == Done
            && e.out == [Event(PacketEvent(AckEvent, JobKey(r).packetId, JobKey(r).receiver, pc.to, None))])
      && (!pc.SendAck? && !pc.CountAck? && !pc.EmitAck? ==>
            && !e.pc.CountAck? && !e.pc.EmitAck?
            && (e.out != [] && e.out[0].AckSent? ==> e.out[0].kind == Replayed)
            && (e.out != [] && e.out[0].Event? ==> !e.out[0].ev.kind.AckEvent?))
  {
    hide Count, Incr, Seen, MarkSeen, Forget, Remember, SenderOf, JudgeFrame, SenderName, JobKey, SenderOfJob, TagOf,
         Validate, RowOf, PacketOf;
  }

  /** For each packet, receiver and sender: the ack events from that receiver to that sender are exactly the ACKs sent
      there, replays aside, less those a handler is about to announce. */
  lemma AckEventsMatch(steps: seq<Step>, k: Key, to: string)
    ensures Total(Run(steps).log, Acks(k, to)) == Total(Run(steps).log, AckEvents(k, to))
      + Total(Run(steps).jobs, Speaks(k, to))
  {
    hide Delta, Run, OwnPc, Speaking, IsAck, IsAckEvent;
    forall r, pc, s, env
      ensures Delta(r, pc, s, env, Unused(), Unspoken(k, to), Owed(k, to)) >= 0
      ensures Delta(r, pc, s, env, Unused(), Overspoken(k, to), Speaks(k, to)) >= 0
    {
      StepAcks(r, pc, s, env, k, to);
    }
    forall r
      ensures Speaks(k, to)(Job(r, Start(r))) == 0 && Owed(k, to)(Job(r, Start(r))) == 0
    {
      NotSpeaking(r, k, to);
    }
    var e := Run(steps);
    NeverDecreases(steps, Unused(), Unspoken(k, to), Owed(k, to));
    NeverDecreases(steps, Unused(), Overspoken(k, to), Speaks(k, to));
    Negation(e.jobs, Owed(k, to), Speaks(k, to));
    Split(e.log, Unspoken(k, to), Acks(k, to), AckEvents(k, to));
    Split(e.log, Overspoken(k, to), AckEvents(k, to), Acks(k, to));
  }

  lemma NotSpeaking(r: Request, k: Key, to: string)
    ensures !Speaking(Job(r, Start(r)), k, to)
  {
  }
}
