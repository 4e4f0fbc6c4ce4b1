/** Whole-run properties of the Virtual Ether, for every interleaving of workers and every outside answer. */
module EtherTheorems {
  import opened Protocol
  import opened StateStore
  import opened Ether
  import opened Sums

  // A quantity split over the store, the emitted log and the jobs still in progress.
  ghost function Quantity(e: Engine, p: Store -> int, g: Output -> int, f: Job -> int): int {
    p(e.store) + Total(e.log, g) + Total(e.jobs, f)
  }

  ghost function Delta(r: Request, pc: Pc, s: Store, env: Env, p: Store -> int, g: Output -> int, f: Job -> int): int {
    var e := Perform(r, pc, s, env);
    p(e.store) - p(s) + (if e.out == [] then 0 else g(e.out[0])) + f(Job(r, e.pc)) - f(Job(r, pc))
  }

  lemma {:induction false} JobsOwnTheirPc(steps: seq<Step>)
    ensures forall j :: j in Run(steps).jobs ==> OwnPc(j)
  {
    if |steps| > 0 {
      JobsOwnTheirPc(steps[..|steps| - 1]);
      var e := Run(steps[..|steps| - 1]);
      if steps[|steps| - 1].Work? && steps[|steps| - 1].job < |e.jobs| {
        var j := e.jobs[steps[|steps| - 1].job];
        StepOwns(j.request, j.pc, e.store, steps[|steps| - 1].env);
      }
      hide Perform, OwnPc;
    }
  }

  lemma StepOwns(r: Request, pc: Pc, s: Store, env: Env)
    requires OwnPc(Job(r, pc))
    ensures OwnPc(Job(r, Perform(r, pc, s, env).pc))
  {
    hide Count, Incr, JudgeFrame, Seen, MarkSeen, Forget, Remember, SenderOf, SenderName, FrameEvent, AckEventOf,
         JobKey;
  }

  // A quantity no single operation decreases never decreases along a run.
  lemma {:induction false} NeverDecreases(steps: seq<Step>, p: Store -> int, g: Output -> int, f: Job -> int)
    requires forall r, pc, s, env :: OwnPc(Job(r, pc)) ==> Delta(r, pc, s, env, p, g, f) >= 0
    requires forall s: Store, t :: p(s.(now := t)) == p(s)
    requires p(EMPTY) >= 0 && forall r :: f(Job(r, Start(r))) >= 0
    ensures Quantity(Run(steps), p, g, f) >= 0
  {
    hide Perform, Delta, Quantity, OwnPc, Apply, Start, EMPTY;
    if |steps| == 0 {
      NothingYet(p, g, f);
    } else {
      var e := Run(steps[..|steps| - 1]);
      NeverDecreases(steps[..|steps| - 1], p, g, f);
      match steps[|steps| - 1]
      case Tick(ms) => TickKeeps(e, ms, p, g, f);
      case Submit(r) => SubmitKeeps(e, r, p, g, f);
      case Work(i, env) =>
        if i < |e.jobs| {
          JobsOwnTheirPc(steps[..|steps| - 1]);
          assert e.jobs[i] in e.jobs && e.jobs[i] == Job(e.jobs[i].request, e.jobs[i].pc);
          WorkKeeps(e, i, env, p, g, f);
        } else {
          NoWork(e, i, env);
        }
    }
  }

  lemma NothingYet(p: Store -> int, g: Output -> int, f: Job -> int)
    requires p(EMPTY) >= 0
    ensures Quantity(INIT, p, g, f) >= 0
  {
  }

  lemma TickKeeps(e: Engine, ms: nat, p: Store -> int, g: Output -> int, f: Job -> int)
    requires forall s: Store, t :: p(s.(now := t)) == p(s)
    ensures Quantity(Apply(e, Tick(ms)), p, g, f) == Quantity(e, p, g, f)
  {
  }

  lemma SubmitKeeps(e: Engine, r: Request, p: Store -> int, g: Output -> int, f: Job -> int)
    requires f(Job(r, Start(r))) >= 0
    ensures Quantity(Apply(e, Submit(r)), p, g, f) >= Quantity(e, p, g, f)
  {
    Append(e.jobs, Job(r, Start(r)), f);
  }

  lemma WorkKeeps(e: Engine, i: nat, env: Env, p: Store -> int, g: Output -> int, f: Job -> int)
    requires i < |e.jobs| && Delta(e.jobs[i].request, e.jobs[i].pc, e.store, env, p, g, f) >= 0
    ensures Quantity(Apply(e, Work(i, env)), p, g, f) >= Quantity(e, p, g, f)
  {
    hide Perform;
    var j := e.jobs[i];
    var x := Perform(j.request, j.pc, e.store, env);
    Update(e.jobs, i, Job(j.request, x.pc), f);
    if x.out == [] { assert e.log + x.out == e.log; } else { assert x.out == [x.out[0]]; Append(e.log, x.out[0], g); }
  }

  lemma NoWork(e: Engine, i: nat, env: Env)
    requires i >= |e.jobs|
    ensures Apply(e, Work(i, env)) == e
  {
  }

  // ---- Conservation of counted frames ----------------------------------------------------

  function Dropped(s: Store): int {
    Count(s, DroppedSFLimit) + Count(s, DroppedMaxHops) + Count(s, DroppedAirLoss)
    + Count(s, DroppedOutOfRange) + Count(s, DroppedNoPosition) + Count(s, DroppedTargetOffline)
  }

  function Settled(s: Store): int {
    Dropped(s) + Count(s, DuplicatesFiltered) + Count(s, ForwardedToNode) + Count(s, DeliveredToEdge)
  }

  function Surplus(s: Store): int { Count(s, TransmitTotal) - Settled(s) }
  function Shortfall(s: Store): int { Settled(s) - Count(s, TransmitTotal) }

  // Counted, and its outcome not counted yet.
  predicate Undecided(pc: Pc) {
    match pc
    case Judge(_) => true case CountDrop(_) => true case Dedup(_) => true case CountDup => true
    case NoteSender(_) => true case SendFrame(_) => true case CountForward => true
    case Persist(_) => true case CountDeliver => true
    case _ => false
  }

  function InFlight(j: Job): int { if Undecided(j.pc) then 1 else 0 }
  function Negated(j: Job): int { -InFlight(j) }
  function IsAborted(o: Output): int { if o.Aborted? then 1 else 0 }
  function NotAborted(o: Output): int { -IsAborted(o) }

  // How one increment moves each balance.
  function SettlesBy(k: Stat): int {
    match k
    case DroppedSFLimit => 1 case DroppedMaxHops => 1 case DroppedAirLoss => 1 case DroppedOutOfRange => 1
    case DroppedNoPosition => 1 case DroppedTargetOffline => 1
    case DuplicatesFiltered => 1 case ForwardedToNode => 1 case DeliveredToEdge => 1
    case _ => 0
  }

  lemma IncrCount(s: Store, k: Stat, j: Stat)
    ensures Count(Incr(s, k), j) == Count(s, j) + if j == k then 1 else 0
  {
  }

  lemma IncrSettles(s: Store, k: Stat)
    ensures Settled(Incr(s, k)) == Settled(s) + SettlesBy(k)
  {
    IncrCount(s, k, DroppedSFLimit); IncrCount(s, k, DroppedMaxHops); IncrCount(s, k, DroppedAirLoss);
    IncrCount(s, k, DroppedOutOfRange); IncrCount(s, k, DroppedNoPosition); IncrCount(s, k, DroppedTargetOffline);
    IncrCount(s, k, DuplicatesFiltered); IncrCount(s, k, ForwardedToNode); IncrCount(s, k, DeliveredToEdge);
    hide Count, Incr;
  }

  lemma StepConserves(r: Request, pc: Pc, s: Store, env: Env)
    ensures Delta(r, pc, s, env, Surplus, NotAborted, Negated) == 0
    ensures Delta(r, pc, s, env, Shortfall, IsAborted, InFlight) == 0
  {
    hide Perform, Settled, Count, Counted;
    StepCounts(r, pc, s, env);
    StepDecides(r, pc, s, env);
    var e := Perform(r, pc, s, env);
    assert Surplus(e.store) - Surplus(s) == -(Shortfall(e.store) - Shortfall(s));
  }

  // An operation bumps at most one counter.
  lemma StepCounts(r: Request, pc: Pc, s: Store, env: Env)
    ensures var e := Perform(r, pc, s, env);
      match Counted(pc)
      case None => e.store.stats == s.stats && Surplus(e.store) == Surplus(s)
      case Some(k) =>
        e.store == Incr(s, k) && Surplus(e.store) == Surplus(s) + (if k == TransmitTotal then 1 else 0) - SettlesBy(k)
  {
    hide Perform, Settled, Count, Incr;
    StatsOf(r, pc, s, env);
    match Counted(pc)
    case None => SameStats(s, Perform(r, pc, s, env).store);
    case Some(k) =>
      IncrSettles(s, k);
      IncrCount(s, k, TransmitTotal);
  }

  lemma StatsOf(r: Request, pc: Pc, s: Store, env: Env)
    ensures var t := Perform(r, pc, s, env).store;
      match Counted(pc) case None => t.stats == s.stats case Some(k) => t == Incr(s, k)
  {
    hide Count, Incr, Seen, SenderOf, JudgeFrame, ScreenFrame, FrameEvent, AckEventOf, JobKey, SenderName, PacketOf,
         SenderOfJob, TagOf;
  }

  // A frame leaves the undecided states exactly when its outcome is counted or it is aborted.
  lemma StepDecides(r: Request, pc: Pc, s: Store, env: Env)
    ensures var e := Perform(r, pc, s, env);
      InFlight(Job(r, e.pc)) - InFlight(Job(r, pc)) + (if e.out == [] then 0 else IsAborted(e.out[0]))
      == match Counted(pc)
         case None => 0
         case Some(k) => (if k == TransmitTotal then 1 else 0) - SettlesBy(k)
  {
    hide Perform;
    if Undecided(pc) { UndecidedStep(r, pc, s, env); } else { OtherStep(r, pc, s, env); }
  }

  lemma UndecidedStep(r: Request, pc: Pc, s: Store, env: Env)
    requires Undecided(pc)
    ensures var e := Perform(r, pc, s, env);
      && e.pc != Screen && !e.pc.CountTransmit?
      && if Undecided(e.pc) then Counted(pc) == None && (e.out == [] || !e.out[0].Aborted?)
         else if Counted(pc) == None then e.out == [Aborted]
         else SettlesBy(Counted(pc).value) == 1 && !Counted(pc).value.TransmitTotal? && e.out == []
  {
    hide Incr, MarkSeen, Seen, Forget, Remember, SenderOf, JudgeFrame, JobKey, ScreenFrame, SenderName, PacketOf, TagOf;
  }

  lemma OtherStep(r: Request, pc: Pc, s: Store, env: Env)
    requires !Undecided(pc)
    ensures var e := Perform(r, pc, s, env);
      && (e.out == [] || !e.out[0].Aborted?) && (Undecided(e.pc) <==> pc.CountTransmit?)
      && (Counted(pc).Some? ==>
        SettlesBy(Counted(pc).value) == 0 && (Counted(pc).value.TransmitTotal? <==> pc.CountTransmit?))
      && (pc.CountTransmit? ==> Counted(pc).Some?)
  {
    hide Incr, MarkSeen, Seen, Forget, Remember, SenderOf, JudgeFrame, JobKey, Validate, Transmitter, SenderOfJob,
         TagOf, SenderName, PacketOf;
  }

  // The counter an operation bumps, if any.
  function Counted(pc: Pc): Option<Stat> {
    match pc
    case CountInvalid(_) => Some(DroppedInvalid) case CountTransmit(_) => Some(TransmitTotal)
    case CountDrop(reason) => Some(DropStat(reason)) case CountDup => Some(DuplicatesFiltered)
    case CountSilentLoss => Some(AcksDropped) case CountForward => Some(ForwardedToNode)
    case CountDeliver => Some(DeliveredToEdge) case CountStale => Some(AcksStale)
    case CountAckLoss(_) => Some(AcksDropped) case CountAck(_) => Some(AcksRelayed)
    case _ => None
  }

  lemma SameStats(s: Store, t: Store)
    requires s.stats == t.stats
    ensures forall k :: Count(s, k) == Count(t, k)
    ensures Settled(s) == Settled(t)
  {
  }

  lemma {:induction false} Negation<T>(s: seq<T>, f: T -> int, g: T -> int)
    requires forall x :: x in s ==> f(x) == -g(x)
    ensures Total(s, f) == -Total(s, g)
  {
    if |s| > 0 { Negation(s[..|s| - 1], f, g); }
  }

  lemma CountEmpty(k: Stat)
    ensures Count(EMPTY, k) == 0
  {
  }

  lemma EmptyBalance()
    ensures Surplus(EMPTY) == 0 && Shortfall(EMPTY) == 0
  {
    hide Count, EMPTY;
    CountEmpty(TransmitTotal);
    CountEmpty(DroppedSFLimit); CountEmpty(DroppedMaxHops); CountEmpty(DroppedAirLoss);
    CountEmpty(DroppedOutOfRange); CountEmpty(DroppedNoPosition); CountEmpty(DroppedTargetOffline);
    CountEmpty(DuplicatesFiltered); CountEmpty(ForwardedToNode); CountEmpty(DeliveredToEdge);
  }

  lemma NothingInFlight(r: Request)
    ensures InFlight(Job(r, Start(r))) == 0 && Negated(Job(r, Start(r))) == 0
  {
  }

  lemma NoSurplusLost(steps: seq<Step>)
    ensures Quantity(Run(steps), Surplus, NotAborted, Negated) >= 0
  {
    hide Delta, Quantity, Run, Settled, Count, Perform, EMPTY, Start, InFlight, Negated;
    forall r, pc, s, env ensures Delta(r, pc, s, env, Surplus, NotAborted, Negated) >= 0 {
      StepConserves(r, pc, s, env);
    }
    forall s: Store, t ensures Surplus(s.(now := t)) == Surplus(s) { SameStats(s, s.(now := t)); }
    EmptyBalance();
    forall r ensures InFlight(Job(r, Start(r))) == 0 && Negated(Job(r, Start(r))) == 0 { NothingInFlight(r); }
    NeverDecreases(steps, Surplus, NotAborted, Negated);
  }

  lemma NoShortfallGained(steps: seq<Step>)
    ensures Quantity(Run(steps), Shortfall, IsAborted, InFlight) >= 0
  {
    hide Delta, Quantity, Run, Settled, Count, Perform, EMPTY, Start, InFlight, Negated;
    forall r, pc, s, env ensures Delta(r, pc, s, env, Shortfall, IsAborted, InFlight) >= 0 {
      StepConserves(r, pc, s, env);
    }
    forall s: Store, t ensures Shortfall(s.(now := t)) == Shortfall(s) { SameStats(s, s.(now := t)); }
    EmptyBalance();
    forall r ensures InFlight(Job(r, Start(r))) == 0 && Negated(Job(r, Start(r))) == 0 { NothingInFlight(r); }
    NeverDecreases(steps, Shortfall, IsAborted, InFlight);
  }

  /** transmit_total = six drops + duplicates + forwards + deliveries + fault aborts + frames in flight. */
  lemma FramesConserved(steps: seq<Step>)
    ensures var e := Run(steps);
      && Count(e.store, TransmitTotal) == Settled(e.store) + Total(e.log, IsAborted) + Total(e.jobs, InFlight)
      && Total(e.log, IsAborted) >= 0 && Total(e.jobs, InFlight) >= 0
      && Dropped(e.store) <= Count(e.store, TransmitTotal)
  {
    var e := Run(steps);
    NoSurplusLost(steps);
    NoShortfallGained(steps);
    hide Run;
    Negation(e.log, NotAborted, IsAborted);
    Negation(e.jobs, Negated, InFlight);
    NonNegative(e.log, IsAborted);
    NonNegative(e.jobs, InFlight);
  }

  // ---- ACK accounting ---------------------------------------------------------------------

  // Handlers that may still count an ACK as relayed or dropped.
  predicate OwesAck(pc: Pc) {
    match pc
    case CountDup => true case EmitDup => true case ReplyDup => true case CountSilentLoss => true
    case Persist(_) => true case CountDeliver => true case EmitDeliver => true case EdgeReply => true
    case RelayBack(_) => true case CountAckLoss(_) => true case SendAck(_) => true case CountAck(_) => true
    case _ => false
  }

  // Handlers that will still count the arrival an ACK answers (before NoteSender it has no lease to answer for).
  predicate OwesArrival(pc: Pc) {
    pc.CountDup? || pc.SendFrame? || pc.CountForward? || pc.Persist? || pc.CountDeliver?
  }

  function Arrivals(s: Store): int {
    Count(s, ForwardedToNode) + Count(s, DeliveredToEdge) + Count(s, DuplicatesFiltered)
  }
  function AckSlack(s: Store): int { Arrivals(s) - Count(s, AcksRelayed) - Count(s, AcksDropped) - |s.ackSender| }
  function AckCredit(j: Job): int { (if OwesArrival(j.pc) then 1 else 0) - (if OwesAck(j.pc) then 1 else 0) }
  function Nothing(o: Output): int { 0 }

  lemma LeaseCount(s: Store, k: Key, sender: string)
    ensures |Remember(s, k, sender).ackSender| <= |s.ackSender| + 1
    ensures |Forget(s, k).ackSender| == |s.ackSender| - (if k in s.ackSender then 1 else 0)
  {
    var a := Remember(s, k, sender).ackSender;
    assert a.Keys == s.ackSender.Keys + {k};
    assert Forget(s, k).ackSender.Keys == s.ackSender.Keys - {k};
  }

  // What one increment of a counter does to arrivals minus answered ACKs.
  function ArrivesBy(k: Option<Stat>): int {
    match k
    case None => 0
    case Some(ForwardedToNode) => 1 case Some(DeliveredToEdge) => 1 case Some(DuplicatesFiltered) => 1
    case Some(AcksRelayed) => -1 case Some(AcksDropped) => -1
    case Some(_) => 0
  }

  lemma IncrArrives(s: Store, k: Stat)
    ensures AckSlack(Incr(s, k)) == AckSlack(s) + ArrivesBy(Some(k))
  {
    IncrCount(s, k, ForwardedToNode); IncrCount(s, k, DeliveredToEdge); IncrCount(s, k, DuplicatesFiltered);
    IncrCount(s, k, AcksRelayed); IncrCount(s, k, AcksDropped);
    hide Count;
  }

  lemma StepArrives(r: Request, pc: Pc, s: Store, env: Env)
    ensures var t := Perform(r, pc, s, env).store;
      AckSlack(t) == AckSlack(s) + |s.ackSender| - |t.ackSender| + ArrivesBy(Counted(pc))
  {
    hide Perform, Count, Incr;
    var t := Perform(r, pc, s, env).store;
    StatsOf(r, pc, s, env);
    match Counted(pc)
    case None => SameStats(s, t);
    case Some(k) => IncrArrives(s, k); SameLeases(s, k);
  }

  lemma SameLeases(s: Store, k: Stat)
    ensures Incr(s, k).ackSender == s.ackSender
  {
  }

  // Leases change only where a sender is noted or popped.
  function LeaseGain(pc: Pc, pc': Pc): int {
    if pc.NoteSender? then 1 else if pc.TakeSender? && pc'.RelayBack? then -1 else 0
  }

  lemma StepLeases(r: Request, pc: Pc, s: Store, env: Env)
    ensures var e := Perform(r, pc, s, env);
      |e.store.ackSender| <= |s.ackSender| + LeaseGain(pc, e.pc)
  {
    hide Perform, Remember, Forget, SenderOf, JobKey, SenderName;
    LeaseCount(s, JobKey(r), SenderName(r));
    if pc.NoteSender? { NoteLease(r, pc.since, s, env); }
    else if pc.TakeSender? { TakeLease(r, s, env); }
    else { OtherLeases(r, pc, s, env); }
  }

  lemma NoteLease(r: Request, since: int, s: Store, env: Env)
    ensures var t := Perform(r, NoteSender(since), s, env).store; t == s || t == Remember(s, JobKey(r), SenderName(r))
  {
    hide Remember, JobKey, SenderName;
  }

  lemma TakeLease(r: Request, s: Store, env: Env)
    ensures var e := Perform(r, TakeSender, s, env);
      (e.store == s && !e.pc.RelayBack?)
        || (e.store == Forget(s, JobKey(r)) && (e.pc.RelayBack? ==> JobKey(r) in s.ackSender))
  {
    hide Forget, JobKey;
  }

  lemma OtherLeases(r: Request, pc: Pc, s: Store, env: Env)
    requires !pc.NoteSender? && !pc.TakeSender?
    ensures Perform(r, pc, s, env).store.ackSender == s.ackSender
  {
    hide JobKey, SenderName, FrameEvent, AckEventOf, JudgeFrame, ScreenFrame, Count, Seen, SenderOfJob, TagOf, PacketOf,
         Remember, Forget, SenderOf;
  }

  lemma StepMovesCredit(r: Request, pc: Pc, s: Store, env: Env)
    ensures var pc' := Perform(r, pc, s, env).pc;
      AckCredit(Job(r, pc')) - AckCredit(Job(r, pc)) - LeaseGain(pc, pc') + ArrivesBy(Counted(pc)) >= 0
  {
    hide Incr, MarkSeen, Seen, JudgeFrame, FrameEvent, AckEventOf, JobKey, Forget, Remember, SenderName, SenderOf,
         PacketOf, SenderOfJob, TagOf, Validate;
    forall reason ensures ArrivesBy(Some(DropStat(reason))) == 0 { }
  }

  lemma StepBoundsAcks(r: Request, pc: Pc, s: Store, env: Env)
    ensures Delta(r, pc, s, env, AckSlack, Nothing, AckCredit) >= 0
  {
    hide Perform, AckSlack, AckCredit;
    StepArrives(r, pc, s, env);
    StepMovesCredit(r, pc, s, env);
    StepLeases(r, pc, s, env);
  }

  /** At quiescence no more ACKs were relayed or dropped than frames arrived. */
  lemma AcksBounded(steps: seq<Step>)
    requires Quiescent(Run(steps))
    ensures var s := Run(steps).store;
      Count(s, AcksRelayed) + Count(s, AcksDropped) + |s.ackSender|
      <= Count(s, ForwardedToNode) + Count(s, DeliveredToEdge) + Count(s, DuplicatesFiltered)
  {
    hide Delta, Run, Perform;
    forall r, pc, s, env ensures Delta(r, pc, s, env, AckSlack, Nothing, AckCredit) >= 0 {
      StepBoundsAcks(r, pc, s, env);
    }
    var e := Run(steps);
    NeverDecreases(steps, AckSlack, Nothing, AckCredit);
    Zero(e.log, Nothing);
    Zero(e.jobs, AckCredit);
  }
}
