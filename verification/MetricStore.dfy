/** frontend/src/stores/metricStore.ts: the dashboard's event-sourced copy of the server counters. */
module MetricStore {
  import opened Protocol
  import opened StateStore
  import opened Ether
  import opened Sums
  import opened EtherTheorems
  import opened SimulationEngine
  import Schema

  type Counters = map<Stat, int>

  function Get(c: Counters, k: Stat): int { if k in c then c[k] else 0 }

  // DROP_REASON_TO_STAT of frontend/src/lib/lora.ts.
  function DropReasonToStat(reason: DropReason): Stat {
    match reason
    case SfLimitExceeded => DroppedSFLimit
    case MaxHopsExceeded => DroppedMaxHops
    case TransmitterNoPosition => DroppedNoPosition
    case TargetNoPosition => DroppedNoPosition
    case TargetOffline => DroppedTargetOffline
    case AirLoss => DroppedAirLoss
    case OutOfRange => DroppedOutOfRange
  }

  function StatKeyForPacketEvent(ev: PacketEvent): Option<Stat> {
    match ev.kind
    case DropEvent => (match ev.reason case Some(r) => Some(DropReasonToStat(r)) case None => Some(DroppedInvalid))
    case TransmitEvent => Some(TransmitTotal)
    case ForwardEvent => Some(ForwardedToNode)
    case DeliverEvent => Some(DeliveredToEdge)
    case DuplicateEvent => Some(DuplicatesFiltered)
    case AckEvent => Some(AcksRelayed)
    case AckDropEvent => Some(AcksDropped)
    case UnknownEvent => None
  }

  function Absorb(c: Counters, ev: PacketEvent): Counters {
    match StatKeyForPacketEvent(ev) case None => c case Some(k) => c[k := Get(c, k) + 1]
  }

  predicate IsDropCounter(k: Stat) {
    k.DroppedInvalid? || k.DroppedSFLimit? || k.DroppedMaxHops? || k.DroppedAirLoss? || k.DroppedOutOfRange?
    || k.DroppedNoPosition? || k.DroppedTargetOffline?
  }

  function Part(c: Counters, among: set<Stat>, k: Stat): int { if k in among then Get(c, k) else 0 }

  function DroppedAmong(c: Counters, among: set<Stat>): int {
    Part(c, among, DroppedInvalid) + Part(c, among, DroppedSFLimit) + Part(c, among, DroppedMaxHops)
      + Part(c, among, DroppedAirLoss)
    + Part(c, among, DroppedOutOfRange) + Part(c, among, DroppedNoPosition) + Part(c, among, DroppedTargetOffline)
  }

  class Store {
    var counters: Counters

    constructor ()
      ensures counters == map[]
    {
      counters := map[];
    }

    method Hydrate(stats: Option<Counters>)
      modifies this
      ensures counters == if stats.Some? then stats.value else old(counters)
    {
      if stats.Some? { counters := stats.value; }
    }

    /** Exactly the counters the fold over all events shows; the total of drops grows with drop events and no others. */
    method ApplyPacketEvent(ev: PacketEvent)
      modifies this
      ensures counters == Absorb(old(counters), ev)
      ensures forall k ::
        Get(counters, k) == Get(old(counters), k) + if StatKeyForPacketEvent(ev) == Some(k) then 1 else 0
      ensures ev.kind == UnknownEvent ==> counters == old(counters)
      ensures ev.kind == TransmitEvent ==> Get(counters, TransmitTotal) == Get(old(counters), TransmitTotal) + 1
      ensures ev.kind == DropEvent && ev.reason == None ==>
        Get(counters, DroppedInvalid) == Get(old(counters), DroppedInvalid) + 1
      ensures DroppedAmong(counters, counters.Keys) == DroppedAmong(old(counters), old(counters).Keys)
        + if ev.kind.DropEvent? then 1 else 0
    {
      var key := StatKeyForPacketEvent(ev);
      DropsShown(counters, ev);
      if key == None { return; }
      counters := counters[key.value := Get(counters, key.value) + 1];
    }

    method Reset()
      modifies this
      ensures counters == map[]
    {
      counters := map[];
    }

    // totalDropped: the sum over every counter whose name starts with "dropped_".
    method TotalDropped() returns (sum: int)
      ensures sum == DroppedAmong(counters, counters.Keys)
    {
      sum := 0;
      var rest := counters.Keys;
      while rest != {}
        invariant rest <= counters.Keys
        invariant sum == DroppedAmong(counters, counters.Keys - rest)
        decreases |rest|
      {
        var k :| k in rest;
        OneMore(counters, counters.Keys - rest, k);
        assert counters.Keys - (rest - {k}) == (counters.Keys - rest) + {k};
        rest := rest - {k};
        if IsDropCounter(k) { sum := sum + counters[k]; }
      }
      assert counters.Keys - {} == counters.Keys;
    }
  }

  lemma DropsShown(c: Counters, ev: PacketEvent)
    ensures DroppedAmong(Absorb(c, ev), Absorb(c, ev).Keys)
      == DroppedAmong(c, c.Keys) + if ev.kind.DropEvent? then 1 else 0
  {
    forall k
      ensures Part(Absorb(c, ev), Absorb(c, ev).Keys, k) == Get(Absorb(c, ev), k) && Part(c, c.Keys, k) == Get(c, k)
    {
    }
  }

  lemma OneMore(c: Counters, among: set<Stat>, k: Stat)
    requires k !in among
    ensures DroppedAmong(c, among + {k}) == DroppedAmong(c, among) + if IsDropCounter(k) then Get(c, k) else 0
  {
  }

  // ---- The mirror follows the server -------------------------------------------------------------

  // The counters after some events, from given ones on.
  function FoldFrom(c: Counters, events: seq<PacketEvent>): Counters {
    if |events| == 0 then c else Absorb(FoldFrom(c, events[..|events| - 1]), events[|events| - 1])
  }

  function EventsOf(log: seq<Output>): seq<PacketEvent> {
    if |log| == 0 then []
    else EventsOf(log[..|log| - 1]) + if log[|log| - 1].Event? then [log[|log| - 1].ev] else []
  }

  function Mirror(log: seq<Output>, k: Stat): int { Get(FoldFrom(map[], EventsOf(log)), k) }

  function Announces(k: Stat): Output -> int {
    (o: Output) => if o.Event? && StatKeyForPacketEvent(o.ev) == Some(k) then 1 else 0
  }

  // ACK losses counted without an event.
  function Silences(k: Stat): Output -> int { (o: Output) => if o.SilentLoss? && k.AcksDropped? then 1 else 0 }

  function Accounts(k: Stat): Output -> int { (o: Output) => Announces(k)(o) + Silences(k)(o) }
  function Unaccounts(k: Stat): Output -> int { (o: Output) => -(Announces(k)(o) + Silences(k)(o)) }

  lemma {:induction false} FoldCounts(c: Counters, log: seq<Output>, k: Stat)
    ensures Get(FoldFrom(c, EventsOf(log)), k) == Get(c, k) + Total(log, Announces(k))
  {
    hide StatKeyForPacketEvent, Absorb, Get;
    if |log| > 0 {
      var o := log[|log| - 1];
      var before := EventsOf(log[..|log| - 1]);
      FoldCounts(c, log[..|log| - 1], k);
      if o.Event? {
        assert EventsOf(log)[..|before|] == before && EventsOf(log)[|before|] == o.ev;
        AbsorbCounts(FoldFrom(c, before), o.ev, k);
      } else {
        assert EventsOf(log) == before;
      }
    }
  }

  lemma AbsorbCounts(c: Counters, ev: PacketEvent, k: Stat)
    ensures Get(Absorb(c, ev), k) == Get(c, k) + if StatKeyForPacketEvent(ev) == Some(k) then 1 else 0
  {
  }

  // The counter whose event a handler is about to emit: counted already, not announced yet.
  function Due(pc: Pc): Option<Stat> {
    match pc
    case EmitDrop(r) => Some(DropReasonToStat(r)) case EmitDup => Some(DuplicatesFiltered)
    case EmitForward => Some(ForwardedToNode) case EmitDeliver => Some(DeliveredToEdge)
    case EmitAckLoss(_) => Some(AcksDropped) case EmitAck(_) => Some(AcksRelayed)
    case _ => None
  }

  function Pending(k: Stat): Job -> int { (j: Job) => if Due(j.pc) == Some(k) then 1 else 0 }
  function Unpending(k: Stat): Job -> int { (j: Job) => if Due(j.pc) == Some(k) then -1 else 0 }
  function Counter(k: Stat): StateStore.Store -> int { (s: StateStore.Store) => Count(s, k) }
  function Countdown(k: Stat): StateStore.Store -> int { (s: StateStore.Store) => 0 - Count(s, k) }

  // Counters with an event for every increment.
  predicate Mirrored(k: Stat) {
    k.ForwardedToNode? || k.DeliveredToEdge? || k.DuplicatesFiltered? || k.AcksRelayed?
      || (IsDropCounter(k) && !k.DroppedInvalid?)
  }

  // An operation emits the event its handler is due, and nothing else; it logs a silence exactly for a silent loss.
  lemma StepEmits(r: Request, pc: Pc, s: StateStore.Store, env: Env)
    ensures var out := Perform(r, pc, s, env).out;
      && (if out != [] && out[0].Event? then StatKeyForPacketEvent(out[0].ev) == Due(pc) else Due(pc) == None)
      && (out != [] && out[0].SilentLoss? <==> pc.CountSilentLoss?)
  {
    hide Count, Incr, Seen, MarkSeen, Forget, Remember, SenderOf, SenderName, JudgeFrame, JobKey, ScreenFrame, RowOf;
  }

  // A counted operation makes its event due, unless the counter has none or the ACK is lost silently.
  lemma StepSchedules(r: Request, pc: Pc, s: StateStore.Store, env: Env)
    ensures var next := Due(Perform(r, pc, s, env).pc);
      match Counted(pc)
      case None => next == None && !pc.CountSilentLoss?
      case Some(k) =>
        && Due(pc) == None && (pc.CountSilentLoss? ==> k.AcksDropped? && next == None)
        && (next == Some(k) || (next == None && !Mirrored(k) && (k.AcksDropped? ==> pc.CountSilentLoss?)))
  {
    hide Count, Incr, Seen, MarkSeen, Forget, Remember, SenderOf, SenderName, JudgeFrame, JobKey, FrameEvent,
         AckEventOf, PacketOf, SenderOfJob, TagOf, Validate, Transmitter, RowOf;
    forall reason ensures DropStat(reason) == DropReasonToStat(reason) { }
  }

  lemma StepCountsExactly(r: Request, pc: Pc, s: StateStore.Store, env: Env, k: Stat)
    ensures Count(Perform(r, pc, s, env).store, k) == Count(s, k) + if Counted(pc) == Some(k) then 1 else 0
  {
    hide Perform, Surplus;
    StepCounts(r, pc, s, env);
    match Counted(pc)
    case None => SameStats(s, Perform(r, pc, s, env).store);
    case Some(j) => IncrCount(s, j, k);
  }

  lemma StepMirrors(r: Request, pc: Pc, s: StateStore.Store, env: Env, k: Stat)
    ensures Delta(r, pc, s, env, Counter(k), Unaccounts(k), Unpending(k)) >= 0
    ensures Mirrored(k) || k.AcksDropped? ==> Delta(r, pc, s, env, Countdown(k), Accounts(k), Pending(k)) >= 0
  {
    hide Perform, Count, Counted, Due, StatKeyForPacketEvent, Mirrored, IsDropCounter;
    StepEmits(r, pc, s, env);
    StepSchedules(r, pc, s, env);
    StepCountsExactly(r, pc, s, env, k);
    var e := Perform(r, pc, s, env);
    if e.out != [] {
      assert Announces(k)(e.out[0]) == if e.out[0].Event? && Due(pc) == Some(k) then 1 else 0;
      assert Silences(k)(e.out[0]) == if pc.CountSilentLoss? && k.AcksDropped? then 1 else 0;
      assert Unaccounts(k)(e.out[0]) == -Accounts(k)(e.out[0]);
    }
    assert Unpending(k)(Job(r, pc)) == -Pending(k)(Job(r, pc))
      && Unpending(k)(Job(r, e.pc)) == -Pending(k)(Job(r, e.pc));
  }

  lemma MirrorStart(k: Stat)
    ensures forall r :: Due(Start(r)) == None
    ensures Count(EMPTY, k) == 0
  {
  }

  /** Folding every packet:event from zero: for the mirrored counters the server is ahead by exactly the events about
      to be emitted, and for acks_dropped by exactly those and the losses counted in silence. */
  lemma MirrorFollows(steps: seq<Step>, k: Stat)
    ensures var e := Run(steps);
      && Count(e.store, k) >= Mirror(e.log, k) + Total(e.jobs, Pending(k)) + Total(e.log, Silences(k))
      && (Mirrored(k) || k.AcksDropped? ==>
            Count(e.store, k) == Mirror(e.log, k) + Total(e.jobs, Pending(k)) + Total(e.log, Silences(k)))
  {
    hide Delta, Run, Mirrored, Due, StatKeyForPacketEvent, FoldFrom, EventsOf;
    var e := Run(steps);
    MirrorStart(k);
    forall r, pc, s, env
      ensures Delta(r, pc, s, env, Counter(k), Unaccounts(k), Unpending(k)) >= 0
      ensures Mirrored(k) || k.AcksDropped? ==> Delta(r, pc, s, env, Countdown(k), Accounts(k), Pending(k)) >= 0
    {
      StepMirrors(r, pc, s, env, k);
    }
    NeverDecreases(steps, Counter(k), Unaccounts(k), Unpending(k));
    if Mirrored(k) || k.AcksDropped? { NeverDecreases(steps, Countdown(k), Accounts(k), Pending(k)); }
    Negation(e.log, Unaccounts(k), Accounts(k));
    Negation(e.jobs, Unpending(k), Pending(k));
    Sum(e.log, Accounts(k), Announces(k), Silences(k));
    FoldCounts(map[], e.log, k);
  }

  lemma {:induction false} Sum<T>(s: seq<T>, f: T -> int, g: T -> int, h: T -> int)
    requires forall x :: x in s ==> f(x) == g(x) + h(x)
    ensures Total(s, f) == Total(s, g) + Total(s, h)
  {
    if |s| > 0 { Sum(s[..|s| - 1], f, g, h); }
  }

  ghost predicate LostSilently(log: seq<Output>) { exists i :: 0 <= i < |log| && log[i].SilentLoss? }

  lemma SilencesShow(log: seq<Output>, k: Stat)
    ensures Total(log, Silences(k)) >= 0
    ensures !k.AcksDropped? ==> Total(log, Silences(k)) == 0
    ensures k.AcksDropped? ==> (Total(log, Silences(k)) == 0 <==> !LostSilently(log))
  {
    NonNegative(log, Silences(k));
    if !k.AcksDropped? || !LostSilently(log) { Zero(log, Silences(k)); }
    if k.AcksDropped? && LostSilently(log) {
      var i :| 0 <= i < |log| && log[i].SilentLoss?;
      assert log[i] in log && Silences(k)(log[i]) == 1;
    }
  }

  /** With no handler in progress the mirrored counters are equal, and acks_dropped is equal iff no ACK was lost
      silently; otherwise it is too small. */
  lemma MirrorExactAtRest(steps: seq<Step>, k: Stat)
    requires Quiescent(Run(steps))
    ensures Mirrored(k) ==> Count(Run(steps).store, k) == Mirror(Run(steps).log, k)
    ensures Count(Run(steps).store, AcksDropped) == Mirror(Run(steps).log, AcksDropped)
      <==> !LostSilently(Run(steps).log)
    ensures Count(Run(steps).store, AcksDropped) >= Mirror(Run(steps).log, AcksDropped)
  {
    hide Run, FoldFrom, EventsOf, Mirror, LostSilently;
    MirrorFollows(steps, k);
    MirrorFollows(steps, AcksDropped);
    SilencesShow(Run(steps).log, k);
    SilencesShow(Run(steps).log, AcksDropped);
    forall j | j in Run(steps).jobs ensures Pending(k)(j) == 0 && Pending(AcksDropped)(j) == 0 { }
    Zero(Run(steps).jobs, Pending(k));
    Zero(Run(steps).jobs, Pending(AcksDropped));
  }

  // ---- Hydrating in the middle of a run --------------------------------------------------------

  function Snapshot(s: StateStore.Store): Counters { map k | k in s.stats :: s.stats[k] }

  lemma {:induction false} LogGrows(steps: seq<Step>, more: seq<Step>)
    ensures Run(steps).log <= Run(steps + more).log
  {
    if |more| == 0 {
      assert steps + more == steps;
    } else {
      hide Perform;
      var before := more[..|more| - 1];
      LogGrows(steps, before);
      assert (steps + more)[..|steps + more| - 1] == steps + before;
    }
  }

  lemma {:induction false} TotalSplit<T>(a: seq<T>, b: seq<T>, f: T -> int)
    ensures Total(a + b, f) == Total(a, f) + Total(b, f)
  {
    if |b| == 0 {
      assert a + b == a;
    } else {
      assert (a + b)[..|a + b| - 1] == a + b[..|b| - 1];
      TotalSplit(a, b[..|b| - 1], f);
    }
  }

  /** Counters fetched at one moment and fed with the later events: too high by exactly the events that were still to
      be emitted then, too low by those still to be emitted now and by the losses counted in silence since. */
  lemma HydratedMidRun(steps: seq<Step>, more: seq<Step>, k: Stat)
    requires Mirrored(k) || k.AcksDropped?
    ensures var e, e' := Run(steps), Run(steps + more);
      && e.log <= e'.log
      && var later := e'.log[|e.log|..];
         Get(FoldFrom(Snapshot(e.store), EventsOf(later)), k)
         == Count(e'.store, k) + Total(e.jobs, Pending(k)) - Total(e'.jobs, Pending(k)) - Total(later, Silences(k))
  {
    hide Run, Mirrored, Due, StatKeyForPacketEvent, FoldFrom, EventsOf;
    LogGrows(steps, more);
    var e, e' := Run(steps), Run(steps + more);
    var later := e'.log[|e.log|..];
    assert e'.log == e.log + later;
    MirrorFollows(steps, k);
    MirrorFollows(steps + more, k);
    FoldCounts(map[], e.log, k);
    FoldCounts(map[], e'.log, k);
    FoldCounts(Snapshot(e.store), later, k);
    TotalSplit(e.log, later, Announces(k));
    TotalSplit(e.log, later, Silences(k));
  }

  /** The dashboard's total of drops, less the rejected envelopes, never exceeds transmit_total. */
  lemma DropsWithinTransmits(steps: seq<Step>)
    ensures var c := Snapshot(Run(steps).store);
      DroppedAmong(c, c.Keys) - Get(c, DroppedInvalid) <= Get(c, TransmitTotal)
  {
    FramesConserved(steps);
    hide Run, Settled;
  }

  // ---- A loss nobody announces -----------------------------------------------------------------

  const PARAMS := SessionParams(7, 14, 0.0)
  const DEAF := Env(Some(PARAMS), EdgeTarget, Found, Found, true, false, false, true, false, None, Schema.Garbage)
  const REPORT := Transmit("A", TransmitPacket("P", "A", "E", 1, ["A"], Bytes([7])), 0)

  /** A run that ends at rest with a dropped ACK the dashboard never hears of: a filtered duplicate whose ACK is
      lost. */
  lemma SilentLossHappens() returns (steps: seq<Step>)
    ensures Quiescent(Run(steps)) && Count(Run(steps).store, AcksDropped) > Mirror(Run(steps).log, AcksDropped)
  {
    hide Run, ApplyAll, Finish, Drain, Mirror;
    var answers := (pc: Pc) => DEAF;
    var e1 := Engine(EMPTY, [Job(REPORT, Screen), Job(REPORT, Screen)], []);
    TwoSubmitted();
    var first := Finish(e1, 0, answers);
    HandlerIsARun(e1, 0, answers);
    var e2 := ApplyAll(e1, first);
    var second := Finish(e2, 1, answers);
    HandlerIsARun(e2, 1, answers);
    steps := [Submit(REPORT), Submit(REPORT)] + first + second;
    RunOn([Submit(REPORT), Submit(REPORT)], first);
    RunOn([Submit(REPORT), Submit(REPORT)] + first, second);
    LostTwice(answers);
    MirrorExactAtRest(steps, AcksDropped);
  }

  lemma TwoSubmitted()
    ensures Run([Submit(REPORT), Submit(REPORT)]) == Engine(EMPTY, [Job(REPORT, Screen), Job(REPORT, Screen)], [])
  {
    assert [Submit(REPORT), Submit(REPORT)][..1] == [Submit(REPORT)];
    assert [Submit(REPORT)][..0] == [];
    assert Run([]) == INIT;
  }

  lemma LostTwice(answers: Pc -> Env)
    requires forall pc :: answers(pc) == DEAF
    ensures var first := Drain(EMPTY, [], REPORT, Screen, answers);
      LostSilently(Drain(first.0, first.1, REPORT, Screen, answers).1)
  {
    hide Drain, HandledEnd;
    assert PassesAir(REPORT, PARAMS, true, answers);
    HandledStretch(EMPTY, [], REPORT, PARAMS, true, answers);
    var (s, log) := HandledEnd(EMPTY, [], REPORT, true, answers);
    HandledStretch(s, log, REPORT, PARAMS, true, answers);
    KeyHeld(answers);
    var log' := HandledEnd(s, log, REPORT, true, answers).1;
    RepeatEnds(s, log, answers);
    assert log'[|log'| - 1].SilentLoss?;
  }

  lemma KeyHeld(answers: Pc -> Env)
    ensures Seen(HandledEnd(EMPTY, [], REPORT, true, answers).0, FrameKey(REPORT.pkt))
  {
  }

  lemma RepeatEnds(s: StateStore.Store, log: seq<Output>, answers: Pc -> Env)
    requires Seen(s, FrameKey(REPORT.pkt)) && forall pc :: answers(pc) == DEAF
    ensures var log' := HandledEnd(s, log, REPORT, true, answers).1; |log'| > 0 && log'[|log'| - 1].SilentLoss?
  {
  }
}
