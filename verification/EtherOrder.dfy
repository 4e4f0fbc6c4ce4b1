/** Order and multiplicity in the ether's log: ACK causality, admission spacing, one passage per admission. */
module EtherOrder {
  import opened Protocol
  import opened StateStore
  import opened Ether
  import opened Sums
  import opened EtherTheorems

  // ---- ACK causality ----------------------------------------------------------------------

  // Every mesh:ack to s for (packet, receiver) follows an air verdict that let s's frame through.
  ghost predicate Caused(log: seq<Output>) {
    forall i :: 0 <= i < |log| && log[i].AckSent? ==> Survived(log[i].key, log[i].to) in log[..i]
  }

  // The verdict a job in progress already relies on.
  function Basis(j: Job): Option<Output> {
    match j.pc
    case Dedup(_) => Some(Survived(JobKey(j.request), SenderName(j.request)))
    case CountDup => Some(Survived(JobKey(j.request), SenderName(j.request)))
    case EmitDup => Some(Survived(JobKey(j.request), SenderName(j.request)))
    case ReplyDup => Some(Survived(JobKey(j.request), SenderName(j.request)))
    case NoteSender(_) => Some(Survived(JobKey(j.request), SenderName(j.request)))
    case Persist(_) => Some(Survived(JobKey(j.request), SenderName(j.request)))
    case CountDeliver => Some(Survived(JobKey(j.request), SenderName(j.request)))
    case EmitDeliver => Some(Survived(JobKey(j.request), SenderName(j.request)))
    case EdgeReply => Some(Survived(JobKey(j.request), SenderName(j.request)))
    case RelayBack(to) => Some(Survived(JobKey(j.request), to))
    case SendAck(to) => Some(Survived(JobKey(j.request), to))
    case _ => None
  }

  ghost predicate Grounded(log: seq<Output>, b: Option<Output>) { b.None? || b.value in log }

  ghost predicate Justified(e: Engine) {
    && Caused(e.log)
    && (forall k :: k in e.store.ackSender ==> Survived(k, e.store.ackSender[k].sender) in e.log)
    && (forall i :: 0 <= i < |e.jobs| ==> Grounded(e.log, Basis(e.jobs[i])))
  }

  lemma StepGrounded(r: Request, pc: Pc, s: Store, env: Env, log: seq<Output>)
    requires Grounded(log, Basis(Job(r, pc)))
    requires forall k :: k in s.ackSender ==> Survived(k, s.ackSender[k].sender) in log
    ensures var e := Perform(r, pc, s, env);
      && Grounded(log + e.out, Basis(Job(r, e.pc)))
      && (forall k :: k in e.store.ackSender ==> Survived(k, e.store.ackSender[k].sender) in log)
      && (e.out != [] && e.out[0].AckSent? ==> Survived(e.out[0].key, e.out[0].to) in log)
  {
    hide Perform, Basis, Grounded;
    NextBasis(r, pc, s, env, log);
    SendersGrounded(r, pc, s, env, log);
    AckGrounded(r, pc, s, env, log);
  }

  lemma NextBasis(r: Request, pc: Pc, s: Store, env: Env, log: seq<Output>)
    requires Grounded(log, Basis(Job(r, pc)))
    requires forall k :: k in s.ackSender ==> Survived(k, s.ackSender[k].sender) in log
    ensures var e := Perform(r, pc, s, env); Grounded(log + e.out, Basis(Job(r, e.pc)))
  {
    hide Count, Incr, Seen, MarkSeen, Forget, Remember, JudgeFrame, JobKey, SenderName, FrameEvent, AckEventOf,
         PacketOf, SenderOfJob, TagOf, Validate;
  }

  lemma SendersGrounded(r: Request, pc: Pc, s: Store, env: Env, log: seq<Output>)
    requires Grounded(log, Basis(Job(r, pc)))
    requires forall k :: k in s.ackSender ==> Survived(k, s.ackSender[k].sender) in log
    ensures var t := Perform(r, pc, s, env).store;
      forall k :: k in t.ackSender ==> Survived(k, t.ackSender[k].sender) in log
  {
    hide Perform, JobKey, SenderName;
    if pc.NoteSender? { NoteLease(r, pc.since, s, env); }
    else if pc.TakeSender? { TakeLease(r, s, env); }
    else { OtherLeases(r, pc, s, env); }
  }

  lemma AckGrounded(r: Request, pc: Pc, s: Store, env: Env, log: seq<Output>)
    requires Grounded(log, Basis(Job(r, pc)))
    ensures var e := Perform(r, pc, s, env);
      e.out != [] && e.out[0].AckSent? ==> Survived(e.out[0].key, e.out[0].to) in log
  {
    hide Count, Incr, Seen, MarkSeen, Forget, Remember, SenderOf, JudgeFrame, JobKey, SenderName, PacketOf, SenderOfJob,
         TagOf, Validate, ScreenFrame;
  }

  lemma {:induction false} AlwaysJustified(steps: seq<Step>)
    ensures Justified(Run(steps))
  {
    if |steps| > 0 {
      var e := Run(steps[..|steps| - 1]);
      AlwaysJustified(steps[..|steps| - 1]);
      match steps[|steps| - 1]
      case Tick(_) =>
      case Submit(_) =>
      case Work(i, env) =>
        if i < |e.jobs| {
          var j := e.jobs[i];
          StepGrounded(j.request, j.pc, e.store, env, e.log);
          hide Perform, Basis;
          var out := Perform(j.request, j.pc, e.store, env).out;
          forall n | 0 <= n < |e.log + out| && (e.log + out)[n].AckSent?
            ensures Survived((e.log + out)[n].key, (e.log + out)[n].to) in (e.log + out)[..n]
          {
            if n < |e.log| { assert (e.log + out)[..n] == e.log[..n]; } else { assert (e.log + out)[..n] == e.log; }
          }
        }
    }
  }

  /** Each ACK sent has an earlier surviving frame from exactly that ship for exactly that (packet, receiver). */
  lemma AckHasCause(steps: seq<Step>, i: nat)
    requires i < |Run(steps).log| && Run(steps).log[i].AckSent?
    ensures exists j :: 0 <= j < i && Run(steps).log[j] == Survived(Run(steps).log[i].key, Run(steps).log[i].to)
  {
    AlwaysJustified(steps);
    var log := Run(steps).log;
    var o := Survived(log[i].key, log[i].to);
    assert o in log[..i];
    var j :| 0 <= j < i && log[..i][j] == o;
  }

  // ---- An edge acknowledges what it was delivered ------------------------------------------

  ghost predicate DeliveredIn(log: seq<Output>, k: Key) {
    exists i :: 0 <= i < |log| && log[i].Delivered? && log[i].key == k
  }

  // Past its delivery, and with the edge's ACK still ahead.
  predicate AnswersDelivery(j: Job) {
    j.request.Transmit? && (j.pc.CountDeliver? || j.pc.EmitDeliver? || j.pc.EdgeReply? || j.pc.SendAck?)
  }

  ghost predicate EdgeAcksFollow(e: Engine) {
    && (forall i :: 0 <= i < |e.log| && e.log[i].AckSent? && e.log[i].kind == FromEdge ==>
      DeliveredIn(e.log[..i], e.log[i].key))
    && (forall i :: 0 <= i < |e.jobs| && AnswersDelivery(e.jobs[i]) ==> DeliveredIn(e.log, JobKey(e.jobs[i].request)))
  }

  lemma StepAnswers(r: Request, pc: Pc, s: Store, env: Env)
    requires OwnPc(Job(r, pc))
    ensures var e := Perform(r, pc, s, env);
      && (AnswersDelivery(Job(r, e.pc)) ==>
        AnswersDelivery(Job(r, pc)) || (e.out != [] && e.out[0].Delivered? && e.out[0].key == JobKey(r)))
      && (e.out != [] && e.out[0].AckSent? && e.out[0].kind == FromEdge ==>
        AnswersDelivery(Job(r, pc)) && e.out[0].key == JobKey(r))
  {
    hide Count, Incr, JudgeFrame, Seen, MarkSeen, Forget, Remember, SenderOf, SenderName, JobKey, RowOf, Validate,
         Transmitter, PacketOf, SenderOfJob, TagOf;
  }

  lemma DeliveredStays(log: seq<Output>, more: seq<Output>, k: Key)
    ensures DeliveredIn(log, k) ==> DeliveredIn(log + more, k)
    ensures more != [] && more[0].Delivered? && more[0].key == k ==> DeliveredIn(log + more, k)
  {
    if DeliveredIn(log, k) {
      var i :| 0 <= i < |log| && log[i].Delivered? && log[i].key == k;
      assert (log + more)[i] == log[i];
    }
    if more != [] && more[0].Delivered? && more[0].key == k { assert (log + more)[|log|] == more[0]; }
  }

  /** Every ACK of an edge follows its delivery of that very packet. */
  lemma {:induction false} EdgeAcksFollowDelivery(steps: seq<Step>)
    ensures EdgeAcksFollow(Run(steps))
  {
    if |steps| > 0 {
      hide Perform, DeliveredIn, AnswersDelivery, OwnPc, JobKey;
      var e := Run(steps[..|steps| - 1]);
      EdgeAcksFollowDelivery(steps[..|steps| - 1]);
      match steps[|steps| - 1]
      case Tick(_) =>
      case Submit(r) => assert !AnswersDelivery(Job(r, Start(r))) by { NoAnswerYet(r); }
      case Work(i, env) => if i < |e.jobs| { WorkAnswers(steps[..|steps| - 1], i, env); }
    }
  }

  lemma NoAnswerYet(r: Request)
    ensures !AnswersDelivery(Job(r, Start(r)))
  {
  }

  lemma WorkAnswers(steps: seq<Step>, i: nat, env: Env)
    requires EdgeAcksFollow(Run(steps)) && i < |Run(steps).jobs|
    ensures EdgeAcksFollow(Apply(Run(steps), Work(i, env)))
  {
    hide Run, Perform, DeliveredIn, AnswersDelivery, OwnPc, JobKey;
    var e := Run(steps);
    var r, pc := e.jobs[i].request, e.jobs[i].pc;
    JobsOwnTheirPc(steps);
    assert e.jobs[i] in e.jobs && e.jobs[i] == Job(r, pc);
    StepAnswers(r, pc, e.store, env);
    var x := Perform(r, pc, e.store, env);
    forall k ensures DeliveredIn(e.log, k) ==> DeliveredIn(e.log + x.out, k) { DeliveredStays(e.log, x.out, k); }
    DeliveredStays(e.log, x.out, JobKey(r));
    var log := e.log + x.out;
    forall n | 0 <= n < |log| && log[n].AckSent? && log[n].kind == FromEdge ensures DeliveredIn(log[..n], log[n].key) {
      if n < |e.log| { assert log[..n] == e.log[..n]; } else { assert log[..n] == e.log; }
    }
  }

  // ---- Admission spacing ------------------------------------------------------------------

  ghost predicate Spaced(log: seq<Output>) {
    forall i, j :: 0 <= i < j < |log| && log[i].Admitted? && log[j].Admitted? && log[i].key == log[j].key
      ==> log[j].at - log[i].at >= 30000
  }

  ghost predicate Leased(e: Engine) {
    forall i :: 0 <= i < |e.log| && e.log[i].Admitted? ==>
      e.log[i].at <= e.store.now && e.log[i].key in e.store.dedup
        && e.store.dedup[e.log[i].key] >= e.log[i].at + DEDUP_TTL
  }

  lemma StepAdmits(r: Request, pc: Pc, s: Store, env: Env)
    ensures var e := Perform(r, pc, s, env);
      && e.store.now == s.now
      && (if e.out != [] && e.out[0].Admitted?
          then e.out[0].key == JobKey(r) && e.out[0].at == s.now && e.out[0].tag == TagOf(r) && !Seen(s, JobKey(r))
               && e.store.dedup == s.dedup[JobKey(r) := s.now + DEDUP_TTL]
          else e.store.dedup == s.dedup)
  {
    hide Count, JudgeFrame, JobKey, SenderName, ScreenFrame, RowOf, PacketOf, SenderOfJob, TagOf, SenderOf;
  }

  /** Two admissions of one (packet, receiver) are at least the dedup TTL apart. */
  lemma {:induction false} AdmissionsSpaced(steps: seq<Step>)
    ensures Spaced(Run(steps).log) && Leased(Run(steps))
  {
    hide Perform, Spaced, Leased;
    if |steps| == 0 {
      NothingAdmitted();
    } else {
      var e := Run(steps[..|steps| - 1]);
      AdmissionsSpaced(steps[..|steps| - 1]);
      match steps[|steps| - 1]
      case Tick(_) => AdmissionKept(e, Run(steps), []);
      case Submit(_) => AdmissionKept(e, Run(steps), []);
      case Work(i, env) =>
        if i < |e.jobs| {
          StepAdmits(e.jobs[i].request, e.jobs[i].pc, e.store, env);
          AdmissionKept(e, Run(steps), Perform(e.jobs[i].request, e.jobs[i].pc, e.store, env).out);
        }
    }
  }

  lemma NothingAdmitted()
    ensures Spaced(INIT.log) && Leased(INIT)
  {
  }

  lemma AdmissionKept(e: Engine, e': Engine, out: seq<Output>)
    requires Spaced(e.log) && Leased(e) && |out| <= 1 && e'.log == e.log + out && e.store.now <= e'.store.now
    requires if out != [] && out[0].Admitted?
             then out[0].at == e.store.now == e'.store.now && !Seen(e.store, out[0].key)
                  && e'.store.dedup == e.store.dedup[out[0].key := e.store.now + DEDUP_TTL]
             else e'.store.dedup == e.store.dedup
    ensures Spaced(e'.log) && Leased(e')
  {
  }

  // ---- Every forward and delivery spends a claim of its own -----------------------------------

  // One successful claim of a dedup key: which key, by a frame of which tag, and when.
  datatype Claim = Claim(key: Key, tag: nat, at: int)

  predicate IsPassage(o: Output) { o.FrameSent? || o.Delivered? }

  // The claim an admission makes and the one a forward or delivery goes back to.
  function ClaimOf(o: Output): Claim
    requires o.Admitted? || IsPassage(o)
  {
    match o
    case Admitted(key, at, tag) => Claim(key, tag, at)
    case FrameSent(_, p, tag, since, _) => Claim(FrameKey(p), tag, since)
    case Delivered(key, _, _, tag, since, _) => Claim(key, tag, since)
  }

  // A handler that claimed the key and has still to pass its frame on.
  predicate Pending(pc: Pc) { pc.NoteSender? || pc.SendFrame? || pc.Persist? }

  predicate Admits(o: Output, sel: Claim -> bool) { o.Admitted? && sel(ClaimOf(o)) }
  predicate Passes(o: Output, sel: Claim -> bool) { IsPassage(o) && sel(ClaimOf(o)) }

  function Admissions(sel: Claim -> bool): Output -> int { (o: Output) => if Admits(o, sel) then 1 else 0 }
  function Passages(sel: Claim -> bool): Output -> int { (o: Output) => if Passes(o, sel) then 1 else 0 }

  function Unspent(sel: Claim -> bool): Output -> int {
    (o: Output) => (if Admits(o, sel) then 1 else 0) - (if Passes(o, sel) then 1 else 0)
  }
  function Spending(sel: Claim -> bool): Job -> int {
    (j: Job) => if Pending(j.pc) && sel(Claim(JobKey(j.request), TagOf(j.request), j.pc.since))
                then -1 else 0
  }
  function Unused(): Store -> int { (s: Store) => 0 }

  lemma StepSpends(r: Request, pc: Pc, s: Store, env: Env, sel: Claim -> bool)
    requires OwnPc(Job(r, pc))
    ensures Delta(r, pc, s, env, Unused(), Unspent(sel), Spending(sel)) >= 0
  {
    hide Perform;
    StepClaims(r, pc, s, env);
  }

  // A claim is made where a handler becomes pending, and spent where it stops being so.
  lemma StepClaims(r: Request, pc: Pc, s: Store, env: Env)
    requires OwnPc(Job(r, pc))
    ensures var e := Perform(r, pc, s, env);
      && (e.out != [] && e.out[0].Admitted? ==>
            !Pending(pc) && Pending(e.pc) && ClaimOf(e.out[0]) == Claim(JobKey(r), TagOf(r), e.pc.since))
      && (e.out != [] && IsPassage(e.out[0]) ==>
            Pending(pc) && !Pending(e.pc) && ClaimOf(e.out[0]) == Claim(JobKey(r), TagOf(r), pc.since))
      && (e.out == [] || !(e.out[0].Admitted? || IsPassage(e.out[0])) ==>
            (Pending(pc) <==> Pending(e.pc)) && (Pending(pc) ==> pc.since == e.pc.since))
  {
    hide Count, Incr, JudgeFrame, Seen, MarkSeen, Forget, Remember, SenderOf, SenderName, RowOf, Validate, Transmitter;
  }

  /** Whatever claims are looked at (one key's, one call's, a single one): no more forwards and deliveries go back to
      them than were made. */
  lemma OnePassagePerAdmission(steps: seq<Step>, sel: Claim -> bool)
    ensures Total(Run(steps).log, Passages(sel)) <= Total(Run(steps).log, Admissions(sel))
  {
    hide Delta, Run, OwnPc;
    forall r, pc, s, env | OwnPc(Job(r, pc)) ensures Delta(r, pc, s, env, Unused(), Unspent(sel), Spending(sel)) >= 0 {
      StepSpends(r, pc, s, env, sel);
    }
    var e := Run(steps);
    forall r ensures Spending(sel)(Job(r, Start(r))) == 0 { assert !Pending(Start(r)); }
    NeverDecreases(steps, Unused(), Unspent(sel), Spending(sel));
    NonPositive(e.jobs, Spending(sel));
    Split(e.log, Unspent(sel), Admissions(sel), Passages(sel));
  }

  lemma {:induction false} NonPositive<T>(s: seq<T>, f: T -> int)
    requires forall x :: x in s ==> f(x) <= 0
    ensures Total(s, f) <= 0
  {
    if |s| > 0 { NonPositive(s[..|s| - 1], f); }
  }

  lemma {:induction false} Split<T>(s: seq<T>, f: T -> int, g: T -> int, h: T -> int)
    requires forall x :: x in s ==> f(x) == g(x) - h(x)
    ensures Total(s, f) == Total(s, g) - Total(s, h)
  {
    if |s| > 0 { Split(s[..|s| - 1], f, g, h); }
  }

  // If at most one admission is selected, so is at most one passage.
  lemma SinglePassage(steps: seq<Step>, sel: Claim -> bool, i: nat, j: nat)
    requires var log := Run(steps).log;
      && (forall a, b :: 0 <= a < |log| && 0 <= b < |log| && Admits(log[a], sel) && Admits(log[b], sel) ==> a == b)
      && i < |log| && j < |log| && Passes(log[i], sel) && Passes(log[j], sel)
    ensures i == j
  {
    hide Run, Admits, Passes;
    var log := Run(steps).log;
    OnePassagePerAdmission(steps, sel);
    AtMostOne(log, Admissions(sel));
    if i < j { AtLeastTwo(log, Passages(sel), i, j); }
    if j < i { AtLeastTwo(log, Passages(sel), j, i); }
  }

  // Every passage goes back to an admission in the log.
  lemma PassageHasClaim(steps: seq<Step>, i: nat) returns (a: nat)
    requires i < |Run(steps).log| && IsPassage(Run(steps).log[i])
    ensures a < |Run(steps).log| && Run(steps).log[a].Admitted?
      && ClaimOf(Run(steps).log[a]) == ClaimOf(Run(steps).log[i])
  {
    hide Run;
    var log := Run(steps).log;
    var claim := ClaimOf(log[i]);
    var sel := c => c == claim;
    OnePassagePerAdmission(steps, sel);
    NonNegative(log, Passages(sel));
    assert Passes(log[i], sel) && log[i] in log;
    if forall a :: 0 <= a < |log| ==> !Admits(log[a], sel) {
      Zero(log, Admissions(sel));
      assert false;
    }
    a :| 0 <= a < |log| && Admits(log[a], sel);
  }

  // ---- Forwards themselves are spaced ---------------------------------------------------------

  // Times in the log never run ahead or backwards, and a passage never precedes its claim.
  ghost predicate Timed(e: Engine) {
    && (forall i :: 0 <= i < |e.log| && IsPassage(e.log[i]) ==> e.log[i].since <= e.log[i].at <= e.store.now)
    && (forall i, j :: 0 <= i < j < |e.log| && IsPassage(e.log[i]) && IsPassage(e.log[j]) ==>
      e.log[i].at <= e.log[j].at)
    && (forall j :: j in e.jobs && Pending(j.pc) ==> j.pc.since <= e.store.now)
  }

  lemma StepTimed(r: Request, pc: Pc, s: Store, env: Env)
    requires Pending(pc) ==> pc.since <= s.now
    ensures var e := Perform(r, pc, s, env);
      && e.store.now == s.now && (Pending(e.pc) ==> e.pc.since <= s.now)
      && (e.out != [] && IsPassage(e.out[0]) ==> e.out[0].since <= e.out[0].at == s.now)
  {
    hide Count, JudgeFrame, Seen, SenderOf, SenderName, JobKey, Validate, RowOf, PacketOf, SenderOfJob, TagOf;
  }

  lemma {:induction false} AlwaysTimed(steps: seq<Step>)
    ensures Timed(Run(steps))
  {
    hide Perform, Timed;
    if |steps| == 0 {
      NothingTimed();
    } else {
      var e := Run(steps[..|steps| - 1]);
      AlwaysTimed(steps[..|steps| - 1]);
      match steps[|steps| - 1]
      case Tick(ms) => LaterTimed(e, ms);
      case Submit(r) => QueuedTimed(e, Job(r, Start(r)));
      case Work(i, env) =>
        if i < |e.jobs| {
          var x := Perform(e.jobs[i].request, e.jobs[i].pc, e.store, env);
          JobTimed(e, i);
          StepTimed(e.jobs[i].request, e.jobs[i].pc, e.store, env);
          WorkTimed(e, i, x.store, x.pc, x.out);
        }
    }
  }

  lemma NothingTimed()
    ensures Timed(INIT)
  {
  }

  lemma LaterTimed(e: Engine, ms: nat)
    requires Timed(e)
    ensures Timed(e.(store := e.store.(now := e.store.now + ms)))
  {
  }

  lemma QueuedTimed(e: Engine, j: Job)
    requires Timed(e) && j.pc == Start(j.request)
    ensures Timed(e.(jobs := e.jobs + [j]))
  {
  }

  lemma JobTimed(e: Engine, i: nat)
    requires Timed(e) && i < |e.jobs|
    ensures Pending(e.jobs[i].pc) ==> e.jobs[i].pc.since <= e.store.now
  {
  }

  lemma WorkTimed(e: Engine, i: nat, s: Store, pc: Pc, out: seq<Output>)
    requires Timed(e) && i < |e.jobs| && s.now == e.store.now && |out| <= 1
    requires Pending(pc) ==> pc.since <= s.now
    requires out != [] && IsPassage(out[0]) ==> out[0].since <= out[0].at == s.now
    ensures Timed(Engine(s, e.jobs[i := e.jobs[i].(pc := pc)], e.log + out))
  {
  }

  /** Two forwards or deliveries of one (packet, receiver) by handlers that go from claim to passage within d ms are at
      least the dedup TTL less d apart. */
  lemma PassagesSpaced(steps: seq<Step>, i: nat, j: nat, d: nat)
    requires i < j < |Run(steps).log| && IsPassage(Run(steps).log[i]) && IsPassage(Run(steps).log[j])
    requires ClaimOf(Run(steps).log[i]).key == ClaimOf(Run(steps).log[j]).key
    requires Run(steps).log[i].at - Run(steps).log[i].since <= d && Run(steps).log[j].at - Run(steps).log[j].since <= d
    ensures Run(steps).log[j].at - Run(steps).log[i].at >= 30000 - d
  {
    hide Run, Leased;
    var log := Run(steps).log;
    AdmissionsSpaced(steps);
    AlwaysTimed(steps);
    var a := PassageHasClaim(steps, i);
    var b := PassageHasClaim(steps, j);
    if a == b {
      var claim := ClaimOf(log[a]);
      var sel := c => c == claim;
      forall x, y | 0 <= x < |log| && 0 <= y < |log| && Admits(log[x], sel) && Admits(log[y], sel) ensures x == y { }
      SinglePassage(steps, sel, i, j);
      assert false;
    }
    SpacedTimes(log, a, b);
    assert log[i].at <= log[j].at;
  }

  lemma SpacedTimes(log: seq<Output>, a: nat, b: nat)
    requires Spaced(log) && a < |log| && b < |log| && a != b && log[a].Admitted? && log[b].Admitted?
      && log[a].key == log[b].key
    ensures log[a].at - log[b].at >= 30000 || log[b].at - log[a].at >= 30000
  {
  }

  // ---- Relayed node:acks -------------------------------------------------------------------

  predicate IsForward(o: Output, k: Key) { o.FrameSent? && FrameKey(o.pkt) == k }
  predicate IsRelay(o: Output, k: Key) { o.AckSent? && o.kind == Relayed && o.key == k }
  function Forwards(k: Key): Output -> int { (o: Output) => if IsForward(o, k) then 1 else 0 }
  function Relays(k: Key): Output -> int { (o: Output) => if IsRelay(o, k) then 1 else 0 }
  function Unrelayed(k: Key): Output -> int {
    (o: Output) => (if IsForward(o, k) then 1 else 0) - (if IsRelay(o, k) then 1 else 0)
  }
  function Held(k: Key): Store -> int { (s: Store) => if k in s.ackSender then -1 else 0 }
  function Relaying(k: Key): Job -> int {
    (j: Job) => if JobKey(j.request) != k then 0
                else if j.pc.SendFrame? then 1
                else if j.request.Ack? && (j.pc.RelayBack? || j.pc.SendAck?) then -1 else 0
  }
  function Sending(k: Key): Job -> int { (j: Job) => if JobKey(j.request) == k && j.pc.SendFrame? then 1 else 0 }

  lemma StepRelays(r: Request, pc: Pc, s: Store, env: Env, k: Key)
    requires OwnPc(Job(r, pc))
    ensures Delta(r, pc, s, env, Held(k), Unrelayed(k), Relaying(k)) >= 0
  {
    hide Count, JudgeFrame, SenderName;
  }

  /** Each forward to a ship authorises at most one relayed node:ack; until a handler at rest, frames whose sender is
      noted and which are about to be sent count as forwards. */
  lemma OneRelayPerForward(steps: seq<Step>, k: Key)
    ensures Total(Run(steps).log, Relays(k)) <= Total(Run(steps).log, Forwards(k)) + Total(Run(steps).jobs, Sending(k))
    ensures Quiescent(Run(steps)) ==> Total(Run(steps).log, Relays(k)) <= Total(Run(steps).log, Forwards(k))
  {
    hide Delta, Run, OwnPc;
    forall r, pc, s, env | OwnPc(Job(r, pc)) ensures Delta(r, pc, s, env, Held(k), Unrelayed(k), Relaying(k)) >= 0 {
      StepRelays(r, pc, s, env, k);
    }
    var e := Run(steps);
    NeverDecreases(steps, Held(k), Unrelayed(k), Relaying(k));
    Pointwise(e.jobs, Relaying(k), Sending(k));
    Split(e.log, Unrelayed(k), Forwards(k), Relays(k));
    if Quiescent(e) { Zero(e.jobs, Sending(k)); }
  }
}
