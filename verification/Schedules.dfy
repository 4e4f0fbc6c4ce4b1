/** Building fleet runs: action after action, whole handlers, and a whole transmit call left alone. */
module Schedules {
  import opened Protocol
  import opened StateStore
  import opened Ether
  import opened ShipNode
  import opened Fleet
  import SimulationEngine

  function Follow(w: World, actions: seq<Action>): World
    decreases |actions|
  {
    if |actions| == 0 then w else Follow(Next(w, actions[0]), actions[1..])
  }

  lemma {:induction false} PlayOn(actions: seq<Action>, more: seq<Action>)
    ensures Play(actions + more) == Follow(Play(actions), more)
    decreases |more|
  {
    hide Next;
    if |more| == 0 {
      assert actions + more == actions;
    } else {
      assert (actions + [more[0]])[..|actions|] == actions;
      assert actions + more == (actions + [more[0]]) + more[1..];
      PlayOn(actions + [more[0]], more[1..]);
    }
  }

  lemma {:induction false} FollowOn(w: World, a: seq<Action>, b: seq<Action>)
    ensures Follow(w, a + b) == Follow(Follow(w, a), b)
    decreases |a|
  {
    hide Next;
    if |a| == 0 {
      assert a + b == b;
    } else {
      assert (a + b)[1..] == a[1..] + b;
      FollowOn(Next(w, a[0]), a[1..], b);
    }
  }

  lemma FollowOne(w: World, a: Action)
    ensures Follow(w, [a]) == Next(w, a)
  {
    hide Next;
    assert Follow(Next(w, a), []) == Next(w, a);
    assert [a][1..] == [];
  }

  // ---- One handler served from its first operation to its last -----------------------------------

  function ServeAll(e: Engine, j: nat, answers: Pc -> Env): seq<Action>
    requires j < |e.jobs|
    decreases SimulationEngine.Rank(e.jobs[j].pc)
  {
    if e.jobs[j].pc == Done then []
    else
      SimulationEngine.Descends(e.jobs[j].request, e.jobs[j].pc, e.store, answers(e.jobs[j].pc));
      [Serve(j, answers(e.jobs[j].pc))] + ServeAll(Apply(e, Work(j, answers(e.jobs[j].pc))), j, answers)
  }

  lemma {:induction false} ServedWhole(w: World, j: nat, answers: Pc -> Env)
    requires j < |w.engine.jobs|
    ensures var job := w.engine.jobs[j];
      var (s, log) := SimulationEngine.Drain(w.engine.store, w.engine.log, job.request, job.pc, answers);
      Follow(w, ServeAll(w.engine, j, answers)) == w.(engine := Engine(s, w.engine.jobs[j := job.(pc := Done)], log))
    decreases SimulationEngine.Rank(w.engine.jobs[j].pc)
  {
    var job := w.engine.jobs[j];
    if job.pc == Done {
      assert w.engine.jobs[j := job.(pc := Done)] == w.engine.jobs;
    } else {
      var env := answers(job.pc);
      SimulationEngine.Descends(job.request, job.pc, w.engine.store, env);
      var w1 := w.(engine := Apply(w.engine, Work(j, env)));
      assert Next(w, Serve(j, env)) == w1;
      ServedWhole(w1, j, answers);
      hide Perform, Next;
      assert ServeAll(w.engine, j, answers)[1..] == ServeAll(w1.engine, j, answers);
    }
  }

  // The x-th airing arrives and its handler is served from beginning to end.
  function Flight(w: World, x: nat, answers: Pc -> Env): seq<Action>
    requires x < |w.airings| && w.airings[x].call < |w.calls|
  {
    [Arrive(x)] + ServeAll(Next(w, Arrive(x)).engine, |w.engine.jobs|, answers)
  }

  function RequestOf(w: World, x: nat): Request
    requires x < |w.airings| && w.airings[x].call < |w.calls|
  {
    Transmit(w.calls[w.airings[x].call].ship, w.calls[w.airings[x].call].frame, x)
  }

  /** Nothing but the engine changes, and that by exactly the plain handler. */
  lemma Flown(w: World, x: nat, answers: Pc -> Env)
    requires x < |w.airings| && w.airings[x].call < |w.calls|
    ensures var (s, log) := SimulationEngine.Drain(w.engine.store, w.engine.log, RequestOf(w, x), Screen, answers);
      Follow(w, Flight(w, x, answers)) == w.(engine := Engine(s, w.engine.jobs + [Job(RequestOf(w, x), Done)], log))
  {
    hide Next, SimulationEngine.Drain, Follow, ServeAll;
    var j := |w.engine.jobs|;
    var w1 := Next(w, Arrive(x));
    var job := Job(RequestOf(w, x), Screen);
    Queued(w, x);
    FollowOne(w, Arrive(x));
    FollowOn(w, [Arrive(x)], ServeAll(w1.engine, j, answers));
    ServedWhole(w1, j, answers);
    assert (w.engine.jobs + [job])[j := job.(pc := Done)] == w.engine.jobs + [job.(pc := Done)];
  }

  lemma Queued(w: World, x: nat)
    requires x < |w.airings| && w.airings[x].call < |w.calls|
    ensures Next(w, Arrive(x)) == w.(engine := w.engine.(jobs := w.engine.jobs + [Job(RequestOf(w, x), Screen)]))
    ensures w.engine.jobs < Next(w, Arrive(x)).engine.jobs
  {
  }

  // ---- A transmit call left alone does what the retry loop does ------------------------------------

  // What goes on beside a call without touching ships, calls or airings: time, arrivals, workers and node:acks.
  predicate Background(actions: seq<Action>) {
    forall a :: a in actions ==> a.Pass? || a.Arrive? || a.Serve? || a.SendNodeAck?
  }

  // The call's actions from attempt n on: fail, or air and, after whatever goes on in the background, time out, hear
  // the ACK logged at i, or be cancelled.
  function Alone(c: nat, ship: string, wait: nat, during: nat -> seq<Action>, i: nat, outcome: nat -> Outcome,
      n: nat): seq<Action>
    decreases MAX_RETRIES + 1 - n
  {
    if n > MAX_RETRIES then []
    else match outcome(n)
      case WriteFailed => [FailWrite(c)]
      case Answered => ([Air(c)] + during(n)) + ([HearAck(ship, i)] + [Succeed(c)])
      case Cancelled => ([Air(c)] + during(n)) + [Quit(c)]
      case TimedOut => Lapse(c, wait, during(n)) + Alone(c, ship, wait, during, i, outcome, n + 1)
  }

  function Lapse(c: nat, wait: nat, mid: seq<Action>): seq<Action> {
    ([Air(c)] + mid) + ([Action.Pass(wait)] + [Expire(c)])
  }

  // The part of them before the answer is heard.
  function UpToAnswer(c: nat, wait: nat, during: nat -> seq<Action>, outcome: nat -> Outcome, n: nat): seq<Action>
    decreases MAX_RETRIES + 1 - n
  {
    if n > MAX_RETRIES then []
    else match outcome(n)
      case Answered => [Air(c)] + during(n)
      case TimedOut => Lapse(c, wait, during(n)) + UpToAnswer(c, wait, during, outcome, n + 1)
      case _ => []
  }

  // An ACK for the packet, addressed to the ship, is logged at i.
  predicate Replies(w: World, ship: string, packetId: string, i: nat) {
    CanHearAck(w, ship, i) && w.engine.log[i].key.packetId == packetId
  }

  // The call stands before attempt n, or after its last one when n is past the limit.
  ghost predicate Standing(w: World, c: nat, n: nat) {
    && c < |w.calls| && w.calls[c].ship in w.ships && |w.calls[c].aired| == n <= MAX_RETRIES + 1
    && w.calls[c].phase == if n <= MAX_RETRIES then Ready else Ended(false)
  }

  // From w to w' the call made `sent` airings of its frame, one after the other, and but for its ship's waiters no
  // ship, call or airing changed.
  ghost predicate OnlyCall(w: World, w': World, c: nat, sent: nat)
    requires c < |w.calls|
  {
    && |w'.calls| == |w.calls| && w'.calls
      == w.calls[c := w.calls[c].(phase := w'.calls[c].phase, aired := w'.calls[c].aired)]
    && |w'.calls[c].aired| == |w.calls[c].aired| + sent && w.calls[c].aired <= w'.calls[c].aired
    && |w'.airings| == |w.airings| + sent && w.airings <= w'.airings
    && (forall k :: |w.calls[c].aired| <= k < |w'.calls[c].aired| ==>
          w'.calls[c].aired[k] == |w.airings| + k - |w.calls[c].aired|)
    && (forall x :: |w.airings| <= x < |w'.airings| ==>
          w'.airings[x].call == c && w'.airings[x].attempt == |w.calls[c].aired| + x - |w.airings|)
    && w.calls[c].ship in w.ships && w'.ships.Keys == w.ships.Keys
    && w'.ships == w.ships[w.calls[c].ship := w.ships[w.calls[c].ship].(waiters := w'.ships[w.calls[c].ship].waiters)]
    && w.engine.log <= w'.engine.log
  }

  // Nobody else's doing: same ships, calls and airings, later and with a longer log.
  ghost predicate Aside(w: World, w': World) {
    && w'.ships == w.ships && w'.calls == w.calls && w'.airings == w.airings
    && Now(w) <= Now(w') && w.engine.log <= w'.engine.log
  }

  lemma {:induction false} BackgroundKeeps(w: World, actions: seq<Action>)
    requires Background(actions)
    ensures Aside(w, Follow(w, actions))
    decreases |actions|
  {
    if |actions| > 0 {
      hide Next;
      AsideStep(w, actions[0]);
      BackgroundKeeps(Next(w, actions[0]), actions[1..]);
    }
  }

  lemma AsideStep(w: World, a: Action)
    requires a.Pass? || a.Arrive? || a.Serve? || a.SendNodeAck?
    ensures Aside(w, Next(w, a))
  {
    hide Start;
    if a.Serve? && a.job < |w.engine.jobs| {
      KeepsTime(w.engine.jobs[a.job].request, w.engine.jobs[a.job].pc, w.engine.store, a.env);
    }
    hide Perform;
  }

  lemma KeepsTime(r: Request, pc: Pc, s: Store, env: Env)
    ensures Perform(r, pc, s, env).store.now == s.now
  {
    hide Count, JudgeFrame, Seen, SenderOf, SenderName, JobKey, ScreenFrame, FrameEvent, AckEventOf, RowOf, PacketOf,
         SenderOfJob, TagOf;
  }

  /** Scheduled with nothing but the engine beside it, a call of the fleet airs exactly the frames of the retry loop and
      leaves exactly its waiters, and it ends acked iff the loop's last attempt is answered. */
  lemma {:induction false} LoopIsARun(w: World, c: nat, wait: nat, during: nat -> seq<Action>, i: nat,
                                      outcome: nat -> Outcome, n: nat)
    requires Standing(w, c, n) && wait >= w.ships[w.calls[c].ship].ackTimeout + RETRY_GUARD
    requires forall k :: Background(during(k))
    requires LastOutcome(outcome, n) == Answered ==>
      Replies(Follow(w, UpToAnswer(c, wait, during, outcome, n)), w.calls[c].ship, w.calls[c].frame.packetId, i)
    ensures var ship, p := w.calls[c].ship, w.calls[c].frame.packetId;
      var w' := Follow(w, Alone(c, ship, wait, during, i, outcome, n));
      && OnlyCall(w, w', c, Sends(outcome, n))
      && w'.calls[c].phase == Ended(LastOutcome(outcome, n) == Answered)
      && w'.ships[ship].waiters
         == Waits(w.ships[ship].waiters, p, c, outcome, Quietly(w.ships[ship].waiters, p, c, outcome), n)
    decreases MAX_RETRIES + 1 - n, 1
  {
    hide Follow, OnlyCall, Next, Replies, Background;
    var ship, p := w.calls[c].ship, w.calls[c].frame.packetId;
    if n > MAX_RETRIES {
      NoAttempt(w, c);
    } else {
      match outcome(n)
      case WriteFailed => FailedAttempt(w, c);
      case Answered => AnsweredAttempt(w, c, during(n), i);
      case Cancelled => CancelledAttempt(w, c, during(n));
      case TimedOut => LoopGoesOn(w, c, wait, during, i, outcome, n);
    }
  }

  lemma {:induction false} LoopGoesOn(w: World, c: nat, wait: nat, during: nat -> seq<Action>, i: nat,
                                      outcome: nat -> Outcome, n: nat)
    requires n <= MAX_RETRIES && outcome(n) == TimedOut
    requires Standing(w, c, n) && wait >= w.ships[w.calls[c].ship].ackTimeout + RETRY_GUARD
    requires forall k :: Background(during(k))
    requires LastOutcome(outcome, n) == Answered ==>
      Replies(Follow(w, UpToAnswer(c, wait, during, outcome, n)), w.calls[c].ship, w.calls[c].frame.packetId, i)
    ensures var ship, p := w.calls[c].ship, w.calls[c].frame.packetId;
      var w' := Follow(w, Alone(c, ship, wait, during, i, outcome, n));
      && OnlyCall(w, w', c, Sends(outcome, n))
      && w'.calls[c].phase == Ended(LastOutcome(outcome, n) == Answered)
      && w'.ships[ship].waiters
         == Waits(w.ships[ship].waiters, p, c, outcome, Quietly(w.ships[ship].waiters, p, c, outcome), n)
    decreases MAX_RETRIES + 1 - n, 0
  {
    hide Follow, OnlyCall, Next, Replies, Background, Quietly, Waits;
    var ship, p := w.calls[c].ship, w.calls[c].frame.packetId;
    TimedOutAttempt(w, c, wait, during(n));
    var first := Lapse(c, wait, during(n));
    var w1 := Follow(w, first);
    FollowOn(w, first, Alone(c, ship, wait, during, i, outcome, n + 1));
    FollowOn(w, first, UpToAnswer(c, wait, during, outcome, n + 1));
    SameCall(w, w1, c);
    LoopIsARun(w1, c, wait, during, i, outcome, n + 1);
    OneMoreAttempt(w, w1, Follow(w1, Alone(c, ship, wait, during, i, outcome, n + 1)), c, Sends(outcome, n + 1));
    QuietAgain(w.ships[ship].waiters, p, c, outcome, n);
  }

  // Removing the call's own waiter between attempts changes nothing it finds later.
  lemma QuietAgain(waiters: map<string, Ticket>, p: string, c: nat, outcome: nat -> Outcome, n: nat)
    requires n <= MAX_RETRIES && outcome(n) == TimedOut
    ensures Waits(waiters, p, c, outcome, Quietly(waiters, p, c, outcome), n)
      == Waits(waiters - {p}, p, c, outcome, Quietly(waiters - {p}, p, c, outcome), n + 1)
  {
    assert waiters[p := Ticket(c, n)] - {p} == waiters - {p};
    SameFinds(waiters - {p}, p, c, outcome, Quietly(waiters, p, c, outcome), Quietly(waiters - {p}, p, c, outcome),
      n + 1);
  }

  lemma {:induction false} SameFinds(waiters: map<string, Ticket>, p: string, c: nat, outcome: nat -> Outcome,
                                     f: nat -> map<string, Ticket>, g: nat -> map<string, Ticket>, n: nat)
    requires exists ws: map<string, Ticket> :: f == Quietly(ws, p, c, outcome) && g == Quietly(ws - {p}, p, c, outcome)
    ensures Waits(waiters, p, c, outcome, f, n) == Waits(waiters, p, c, outcome, g, n)
    decreases MAX_RETRIES + 1 - n
  {
    var ws: map<string, Ticket> :| f == Quietly(ws, p, c, outcome) && g == Quietly(ws - {p}, p, c, outcome);
    assert (ws - {p}) - {p} == ws - {p};
    if n <= MAX_RETRIES {
      if outcome(n) == TimedOut {
        assert f(n) - {p} == g(n) - {p} by { assert ws[p := Ticket(c, n)] - {p}
          == (ws - {p})[p := Ticket(c, n)] - {p}; }
        SameFinds(f(n) - {p}, p, c, outcome, f, g, n + 1);
      } else {
        assert (ws - {p})[p := Ticket(c, n)] == ws[p := Ticket(c, n)];
      }
    }
  }

  lemma NoAttempt(w: World, c: nat)
    requires c < |w.calls| && w.calls[c].ship in w.ships
    ensures OnlyCall(w, w, c, 0) && Follow(w, []) == w
  {
    var ship := w.calls[c].ship;
    assert w.ships[ship := w.ships[ship].(waiters := w.ships[ship].waiters)] == w.ships;
  }

  lemma FailedAttempt(w: World, c: nat)
    requires c < |w.calls| && w.calls[c].ship in w.ships && w.calls[c].phase.Ready?
    ensures var ship, p := w.calls[c].ship, w.calls[c].frame.packetId;
      var w' := Follow(w, [FailWrite(c)]);
      && OnlyCall(w, w', c, 0) && w'.calls[c].phase == Ended(false)
      && w'.ships[ship].waiters == w.ships[ship].waiters[p := Ticket(c, |w.calls[c].aired|)]
  {
    hide Follow;
    FollowOne(w, FailWrite(c));
  }

  lemma Attempted(w: World, c: nat)
    requires CanAir(w, c)
    ensures var ship, p := w.calls[c].ship, w.calls[c].frame.packetId;
      var w' := Next(w, Air(c));
      && OnlyCall(w, w', c, 1) && w'.engine == w.engine
      && w'.calls[c].phase == Waiting(Now(w), w.ships[ship].ackTimeout, false)
      && w'.ships[ship].waiters == w.ships[ship].waiters[p := Ticket(c, |w.calls[c].aired|)]
  {
  }

  // One airing, and the engine at work on whatever is on its way.
  lemma AiredAmid(w: World, c: nat, mid: seq<Action>)
    requires CanAir(w, c) && Background(mid)
    ensures var ship, p := w.calls[c].ship, w.calls[c].frame.packetId;
      var w' := Follow(w, [Air(c)] + mid);
      && OnlyCall(w, w', c, 1) && Now(w) <= Now(w')
      && w'.calls[c].phase == Waiting(Now(w), w.ships[ship].ackTimeout, false)
      && w'.ships[ship].waiters == w.ships[ship].waiters[p := Ticket(c, |w.calls[c].aired|)]
  {
    hide Follow, Next, Background;
    FollowOn(w, [Air(c)], mid);
    FollowOne(w, Air(c));
    Attempted(w, c);
    BackgroundKeeps(Next(w, Air(c)), mid);
  }

  // Two worlds that differ in a call's phase and its ship's waiters only.
  ghost predicate Progressed(w: World, w': World, c: nat)
    requires c < |w.calls| && w.calls[c].ship in w.ships
  {
    && |w'.calls| == |w.calls| && w'.calls == w.calls[c := w.calls[c].(phase := w'.calls[c].phase)]
      && w'.airings == w.airings
    && w.calls[c].ship in w'.ships
    && w'.ships == w.ships[w.calls[c].ship := w.ships[w.calls[c].ship].(waiters := w'.ships[w.calls[c].ship].waiters)]
    && w.engine.log <= w'.engine.log
  }

  lemma ThenProgressed(w: World, w1: World, w2: World, c: nat)
    requires c < |w.calls| && OnlyCall(w, w1, c, 1) && w1.calls[c].ship in w1.ships && Progressed(w1, w2, c)
    ensures OnlyCall(w, w2, c, 1)
  {
  }

  lemma CancelledAttempt(w: World, c: nat, mid: seq<Action>)
    requires CanAir(w, c) && Background(mid)
    ensures var ship, p := w.calls[c].ship, w.calls[c].frame.packetId;
      var w' := Follow(w, ([Air(c)] + mid) + [Quit(c)]);
      && OnlyCall(w, w', c, 1) && w'.calls[c].phase == Ended(false)
      && w'.ships[ship].waiters == w.ships[ship].waiters[p := Ticket(c, |w.calls[c].aired|)]
  {
    hide Follow, Next, Background;
    AiredAmid(w, c, mid);
    var w1 := Follow(w, [Air(c)] + mid);
    FollowOn(w, [Air(c)] + mid, [Quit(c)]);
    FollowOne(w1, Quit(c));
    QuitNow(w1, c);
    hide Progressed;
    ThenProgressed(w, w1, Next(w1, Quit(c)), c);
  }

  lemma QuitNow(w: World, c: nat)
    requires c < |w.calls| && w.calls[c].phase.Waiting? && w.calls[c].ship in w.ships
    ensures var w' := Next(w, Quit(c)); Progressed(w, w', c) && w'.calls[c].phase == Ended(false) && w'.ships == w.ships
  {
    var ship := w.calls[c].ship;
    assert w.ships[ship := w.ships[ship].(waiters := w.ships[ship].waiters)] == w.ships;
  }

  lemma AnsweredAttempt(w: World, c: nat, mid: seq<Action>, i: nat)
    requires CanAir(w, c) && Background(mid)
    requires Replies(Follow(w, [Air(c)] + mid), w.calls[c].ship, w.calls[c].frame.packetId, i)
    ensures var ship, p := w.calls[c].ship, w.calls[c].frame.packetId;
      var w' := Follow(w, ([Air(c)] + mid) + ([HearAck(ship, i)] + [Succeed(c)]));
      && OnlyCall(w, w', c, 1) && w'.calls[c].phase == Ended(true)
      && w'.ships[ship].waiters == w.ships[ship].waiters - {p}
  {
    hide Follow, Next, Background;
    var ship, p := w.calls[c].ship, w.calls[c].frame.packetId;
    AiredAmid(w, c, mid);
    var w1 := Follow(w, [Air(c)] + mid);
    var w2 := Next(w1, HearAck(ship, i));
    FollowOn(w, [Air(c)] + mid, [HearAck(ship, i)] + [Succeed(c)]);
    FollowOn(w1, [HearAck(ship, i)], [Succeed(c)]);
    FollowOne(w1, HearAck(ship, i));
    FollowOne(w2, Succeed(c));
    Heard(w1, c, i);
    Succeeded(w2, c);
    assert w.ships[ship].waiters[p := Ticket(c, |w.calls[c].aired|)] - {p} == w.ships[ship].waiters - {p};
    assert Progressed(w1, Next(w2, Succeed(c)), c);
    hide Progressed;
    ThenProgressed(w, w1, Next(w2, Succeed(c)), c);
  }

  lemma Succeeded(w: World, c: nat)
    requires c < |w.calls| && w.calls[c].phase.Waiting? && w.calls[c].phase.acked
    ensures Next(w, Succeed(c)) == w.(calls := w.calls[c := w.calls[c].(phase := Ended(true))])
  {
  }

  lemma Heard(w: World, c: nat, i: nat)
    requires c < |w.calls| && w.calls[c].ship in w.ships && w.calls[c].phase.Waiting? && |w.calls[c].aired| > 0
    requires Replies(w, w.calls[c].ship, w.calls[c].frame.packetId, i)
    requires w.calls[c].frame.packetId in w.ships[w.calls[c].ship].waiters
    requires w.ships[w.calls[c].ship].waiters[w.calls[c].frame.packetId] == Ticket(c, |w.calls[c].aired| - 1)
    ensures var ship, p := w.calls[c].ship, w.calls[c].frame.packetId;
      var w' := Next(w, HearAck(ship, i));
      w' == w.(ships := w.ships[ship := StopListening(w.ships[ship], p)],
               calls := w.calls[c := w.calls[c].(phase := w.calls[c].phase.(acked := true))])
  {
  }

  lemma TimedOutAttempt(w: World, c: nat, wait: nat, mid: seq<Action>)
    requires c < |w.calls| && Standing(w, c, |w.calls[c].aired|) && |w.calls[c].aired| <= MAX_RETRIES
    requires wait >= w.ships[w.calls[c].ship].ackTimeout + RETRY_GUARD && Background(mid)
    ensures var ship, p := w.calls[c].ship, w.calls[c].frame.packetId;
      var w' := Follow(w, Lapse(c, wait, mid));
      && OnlyCall(w, w', c, 1) && Standing(w', c, |w.calls[c].aired| + 1)
      && w'.ships[ship].waiters == w.ships[ship].waiters - {p}
  {
    hide Follow, Next, Background;
    var ship, p := w.calls[c].ship, w.calls[c].frame.packetId;
    AiredAmid(w, c, mid);
    var w1 := Follow(w, [Air(c)] + mid);
    var w2 := Next(w1, Action.Pass(wait));
    FollowOn(w, [Air(c)] + mid, [Action.Pass(wait)] + [Expire(c)]);
    FollowOn(w1, [Action.Pass(wait)], [Expire(c)]);
    FollowOne(w1, Action.Pass(wait));
    FollowOne(w2, Expire(c));
    Expired(w1, c, wait);
    assert w.ships[ship].waiters[p := Ticket(c, |w.calls[c].aired|)] - {p} == w.ships[ship].waiters - {p};
    assert Progressed(w1, Next(w2, Expire(c)), c);
    hide Progressed;
    ThenProgressed(w, w1, Next(w2, Expire(c)), c);
  }

  lemma Expired(w: World, c: nat, wait: nat)
    requires c < |w.calls| && w.calls[c].ship in w.ships && w.calls[c].phase.Waiting?
    requires Now(w) + wait >= w.calls[c].phase.since + w.calls[c].phase.timeout + RETRY_GUARD
    ensures var call, ship := w.calls[c], w.calls[c].ship;
      var w' := Next(Next(w, Action.Pass(wait)), Expire(c));
      w' == w.(engine := w.engine.(store := w.engine.store.(now := Now(w) + wait)),
               ships := w.ships[ship := StopListening(w.ships[ship], call.frame.packetId)],
               calls := w.calls[c := call.(phase := if |call.aired| <= MAX_RETRIES then Ready else Ended(false))])
  {
  }

  lemma SameCall(w: World, w1: World, c: nat)
    requires c < |w.calls| && OnlyCall(w, w1, c, 1)
    ensures |w1.calls| == |w.calls| && w1.calls[c].ship == w.calls[c].ship && w1.calls[c].frame == w.calls[c].frame
    ensures w.calls[c].ship in w1.ships && w1.ships[w.calls[c].ship].ackTimeout == w.ships[w.calls[c].ship].ackTimeout
  {
  }

  lemma OneMoreAttempt(w: World, w1: World, w2: World, c: nat, sent: nat)
    requires c < |w.calls| && OnlyCall(w, w1, c, 1) && c < |w1.calls| && OnlyCall(w1, w2, c, sent)
    ensures OnlyCall(w, w2, c, sent + 1)
  {
    assert w2.calls == w.calls[c := w.calls[c].(phase := w2.calls[c].phase, aired := w2.calls[c].aired)];
    assert w1.calls[c].aired <= w2.calls[c].aired && w1.airings <= w2.airings;
  }

  // ---- An ordinary answered call --------------------------------------------------------------------

  lemma FlightInBackground(w: World, x: nat, answers: Pc -> Env)
    requires x < |w.airings| && w.airings[x].call < |w.calls|
    ensures Background(Flight(w, x, answers))
  {
    Queued(w, x);
    hide ServeAll;
    ServingInBackground(Next(w, Arrive(x)).engine, |w.engine.jobs|, answers);
  }

  lemma {:induction false} ServingInBackground(e: Engine, j: nat, answers: Pc -> Env)
    requires j < |e.jobs|
    ensures Background(ServeAll(e, j, answers))
    decreases SimulationEngine.Rank(e.jobs[j].pc)
  {
    if e.jobs[j].pc != Done {
      var env := answers(e.jobs[j].pc);
      SimulationEngine.Descends(e.jobs[j].request, e.jobs[j].pc, e.store, env);
      ServingInBackground(Apply(e, Work(j, env)), j, answers);
      hide Perform;
    }
  }
}
