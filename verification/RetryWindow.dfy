/** When a retry burst outlasts the dedup window: whole fleet runs in which one transmit call is delivered twice. */
module RetryWindow {
  import opened MeshGraph
  import opened Protocol
  import opened Decimal
  import opened StateStore
  import opened Ether
  import opened ShipNode
  import opened Fleet
  import opened FleetResults
  import opened Schedules
  import opened SimulationEngine
  import Schema

  const PARAMS := SessionParams(12, 14, 0.0)
  // The frame gets through but the edge's ACK does not; the frame does not get through either.
  const CLEAR := Env(Some(PARAMS), EdgeTarget, Found, Found, true, false, false, true, false, None, Schema.Garbage)
  const NOISY := Env(Some(PARAMS), EdgeTarget, Found, Found, true, true, false, true, false, None, Schema.Garbage)

  function Clearly(): Pc -> Env { pc => CLEAR }
  function Noisily(): Pc -> Env { pc => NOISY }

  function Routine(): Ship { OnRoutingUpdate(Fresh("A"), "E", true, Routed) }
  function Frame(): TransmitPacket { Telemetry(Routine(), [7]) }

  // Ship A has aired its frame n times, every `wait` ms, and has waited `late` ms since.
  ghost predicate Aired(w: World, timeout: int, wait: nat, n: nat, late: nat) {
    && n > 0 && Now(w) == wait * (n - 1) + late
    && "A" in w.ships && w.ships["A"].ackTimeout == timeout
    && |w.calls| == 1 && w.calls[0] == Call("A", Frame(), Waiting(wait * (n - 1), timeout, false), w.calls[0].aired)
    && |w.calls[0].aired| == n && |w.airings| == n
    && forall k :: 0 <= k < n ==> w.calls[0].aired[k] == k && w.airings[k] == Airing(0, k, wait * k, timeout)
  }

  ghost predicate SameEther(w: World, w': World) {
    w'.engine.log == w.engine.log && w'.engine.store.dedup == w.engine.store.dedup
  }

  function Retry(wait: nat): seq<Action> { [Action.Pass(wait)] + [Expire(0)] + [Air(0)] }

  lemma RetryStep(w: World, timeout: int, wait: nat, n: nat)
    requires Aired(w, timeout, wait, n, 0) && n <= MAX_RETRIES && wait >= timeout + RETRY_GUARD
    ensures var w' := Next(Next(Next(w, Action.Pass(wait)), Expire(0)), Air(0));
      Aired(w', timeout, wait, n + 1, 0) && SameEther(w, w')
  {
    var w1 := Next(w, Action.Pass(wait));
    assert w1.calls == w.calls && w1.ships == w.ships && Now(w1) == Now(w) + wait;
    assert wait * n == wait * (n - 1) + wait;
    var w2 := Next(w1, Expire(0));
    assert CanExpire(w1, 0);
    assert w2 == ExpireCall(w1, 0);
    hide Frame;
    assert CanAir(w2, 0);
  }

  lemma RetryOn(w: World, timeout: int, wait: nat, n: nat)
    requires Aired(w, timeout, wait, n, 0) && n <= MAX_RETRIES && wait >= timeout + RETRY_GUARD
    ensures var w' := Follow(w, Retry(wait)); Aired(w', timeout, wait, n + 1, 0) && SameEther(w, w')
  {
    hide Follow, Next, Aired, SameEther;
    var pass := Action.Pass(wait);
    FollowOn(w, [pass] + [Expire(0)], [Air(0)]);
    FollowOn(w, [pass], [Expire(0)]);
    FollowOne(w, pass);
    FollowOne(Next(w, pass), Expire(0));
    FollowOne(Next(Next(w, pass), Expire(0)), Air(0));
    RetryStep(w, timeout, wait, n);
  }

  lemma Linger(w: World, timeout: int, wait: nat, n: nat, late: nat)
    requires Aired(w, timeout, wait, n, 0)
    ensures var w' := Follow(w, [Action.Pass(late)]); Aired(w', timeout, wait, n, late) && SameEther(w, w')
  {
    hide Follow, Frame;
    FollowOne(w, Action.Pass(late));
  }

  // ---- One frame all the way to the edge ------------------------------------------------------

  function Sent(x: nat): Request { Transmit("A", Frame(), x) }

  // What the delivery of the x-th airing leaves in the log, and what a loss does.
  function Trace(x: nat, now: int): seq<Output>
    requires |Frame().routingPath| > 0
  {
    var key := FrameKey(Frame());
    [Survived(key, Transmitter(Frame())), Admitted(key, now, x),
      Delivered(key, RowOf(Frame(), CLEAR), true, x, now, now),
     Notice(DeliverEvent, Frame()),
     Event(PacketEvent(AckDropEvent, Frame().packetId, Frame().targetParent, Transmitter(Frame()), None))]
  }

  function Loss(): Output
    requires |Frame().routingPath| > 0
  {
    DropNotice(Frame(), AirLoss)
  }

  lemma Sound(x: nat)
    ensures PassesAir(Sent(x), PARAMS, true, Clearly())
    ensures ScreenFrame("A", Frame(), NOISY) == CountTransmit(PARAMS)
      && JudgeFrame(Frame(), PARAMS, NOISY) == Drop(AirLoss)
    ensures |Frame().routingPath| > 0 && FrameKey(Frame()).receiver == "E"
  {
    assert Digits(1) == "1";
    assert PacketId("A", 1) == "pkt-A-" + Padded(1);
  }

  lemma DeliveredOnce(s: Store, log: seq<Output>, x: nat)
    requires |Frame().routingPath| > 0 && !Seen(s, FrameKey(Frame()))
    ensures var (s', log') := HandledEnd(s, log, Sent(x), true, Clearly());
      && log' == log + Trace(x, s.now) && s'.now == s.now && s'.dedup == s.dedup[FrameKey(Frame()) := s.now + DEDUP_TTL]
  {
    hide Frame, RowOf, Notice, Transmitter;
    assert Clearly()(EdgeReply) == CLEAR && Clearly()(Persist(s.now)) == CLEAR;
    var key := FrameKey(Frame());
    var t := Trace(x, s.now);
    assert log + [t[0]] + [t[1]] + [t[2]] + [t[3]] + [t[4]] == log + t;
  }

  ghost predicate DeliveredNow(w: World, w': World, x: nat)
    requires |Frame().routingPath| > 0
  {
    && w'.engine.log == w.engine.log + Trace(x, Now(w))
    && w'.engine.store.dedup == w.engine.store.dedup[FrameKey(Frame()) := Now(w) + DEDUP_TTL]
  }

  lemma FlightStep(w: World, timeout: int, wait: nat, n: nat, late: nat, x: nat)
    requires Aired(w, timeout, wait, n, late) && x < n && !Seen(w.engine.store, FrameKey(Frame()))
    ensures |Frame().routingPath| > 0
    ensures w.airings[x].call < |w.calls|
    ensures var w' := Follow(w, Flight(w, x, Clearly())); Aired(w', timeout, wait, n, late) && DeliveredNow(w, w', x)
  {
    hide Follow, Flight, Drain, HandledEnd, Frame, Trace, Seen, FrameKey, PassesAir;
    Sound(x);
    Flown(w, x, Clearly());
    assert RequestOf(w, x) == Sent(x);
    HandledStretch(w.engine.store, w.engine.log, Sent(x), PARAMS, true, Clearly());
    DeliveredOnce(w.engine.store, w.engine.log, x);
  }

  // The x-th airing is lost in the air.
  lemma LossStep(w: World, timeout: int, wait: nat, n: nat, x: nat)
    requires Aired(w, timeout, wait, n, 0) && x < n && |Frame().routingPath| > 0
    ensures w.airings[x].call < |w.calls|
    ensures var w' := Follow(w, Flight(w, x, Noisily()));
      && Aired(w', timeout, wait, n, 0) && w'.engine.log == w.engine.log + [Loss()]
      && w'.engine.store.dedup == w.engine.store.dedup
  {
    hide Follow, Flight, Drain, Frame, Loss, ScreenFrame, JudgeFrame;
    Sound(x);
    Flown(w, x, Noisily());
    assert RequestOf(w, x) == Sent(x) && Noisily()(Screen) == NOISY && Noisily()(Judge(PARAMS)) == NOISY;
    DroppedStretch(w.engine.store, w.engine.log, Sent(x), PARAMS, AirLoss, Noisily());
    LossIs();
  }

  lemma LossIs()
    requires |Frame().routingPath| > 0
    ensures Loss() == DropNotice(Frame(), AirLoss)
  {
  }

  // A retry that is lost.
  lemma LostRetry(w: World, timeout: int, wait: nat, n: nat) returns (actions: seq<Action>)
    requires Aired(w, timeout, wait, n, 0) && n <= MAX_RETRIES && wait >= timeout + RETRY_GUARD
      && |Frame().routingPath| > 0
    ensures var w' := Follow(w, actions);
      && Aired(w', timeout, wait, n + 1, 0) && w'.engine.log == w.engine.log + [Loss()]
      && w'.engine.store.dedup == w.engine.store.dedup
  {
    hide Follow, Aired, Retry, Flight, Frame, Loss;
    RetryOn(w, timeout, wait, n);
    var w1 := Follow(w, Retry(wait));
    InOrder(w1, timeout, wait, n + 1, 0);
    LossStep(w1, timeout, wait, n + 1, n);
    actions := Retry(wait) + Flight(w1, n, Noisily());
    FollowOn(w, Retry(wait), Flight(w1, n, Noisily()));
  }

  function Opening(timeout: int): seq<Action> {
    [Join("A")] + [Route("A", "E", true, Routed)] + [Params("A", timeout, 51)] + [Report("A", [7], false)] + [Air(0)]
  }

  lemma Opened(timeout: int, wait: nat)
    requires timeout > 0
    ensures Aired(Play(Opening(timeout)), timeout, wait, 1, 0) && Play(Opening(timeout)).engine == INIT
  {
    hide Next, Aired, Follow, Play;
    var a, b, c := [Join("A")], [Route("A", "E", true, Routed)], [Params("A", timeout, 51)];
    var d, e := [Report("A", [7], false)], [Air(0)];
    PlayOn(a + b + c + d, e);
    PlayOn(a + b + c, d);
    PlayOn(a + b, c);
    PlayOn(a, b);
    PlayOn([], a);
    assert [] + a == a;
    Genesis();
    FollowOne(GENESIS, a[0]);
    FollowOne(Play(a), b[0]);
    FollowOne(Play(a + b), c[0]);
    FollowOne(Play(a + b + c), d[0]);
    FollowOne(Play(a + b + c + d), e[0]);
    FirstShip(timeout);
    FirstFrame(Play(a + b + c), timeout, wait);
  }

  lemma Genesis()
    ensures Play([]) == GENESIS
  {
  }

  lemma FirstShip(timeout: int)
    requires timeout > 0
    ensures Next(Next(Next(GENESIS, Join("A")), Route("A", "E", true, Routed)), Params("A", timeout, 51))
         == World(map["A" := OnSyncParams(Routine(), timeout, 51)], [], [], INIT)
  {
  }

  lemma FirstFrame(w: World, timeout: int, wait: nat)
    requires timeout > 0 && w == World(map["A" := OnSyncParams(Routine(), timeout, 51)], [], [], INIT)
    ensures var w' := Next(Next(w, Report("A", [7], false)), Air(0));
      Aired(w', timeout, wait, 1, 0) && w'.engine == INIT
  {
    hide Frame, Originate, OnSyncParams, Routine, Listen, Aired;
    FirstReport(timeout);
    var s := Originate(OnSyncParams(Routine(), timeout, 51), [7], false).0;
    var w4 := World(map["A" := s], [Call("A", Frame(), Ready, [])], [], INIT);
    assert Next(w, Report("A", [7], false)) == w4 by { assert w.ships["A" := s] == map["A" := s]; }
    FirstAiring(w4, timeout, wait);
  }

  lemma FirstReport(timeout: int)
    requires timeout > 0
    ensures var (s, f) := Originate(OnSyncParams(Routine(), timeout, 51), [7], false);
      s.id == "A" && s.ackTimeout == timeout && f == Some(Frame())
  {
    hide PacketId;
  }

  lemma FirstAiring(w: World, timeout: int, wait: nat)
    requires "A" in w.ships && w.ships["A"].ackTimeout == timeout
    requires w.calls == [Call("A", Frame(), Ready, [])] && w.airings == [] && w.engine == INIT
    ensures var w' := Next(w, Air(0)); Aired(w', timeout, wait, 1, 0) && w'.engine == INIT
  {
    hide Frame;
    assert CanAir(w, 0);
    assert wait * 0 == 0;
  }

  // The first airing is delivered at once but its ACK is lost, the next two are lost in the air, and the fourth is
  // delivered `queue` ms after it was made.
  lemma DeliveredTwice(timeout: int, timer: nat, queue: nat) returns (actions: seq<Action>)
    requires timeout > 0 && MAX_RETRIES * (timeout + RETRY_GUARD + timer) + queue >= DEDUP_TTL
    ensures |Play(actions).calls| > 0 && Prompt(Play(actions), 0, timeout, timer, queue)
    ensures PassedFor(Play(actions), 0, 2) && PassedFor(Play(actions), 0, 9)
  {
    hide Play, Follow, Frame, FrameKey, Aired, Trace, Flight, Opening, Retry, DeliveredNow, EMPTY, Loss;
    var wait := timeout + RETRY_GUARD + timer;
    Opened(timeout, wait);
    var w0 := Play(Opening(timeout));
    EarlyAndLate(w0, wait, queue);
    FlightStep(w0, timeout, wait, 1, 0, 0);
    InOrder(w0, timeout, wait, 1, 0);
    var a1 := Flight(w0, 0, Clearly());
    var w1 := Follow(w0, a1);
    var a2 := LostRetry(w1, timeout, wait, 1);
    var w2 := Follow(w1, a2);
    var a3 := LostRetry(w2, timeout, wait, 2);
    var w3 := Follow(w2, a3);
    RetryOn(w3, timeout, wait, 3);
    var a4 := Retry(wait);
    var w4 := Follow(w3, a4);
    Linger(w4, timeout, wait, 4, queue);
    var a5 := [Action.Pass(queue)];
    var w5 := Follow(w4, a5);
    InOrder(w5, timeout, wait, 4, queue);
    FreeAgain(w0, w1, w5, wait, queue);
    FlightStep(w5, timeout, wait, 4, queue, 3);
    var a6 := Flight(w5, 3, Clearly());
    PlayOn(Opening(timeout), a1);
    PlayOn(Opening(timeout) + a1, a2);
    PlayOn(Opening(timeout) + a1 + a2, a3);
    PlayOn(Opening(timeout) + a1 + a2 + a3, a4);
    PlayOn(Opening(timeout) + a1 + a2 + a3 + a4, a5);
    PlayOn(Opening(timeout) + a1 + a2 + a3 + a4 + a5, a6);
    actions := Opening(timeout) + a1 + a2 + a3 + a4 + a5 + a6;
    LogOfBoth(w0, w1, w5, Follow(w5, a6));
    OnTime(Play(actions), timeout, timer, queue);
  }

  lemma EarlyAndLate(w: World, wait: nat, queue: nat)
    requires w.engine == INIT
    ensures !Seen(w.engine.store, FrameKey(Frame())) && Now(w) == 0 && w.engine.log == []
  {
    hide Frame;
  }

  lemma InOrder(w: World, timeout: int, wait: nat, n: nat, late: nat)
    requires Aired(w, timeout, wait, n, late)
    ensures Now(w) == wait * (n - 1) + late && |w.airings| == n && |w.calls| == 1 && forall k :: 0 <= k < n ==>
      w.airings[k].call == 0
  {
  }

  lemma FreeAgain(w0: World, w1: World, w3: World, wait: nat, queue: nat)
    requires |Frame().routingPath| > 0 && DeliveredNow(w0, w1, 0) && w3.engine.store.dedup == w1.engine.store.dedup
    requires Now(w0) == 0 && Now(w3) == wait * 3 + queue && 3 * wait + queue >= DEDUP_TTL
    ensures !Seen(w3.engine.store, FrameKey(Frame()))
  {
    hide Frame;
  }

  lemma LogOfBoth(w0: World, w1: World, w5: World, w6: World)
    requires |Frame().routingPath| > 0 && w0.engine.log == [] && w5.engine.log == w1.engine.log + [Loss()] + [Loss()]
    requires DeliveredNow(w0, w1, 0) && DeliveredNow(w5, w6, 3)
    ensures w6.engine.log == Trace(0, Now(w0)) + [Loss()] + [Loss()] + Trace(3, Now(w5))
  {
    hide Frame, Trace;
    assert [] + Trace(0, Now(w0)) == Trace(0, Now(w0));
  }

  lemma OnTime(w: World, timeout: int, timer: nat, queue: nat)
    requires timeout > 0 && Aired(w, timeout, timeout + RETRY_GUARD + timer, 4, queue) && |Frame().routingPath| > 0
    requires w.engine.log
      == Trace(0, 0) + [Loss()] + [Loss()] + Trace(3, (timeout + RETRY_GUARD + timer) * 3 + queue)
    ensures |w.calls| > 0 && Prompt(w, 0, timeout, timer, queue) && PassedFor(w, 0, 2) && PassedFor(w, 0, 9)
  {
    hide Frame, RowOf, Notice, Transmitter, Trace;
    var wait := timeout + RETRY_GUARD + timer;
    assert wait * 1 == wait * 0 + wait && wait * 2 == wait * 1 + wait && wait * 3 == wait * 2 + wait;
    TraceAdmits(0, 0);
    TraceAdmits(3, wait * 3 + queue);
  }

  lemma TraceAdmits(x: nat, now: int)
    requires |Frame().routingPath| > 0
    ensures var t := Trace(x, now);
      && |t| == 5 && t[1].Admitted? && t[1].at == now && t[1].tag == x && t[2].Delivered? && t[2].tag == x
      && !t[0].Admitted? && !t[2].Admitted? && !t[3].Admitted? && !t[4].Admitted?
  {
    hide Frame, RowOf, Transmitter;
  }

  // ---- Exactly when a call is forwarded or delivered at most once -------------------------------------------

  // In no run is a call that keeps to these limits forwarded or delivered twice.
  ghost predicate NeverTwice(timeout: int, timer: int, queue: int) {
    forall actions, c: nat, i, j ::
      (c < |Play(actions).calls| && Prompt(Play(actions), c, timeout, timer, queue)
       && PassedFor(Play(actions), c, i) && PassedFor(Play(actions), c, j)) ==> i == j
  }

  /** One transmitWithRetry call causes at most one forward or delivery, in every run, iff its four attempts fit the
      dedup window. */
  lemma NeverTwiceIff(timeout: int, timer: nat, queue: nat)
    requires timeout > 0
    ensures NeverTwice(timeout, timer, queue) <==> 3 * (timeout + 500 + timer) + queue < 30000
  {
    hide Play, Prompt, PassedFor;
    if MAX_RETRIES * (timeout + RETRY_GUARD + timer) + queue < DEDUP_TTL {
      forall actions, c: nat, i, j
        | c < |Play(actions).calls| && Prompt(Play(actions), c, timeout, timer, queue)
          && PassedFor(Play(actions), c, i) && PassedFor(Play(actions), c, j)
        ensures i == j
      {
        OnePassagePerBurst(actions, c, timeout, timer, queue);
      }
    } else {
      var actions := DeliveredTwice(timeout, timer, queue);
    }
  }

  /** With the default timeouts and no slack at all that is every spreading factor but SF12: 3 x 10.5 s = 31.5 s. */
  lemma OnlySf12Repeats(sf: int)
    ensures NeverTwice(AckTimeout(sf), 0, 0) <==> sf < 12
  {
    hide NeverTwice;
    NeverTwiceIff(AckTimeout(sf), 0, 0);
  }

  /** How long a frame may stay queued at each spreading factor, timers being exact, is exactly this. */
  lemma QueueRoom(sf: int, queue: nat)
    requires 7 <= sf <= 11
    ensures NeverTwice(AckTimeout(sf), 0, queue) <==>
      queue < if sf == 7 then 25500 else if sf == 8 then 24000 else if sf == 9 then 21000 else if sf == 10 then 16500
              else 9000
  {
    hide NeverTwice;
    NeverTwiceIff(AckTimeout(sf), 0, queue);
  }

  // ---- The spacing of deliveries is exactly the TTL less the handlers' delay ------------------------------

  lemma OneStep(steps: seq<Step>, step: Step)
    ensures Run(steps + [step]) == Apply(Run(steps), step)
  {
    assert (steps + [step])[..|steps|] == steps;
  }

  // A frame queued behind j jobs is screened, counted, judged and claims its key.
  function Claiming(j: nat): seq<Step> {
    [Submit(Sent(0))] + [Work(j, CLEAR)] + [Work(j, CLEAR)] + [Work(j, CLEAR)] + [Work(j, CLEAR)]
  }

  lemma Claimed(steps: seq<Step>)
    requires |Frame().routingPath| > 0 && !Seen(Run(steps).store, FrameKey(Frame()))
    ensures var e, e' := Run(steps), Run(steps + Claiming(|Run(steps).jobs|));
      && e'.jobs == e.jobs + [Job(Sent(0), Persist(e.store.now))] && e'.store.now == e.store.now
      && e'.store.dedup == e.store.dedup[FrameKey(Frame()) := e.store.now + DEDUP_TTL]
      && |e'.log| == |e.log| + 2 && e.log <= e'.log
  {
    hide Run, Apply, Frame, FrameKey, Seen, ScreenFrame, JudgeFrame, PassesAir;
    Sound(0);
    var e := Run(steps);
    var j, work := |e.jobs|, Work(|e.jobs|, CLEAR);
    var s1 := steps + [Submit(Sent(0))];
    var s2 := s1 + [work];
    var s3 := s2 + [work];
    var s4 := s3 + [work];
    OneStep(steps, Submit(Sent(0)));
    OneStep(s1, work);
    OneStep(s2, work);
    OneStep(s3, work);
    OneStep(s4, work);
    assert steps + Claiming(j) == s4 + [work];
    Claims(e);
  }

  lemma Claims(e: Engine)
    requires |Frame().routingPath| > 0 && !Seen(e.store, FrameKey(Frame()))
    requires ScreenFrame("A", Frame(), CLEAR) == CountTransmit(PARAMS)
      && JudgeFrame(Frame(), PARAMS, CLEAR) == Verdict.Pass(true)
    ensures var work := Work(|e.jobs|, CLEAR);
      var e' := Apply(Apply(Apply(Apply(Apply(e, Submit(Sent(0))), work), work), work), work);
      && e'.jobs == e.jobs + [Job(Sent(0), Persist(e.store.now))] && e'.store.now == e.store.now
      && e'.store.dedup == e.store.dedup[FrameKey(Frame()) := e.store.now + DEDUP_TTL]
      && |e'.log| == |e.log| + 2 && e.log <= e'.log
  {
    hide Frame, ScreenFrame, JudgeFrame, FrameKey, Seen, SenderName, Apply, Perform, Incr, MarkSeen;
    var js, key, r := e.jobs, FrameKey(Frame()), Sent(0);
    var s1 := Incr(e.store, TransmitTotal);
    SameKeys(e.store, key);
    Verdicts(e.store);
    Verdicts(s1);
    Submitted(e, r);
    LastWork(Apply(e, Submit(r)), js, r, Screen);
    var e2 := Engine(e.store, js + [Job(r, CountTransmit(PARAMS))], e.log + []);
    LastWork(e2, js, r, CountTransmit(PARAMS));
    var e3 := Engine(s1, js + [Job(r, Judge(PARAMS))], e.log + [] + []);
    LastWork(e3, js, r, Judge(PARAMS));
    var e4 := Engine(s1, js + [Job(r, Dedup(true))], e.log + [] + [] + [Survived(key, SenderName(r))]);
    LastWork(e4, js, r, Dedup(true));
    KeyMarked(e.store, key);
  }

  lemma Submitted(e: Engine, r: Request)
    ensures Apply(e, Submit(r)) == e.(jobs := e.jobs + [Job(r, Start(r))])
  {
  }

  lemma KeyMarked(s: Store, key: Key)
    requires !Seen(s, key)
    ensures var t := MarkSeen(Incr(s, TransmitTotal), key);
      t.now == s.now && t.dedup == s.dedup[key := s.now + DEDUP_TTL] && Incr(s, TransmitTotal).now == s.now
  {
  }

  lemma LastWork(e: Engine, js: seq<Job>, r: Request, pc: Pc)
    requires e.jobs == js + [Job(r, pc)]
    ensures var x := Perform(r, pc, e.store, CLEAR);
      Apply(e, Work(|js|, CLEAR)) == Engine(x.store, js + [Job(r, x.pc)], e.log + x.out)
  {
    hide Perform;
    var x := Perform(r, pc, e.store, CLEAR);
    assert (js + [Job(r, pc)])[|js| := Job(r, x.pc)] == js + [Job(r, x.pc)];
  }

  lemma Verdicts(s: Store)
    requires |Frame().routingPath| > 0
    requires ScreenFrame("A", Frame(), CLEAR) == CountTransmit(PARAMS)
      && JudgeFrame(Frame(), PARAMS, CLEAR) == Verdict.Pass(true)
    ensures var r, key := Sent(0), FrameKey(Frame());
      && Perform(r, Screen, s, CLEAR) == Effect(s, CountTransmit(PARAMS), [])
      && Perform(r, CountTransmit(PARAMS), s, CLEAR) == Effect(Incr(s, TransmitTotal), Judge(PARAMS), [])
      && Perform(r, Judge(PARAMS), s, CLEAR) == Effect(s, Dedup(true), [Survived(key, SenderName(r))])
      && (!Seen(s, key) ==>
        Perform(r, Dedup(true), s, CLEAR) == Effect(MarkSeen(s, key), Persist(s.now), [Admitted(key, s.now, 0)]))
  {
    hide Frame, ScreenFrame, JudgeFrame, FrameKey, Seen, SenderName, Incr, MarkSeen;
  }

  lemma Passing(e: Engine, j: nat, since: int)
    requires j < |e.jobs| && e.jobs[j] == Job(Sent(0), Persist(since))
    ensures var e' := Apply(e, Work(j, CLEAR));
      && e'.store == e.store && |e'.jobs| == |e.jobs| && |e'.log| == |e.log| + 1 && e.log <= e'.log
      && e'.log[|e.log|].Delivered? && e'.log[|e.log|].key == FrameKey(Frame())
      && e'.log[|e.log|].since == since && e'.log[|e.log|].at == e.store.now
  {
    hide Frame, RowOf, FrameKey;
  }

  /** For every d up to the TTL a run exists in which a handler takes d from its claim to its delivery and the next
      delivery of the same packet to the same edge follows after exactly the TTL less d: PassagesSpaced is tight. */
  lemma SpacingAttained(d: nat) returns (steps: seq<Step>, i: nat, j: nat)
    requires d <= 30000
    ensures var log := Run(steps).log;
      && i < j < |log| && log[i].Delivered? && log[j].Delivered? && log[i].key == log[j].key
      && log[i].at - log[i].since == d && log[j].at == log[j].since
      && log[j].at - log[i].at == 30000 - d
  {
    hide Run, Apply, Frame, Claiming, FrameKey;
    Sound(0);
    AtStart();
    Claimed([]);
    var a1 := [] + Claiming(0);
    var a2 := a1 + [Tick(d)];
    OneStep(a1, Tick(d));
    Waited(Run(a1), d);
    var a3 := a2 + [Work(0, CLEAR)];
    OneStep(a2, Work(0, CLEAR));
    Passing(Run(a2), 0, 0);
    i := |Run(a2).log|;
    var a4 := a3 + [Tick(DEDUP_TTL - d)];
    OneStep(a3, Tick(DEDUP_TTL - d));
    Waited(Run(a3), DEDUP_TTL - d);
    KeyLapsed(Run(a4));
    Claimed(a4);
    var a5 := a4 + Claiming(1);
    steps := a5 + [Work(1, CLEAR)];
    OneStep(a5, Work(1, CLEAR));
    Passing(Run(a5), 1, DEDUP_TTL);
    j := |Run(a5).log|;
  }

  lemma AtStart()
    ensures Run([]) == INIT && INIT.store.now == 0 && INIT.jobs == [] && !Seen(INIT.store, FrameKey(Frame()))
  {
    hide Frame, FrameKey;
  }

  lemma Waited(e: Engine, ms: nat)
    ensures Apply(e, Tick(ms)) == e.(store := e.store.(now := e.store.now + ms))
  {
  }

  lemma KeyLapsed(e: Engine)
    requires FrameKey(Frame()) in e.store.dedup && e.store.dedup[FrameKey(Frame())] <= e.store.now
    ensures !Seen(e.store, FrameKey(Frame()))
  {
    hide Frame, FrameKey;
  }
}
