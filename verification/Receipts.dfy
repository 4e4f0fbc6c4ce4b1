/** What kinds of ACK prove that the receiver really got the packet. */
module Receipts {
  import opened MeshGraph
  import opened Protocol
  import opened Decimal
  import opened StateStore
  import opened Ether
  import opened ShipNode
  import opened Fleet
  import opened FleetResults
  import opened Schedules
  import opened SimulationEngine
  import opened EtherOrder
  import opened Sums
  import Schema

  // Action n is ship id taking in a frame of the packet: its node:ack is the first thing it does with one.
  ghost predicate HeardAt(actions: seq<Action>, n: int, id: string, packetId: string) {
    && 0 <= n < |actions| && actions[n].SendNodeAck? && actions[n].id == id
    && Received(Play(actions[..n]), id, actions[n].i)
      && Play(actions[..n]).engine.log[actions[n].i].pkt.packetId == packetId
  }

  ghost predicate HeardBy(actions: seq<Action>, id: string, packetId: string) {
    exists n :: HeardAt(actions, n, id, packetId)
  }

  // Before entry i of the log was written, the ship had taken the packet in.
  ghost predicate HeardBefore(actions: seq<Action>, i: int, id: string, packetId: string) {
    exists m :: HeardWithin(actions, m, i, id, packetId)
  }

  ghost predicate HeardWithin(actions: seq<Action>, m: int, i: int, id: string, packetId: string) {
    0 <= m <= |actions| && |Play(actions[..m]).engine.log| <= i && HeardBy(actions[..m], id, packetId)
  }

  // Before entry i of the log an edge was delivered the packet, or the ship had taken it in.
  ghost predicate Receipt(actions: seq<Action>, i: int, key: Key)
    requires 0 <= i <= |Play(actions).engine.log|
  {
    DeliveredIn(Play(actions).engine.log[..i], key) || HeardBefore(actions, i, key.receiver, key.packetId)
  }

  // ---- Relayed ACKs come from ships that heard ------------------------------------------------

  ghost predicate RelaysHeard(actions: seq<Action>, e: Engine) {
    && (forall j :: 0 <= j < |e.jobs| && e.jobs[j].request.Ack? ==>
      HeardBy(actions, e.jobs[j].request.receiver, e.jobs[j].request.packetId))
    && (forall i :: 0 <= i < |e.log| && e.log[i].AckSent? && e.log[i].kind == Relayed
          ==> HeardBefore(actions, i, e.log[i].key.receiver, e.log[i].key.packetId))
  }

  lemma HeardBeforeStays(actions: seq<Action>, a: Action, i: int, id: string, packetId: string)
    requires HeardBefore(actions, i, id, packetId)
    ensures HeardBefore(actions + [a], i, id, packetId)
  {
    hide Play, HeardBy;
    var m :| HeardWithin(actions, m, i, id, packetId);
    assert (actions + [a])[..m] == actions[..m];
    assert HeardWithin(actions + [a], m, i, id, packetId);
  }

  lemma HeardBeforeNow(actions: seq<Action>, a: Action, id: string, packetId: string)
    requires HeardBy(actions, id, packetId)
    ensures HeardBefore(actions + [a], |Play(actions).engine.log|, id, packetId)
  {
    hide Play, HeardBy;
    assert (actions + [a])[..|actions|] == actions;
    assert HeardWithin(actions + [a], |actions|, |Play(actions).engine.log|, id, packetId);
  }

  lemma HeardStays(actions: seq<Action>, a: Action, id: string, packetId: string)
    requires HeardBy(actions, id, packetId)
    ensures HeardBy(actions + [a], id, packetId)
  {
    hide Play;
    var n :| HeardAt(actions, n, id, packetId);
    assert (actions + [a])[..n] == actions[..n];
    assert HeardAt(actions + [a], n, id, packetId);
  }

  lemma HeardNow(actions: seq<Action>, id: string, i: nat)
    requires Received(Play(actions), id, i)
    ensures HeardBy(actions + [SendNodeAck(id, i)], id, Play(actions).engine.log[i].pkt.packetId)
  {
    hide Play;
    var next := actions + [SendNodeAck(id, i)];
    assert next[..|actions|] == actions;
    assert HeardAt(next, |actions|, id, Play(actions).engine.log[i].pkt.packetId);
  }

  lemma StepRelaysOwn(r: Request, pc: Pc, s: Store, env: Env)
    ensures var out := Perform(r, pc, s, env).out;
      out != [] && out[0].AckSent? && out[0].kind == Relayed ==> r.Ack? && out[0].key == Key(r.packetId, r.receiver)
  {
    hide Count, Incr, JudgeFrame, Seen, MarkSeen, Forget, Remember, SenderOf, SenderName, RowOf, Validate, Transmitter,
         PacketOf, SenderOfJob, TagOf, ScreenFrame;
  }

  lemma {:induction false} AlwaysRelaysHeard(actions: seq<Action>)
    ensures RelaysHeard(actions, Play(actions).engine)
  {
    hide Play, HeardBy, HeardBefore, Next;
    if |actions| == 0 {
      Nothing();
    } else {
      var before, a := actions[..|actions| - 1], actions[|actions| - 1];
      assert before + [a] == actions;
      AlwaysRelaysHeard(before);
      var w := Play(before);
      LastAction(actions);
      forall id, p | HeardBy(before, id, p) ensures HeardBy(actions, id, p) { HeardStays(before, a, id, p); }
      forall i, id, p | HeardBefore(before, i, id, p)
        ensures HeardBefore(actions, i, id, p)
      {
        HeardBeforeStays(before, a, i, id, p);
      }
      forall id, p | HeardBy(before, id, p)
        ensures HeardBefore(actions, |w.engine.log|, id, p)
      {
        HeardBeforeNow(before, a, id, p);
      }
      if a.SendNodeAck? && Received(w, a.id, a.i) { HeardNow(before, a.id, a.i); }
      EngineStep(w, a);
      if a.Serve? && a.job < |w.engine.jobs| {
        StepRelaysOwn(w.engine.jobs[a.job].request, w.engine.jobs[a.job].pc, w.engine.store, a.env);
      }
      hide Perform;
    }
  }

  lemma Nothing()
    ensures Play([]).engine == INIT
  {
  }

  lemma LastAction(actions: seq<Action>)
    requires |actions| > 0
    ensures Play(actions) == Next(Play(actions[..|actions| - 1]), actions[|actions| - 1])
  {
  }

  // What an action may do to jobs and log.
  lemma EngineStep(w: World, a: Action)
    ensures var e, e' := w.engine, Next(w, a).engine;
      if a.Serve? && a.job < |e.jobs| then
        var x := Perform(e.jobs[a.job].request, e.jobs[a.job].pc, e.store, a.env);
        e'.jobs == e.jobs[a.job := e.jobs[a.job].(pc := x.pc)] && e'.log == e.log + x.out
      else
        && e'.log == e.log && e.jobs <= e'.jobs
        && forall j :: |e.jobs| <= j < |e'.jobs| && e'.jobs[j].request.Ack? ==>
             a.SendNodeAck? && Received(w, a.id, a.i) && e'.jobs[j].request == Ack(a.id, e.log[a.i].pkt.packetId)
  {
    hide Perform, Receive, Originate, AckShip, Listen, StopListening, Start, Fresh;
    if a.HearAck? && CanHearAck(w, a.id, a.i) { AckChangesPhases(w, a.id, a.i); }
  }

  /** In every run an edge's own ACK follows the delivery, and a relayed one a ship that took the packet in. */
  lemma KindProves(actions: seq<Action>, i: nat)
    requires i < |Play(actions).engine.log| && Play(actions).engine.log[i].AckSent?
      && Play(actions).engine.log[i].kind != Replayed
    ensures Receipt(actions, i, Play(actions).engine.log[i].key)
  {
    hide Play, StepsOf, HeardBefore, Run;
    var log := Play(actions).engine.log;
    AlwaysRelaysHeard(actions);
    EngineRun(actions);
    if log[i].kind == FromEdge {
      EdgeAcksFollowDelivery(StepsOf(actions));
      assert DeliveredIn(log[..i], log[i].key);
    }
  }

  // ---- A replayed ACK proves nothing -----------------------------------------------------------

  const PARAMS := SessionParams(7, 14, 0.0)
  const OVER := Env(Some(PARAMS), ShipTarget, Found, Found, true, false, false, false, false, None, Schema.Garbage)
  const WAIT := 2500

  function Over(): Pc -> Env { pc => OVER }
  function Frame(): TransmitPacket { Telemetry(OnRoutingUpdate(Fresh("A"), "B", false, Routed), [7]) }
  function Sent(x: nat): Request { Transmit("A", Frame(), x) }

  // B has not met A's only packet, nothing was delivered, and A's call stands after n airings.
  ghost predicate Unheard(w: World, n: nat) {
    && w.ships.Keys == {"A", "B"} && w.ships["B"] == Fresh("B") && w.ships["A"].ackTimeout == 2000
    && |w.calls| == 1 && w.calls[0].ship == "A" && w.calls[0].frame == Frame() && |w.calls[0].aired| == n
    && |w.airings| == n && (forall x :: 0 <= x < n ==> w.airings[x].call == 0)
    && forall k :: !DeliveredIn(w.engine.log, k)
  }

  const OPENING := [Join("A")] + [Join("B")] + [Route("A", "B", false, Routed)] + [Report("A", [7], false)]

  lemma Opened()
    ensures var w := Play(OPENING); Unheard(w, 0) && w.calls[0].phase == Ready && w.engine == INIT
  {
    hide Next, Play, Follow, Unheard;
    var a, b, c, d := [Join("A")], [Join("B")], [Route("A", "B", false, Routed)], [Report("A", [7], false)];
    PlayOn(a + b + c, d);
    PlayOn(a + b, c);
    PlayOn(a, b);
    PlayOn([], a);
    assert [] + a == a;
    Genesis();
    FollowOne(GENESIS, a[0]);
    FollowOne(Play(a), b[0]);
    FollowOne(Play(a + b), c[0]);
    FollowOne(Play(a + b + c), d[0]);
    TwoShips();
  }

  lemma Genesis()
    ensures Play([]) == GENESIS
  {
  }

  lemma TwoShips()
    ensures var w := Next(Next(Next(Next(GENESIS, Join("A")), Join("B")), Route("A", "B", false, Routed)),
      Report("A", [7], false));
      Unheard(w, 0) && w.calls[0].phase == Ready && w.engine == INIT
  {
    var w := Next(Next(Next(GENESIS, Join("A")), Join("B")), Route("A", "B", false, Routed));
    assert w.ships == map["A" := OnRoutingUpdate(Fresh("A"), "B", false, Routed), "B" := Fresh("B")];
  }

  lemma AirOnce(w: World, n: nat)
    requires Unheard(w, n) && w.calls[0].phase == Ready
    ensures var w' := Next(w, Air(0));
      && Unheard(w', n + 1) && w'.calls[0].phase == Waiting(Now(w), 2000, false) && w'.engine == w.engine
      && Frame().packetId in w'.ships["A"].waiters && w'.ships["A"].waiters[Frame().packetId] == Ticket(0, n)
  {
    hide Frame, DeliveredIn;
  }

  lemma GiveUp(w: World, n: nat)
    requires Unheard(w, n) && 0 < n <= MAX_RETRIES && w.calls[0].phase == Waiting(Now(w), 2000, false)
    ensures var w' := Next(Next(w, Action.Pass(WAIT)), Expire(0));
      && Unheard(w', n) && w'.calls[0].phase == Ready && Now(w') == Now(w) + WAIT
      && w'.engine == w.engine.(store := w.engine.store.(now := Now(w) + WAIT))
  {
    hide Frame, DeliveredIn;
    Expired(w, 0, WAIT);
  }

  lemma Sound(x: nat)
    ensures PassesAir(Sent(x), PARAMS, false, Over())
    ensures |Frame().routingPath| > 0 && Transmitter(Frame()) == "A"
  {
    assert Digits(1) == "1";
    assert PacketId("A", 1) == "pkt-A-" + Padded(1);
  }

  // The first airing is forwarded to B, the second is filtered and answered.
  lemma Fly(w: World, n: nat, x: nat)
    requires Unheard(w, n) && x < n
    requires |Frame().routingPath| > 0
    ensures w.airings[x].call < |w.calls|
    ensures var w' := Follow(w, Flight(w, x, Over()));
      && Unheard(w', n) && w' == w.(engine := w'.engine)
      && (w'.engine.store, w'.engine.log) == HandledEnd(w.engine.store, w.engine.log, Sent(x), false, Over())
  {
    hide Follow, Flight, Drain, Frame, HandledEnd, PassesAir, DeliveredIn;
    Sound(x);
    Flown(w, x, Over());
    assert RequestOf(w, x) == Sent(x);
    HandledStretch(w.engine.store, w.engine.log, Sent(x), PARAMS, false, Over());
    var log' := HandledEnd(w.engine.store, w.engine.log, Sent(x), false, Over()).1;
    forall k ensures !DeliveredIn(log', k) { NoDelivery(w.engine.store, w.engine.log, x, k); }
  }

  lemma NoDelivery(s: Store, log: seq<Output>, x: nat, k: Key)
    requires |Frame().routingPath| > 0 && !DeliveredIn(log, k)
    ensures !DeliveredIn(HandledEnd(s, log, Sent(x), false, Over()).1, k)
  {
    hide Frame, Transmitter, Notice, FrameKey;
    var log' := HandledEnd(s, log, Sent(x), false, Over()).1;
    forall i | 0 <= i < |log'| ensures !(log'[i].Delivered? && log'[i].key == k) {
      if i < |log| { assert log'[i] == log[i]; } else { assert !log'[i].Delivered? by { NewOutputs(s, log, x, i); } }
    }
  }

  lemma NewOutputs(s: Store, log: seq<Output>, x: nat, i: nat)
    requires |Frame().routingPath| > 0
    requires |log| <= i < |HandledEnd(s, log, Sent(x), false, Over()).1|
    ensures !HandledEnd(s, log, Sent(x), false, Over()).1[i].Delivered?
  {
    hide Frame, Transmitter, FrameKey;
  }

  lemma KeyTaken(s: Store, log: seq<Output>)
    requires |Frame().routingPath| > 0 && FrameKey(Frame()) !in s.dedup
    ensures var s' := HandledEnd(s, log, Sent(0), false, Over()).0;
      s'.now == s.now && Seen(s'.(now := s.now + WAIT), FrameKey(Frame()))
  {
    hide Frame;
  }

  lemma Filtered(s: Store, log: seq<Output>)
    requires |Frame().routingPath| > 0 && Seen(s, FrameKey(Frame()))
    ensures var log' := HandledEnd(s, log, Sent(1), false, Over()).1;
      |log'| > 0 && log'[|log'| - 1] == AckSent(Transmitter(Frame()), FrameKey(Frame()), Replayed)
  {
    hide Frame;
  }

  // No ship takes anything in.
  predicate Deaf(actions: seq<Action>) { forall a :: a in actions ==> !a.SendNodeAck? && !a.Hear? }

  lemma {:induction false} ServingIsDeaf(e: Engine, j: nat, answers: Pc -> Env)
    requires j < |e.jobs|
    ensures Deaf(ServeAll(e, j, answers))
    decreases Rank(e.jobs[j].pc)
  {
    if e.jobs[j].pc != Done {
      var env := answers(e.jobs[j].pc);
      Descends(e.jobs[j].request, e.jobs[j].pc, e.store, env);
      ServingIsDeaf(Apply(e, Work(j, env)), j, answers);
      hide Perform;
    }
  }

  lemma FlightIsDeaf(w: World, x: nat)
    requires x < |w.airings| && w.airings[x].call < |w.calls|
    ensures Deaf(Flight(w, x, Over()))
  {
    Queued(w, x);
    hide ServeAll;
    ServingIsDeaf(Next(w, Arrive(x)).engine, |w.engine.jobs|, Over());
  }

  /** A complete run in which A's call ends acked although B never took the packet in: A's retry is filtered, and the
      filter answers in B's place. */
  lemma AckedUnheard() returns (actions: seq<Action>, i: nat)
    ensures Deaf(actions)
    ensures var w := Play(actions);
      && |w.calls| == 1 && w.calls[0].phase == Ended(true) && w.calls[0].frame.targetParent == "B"
      && "B" in w.ships && w.calls[0].frame.packetId !in w.ships["B"].seen
      && i < |w.engine.log| && w.engine.log[i] == AckSent("A", FrameKey(w.calls[0].frame), Replayed)
      && forall k :: !DeliveredIn(w.engine.log, k)
  {
    hide Play, Follow, Next, Frame, Flight, Unheard, HandledEnd, DeliveredIn, Seen, EMPTY, FrameKey, Deaf, OPENING;
    Opened();
    Sound(0);
    var w0 := Play(OPENING);
    AirOnce(w0, 0);
    var w1 := Follow(w0, [Air(0)]);
    FollowOne(w0, Air(0));
    Facts(w1, 1);
    FreshKey();
    KeyTaken(w1.engine.store, w1.engine.log);
    Fly(w1, 1, 0);
    FlightIsDeaf(w1, 0);
    var a1 := Flight(w1, 0, Over());
    var w2 := Follow(w1, a1);
    GiveUp(w2, 1);
    var a2 := [Action.Pass(WAIT)] + [Expire(0)];
    FollowTwo(w2, Action.Pass(WAIT), Expire(0));
    var w3 := Follow(w2, a2);
    AirOnce(w3, 1);
    var w4 := Follow(w3, [Air(0)]);
    FollowOne(w3, Air(0));
    Facts(w4, 2);
    Fly(w4, 2, 1);
    FlightIsDeaf(w4, 1);
    var a3 := Flight(w4, 1, Over());
    var w5 := Follow(w4, a3);
    Filtered(w4.engine.store, w4.engine.log);
    i := |w5.engine.log| - 1;
    TakeAck(w5, i);
    var a4 := [HearAck("A", i)] + [Succeed(0)];
    FollowTwo(w5, HearAck("A", i), Succeed(0));
    PlayOn(OPENING, [Air(0)]);
    PlayOn(OPENING + [Air(0)], a1);
    PlayOn(OPENING + [Air(0)] + a1, a2);
    PlayOn(OPENING + [Air(0)] + a1 + a2, [Air(0)]);
    PlayOn(OPENING + [Air(0)] + a1 + a2 + [Air(0)], a3);
    PlayOn(OPENING + [Air(0)] + a1 + a2 + [Air(0)] + a3, a4);
    actions := OPENING + [Air(0)] + a1 + a2 + [Air(0)] + a3 + a4;
    AllDeaf(a1, a3, i);
  }

  lemma Facts(w: World, n: nat)
    requires Unheard(w, n)
    ensures |w.airings| == n && |w.calls| == 1 && forall x :: 0 <= x < n ==> w.airings[x].call == 0
  {
  }

  lemma FreshKey()
    ensures FrameKey(Frame()) !in INIT.store.dedup && INIT.log == []
  {
    hide Frame;
  }

  lemma FollowTwo(w: World, a: Action, b: Action)
    ensures Follow(w, [a] + [b]) == Next(Next(w, a), b)
  {
    hide Follow, Next;
    FollowOn(w, [a], [b]);
    FollowOne(w, a);
    FollowOne(Next(w, a), b);
  }

  lemma TakeAck(w: World, i: nat)
    requires Unheard(w, 2) && w.calls[0].phase.Waiting? && i < |w.engine.log|
    requires w.engine.log[i] == AckSent("A", FrameKey(Frame()), Replayed)
    requires Frame().packetId in w.ships["A"].waiters && w.ships["A"].waiters[Frame().packetId] == Ticket(0, 1)
    ensures var w' := Next(Next(w, HearAck("A", i)), Succeed(0));
      && |w'.calls| == 1 && w'.calls[0].phase == Ended(true) && w'.calls[0].frame == Frame()
        && Frame().targetParent == "B"
      && "B" in w'.ships && w'.ships["B"].seen == {} && w'.engine == w.engine && forall k ::
        !DeliveredIn(w'.engine.log, k)
  {
    assert Frame().targetParent == "B";
    hide Frame, DeliveredIn, Next;
    Heard(w, 0, i);
    Succeeded(Next(w, HearAck("A", i)), 0);
  }

  lemma AllDeaf(a1: seq<Action>, a3: seq<Action>, i: nat)
    requires Deaf(a1) && Deaf(a3)
    ensures Deaf(OPENING + [Air(0)] + a1 + ([Action.Pass(WAIT)] + [Expire(0)]) + [Air(0)] + a3
      + ([HearAck("A", i)] + [Succeed(0)]))
  {
  }

  // ---- Exactly which kinds prove receipt -------------------------------------------------------

  ghost predicate ProvesReceipt(kind: AckKind) {
    forall actions, i ::
      (0 <= i < |Play(actions).engine.log| && Play(actions).engine.log[i].AckSent?
        && Play(actions).engine.log[i].kind == kind)
      ==> Receipt(actions, i, Play(actions).engine.log[i].key)
  }

  /** An ACK proves that its receiver got the packet, in every run, iff it is not the replay for a filtered
      duplicate. */
  lemma ProvesReceiptIff(kind: AckKind)
    ensures ProvesReceipt(kind) <==> kind != Replayed
  {
    hide Play, Receipt;
    if kind != Replayed {
      forall actions, i
        | 0 <= i < |Play(actions).engine.log| && Play(actions).engine.log[i].AckSent?
          && Play(actions).engine.log[i].kind == kind
        ensures Receipt(actions, i, Play(actions).engine.log[i].key)
      {
        KindProves(actions, i);
      }
    } else {
      var actions, i := AckedUnheard();
      NoReceipt(actions, i, Play(actions).engine.log[i].key);
    }
  }

  lemma NoReceipt(actions: seq<Action>, i: nat, key: Key)
    requires Deaf(actions) && i <= |Play(actions).engine.log| && forall k :: !DeliveredIn(Play(actions).engine.log, k)
    ensures !Receipt(actions, i, key)
  {
    hide Play;
    var log := Play(actions).engine.log;
    DeliveredStays(log[..i], log[i..], key);
    assert log[..i] + log[i..] == log;
    forall m, n | 0 <= m <= |actions| ensures !HeardAt(actions[..m], n, key.receiver, key.packetId) { }
  }

  // ---- Why frames about to be sent count as forwards --------------------------------------------

  // Five operations take A's frame to the point where its sender is noted, three take a node:ack to its relay.
  function Early(): seq<Step> {
    [Submit(Sent(0))] + [Work(0, OVER)] + [Work(0, OVER)] + [Work(0, OVER)] + [Work(0, OVER)] + [Work(0, OVER)]
    + [Submit(Ack("B", Frame().packetId))] + [Work(1, OVER)] + [Work(1, OVER)] + [Work(1, OVER)]
  }

  lemma OneStep(steps: seq<Step>, step: Step)
    ensures Run(steps + [step]) == Apply(Run(steps), step)
  {
    assert (steps + [step])[..|steps|] == steps;
  }

  lemma Noting()
    requires |Frame().routingPath| > 0
    ensures var work := Work(0, OVER); var key := FrameKey(Frame());
      var e := Apply(Apply(Apply(Apply(Apply(Apply(INIT, Submit(Sent(0))), work), work), work), work), work);
      && e.jobs == [Job(Sent(0), SendFrame(0))] && e.log == [Survived(key, "A"), Admitted(key, 0, 0), Noted(key)]
      && e.store.now == 0 && SenderOf(e.store, key) == Some("A")
  {
    Sound(0);
    var work, key, r := Work(0, OVER), FrameKey(Frame()), Sent(0);
    hide Frame, ScreenFrame, JudgeFrame, FrameKey;
    var s1 := Incr(EMPTY, TransmitTotal);
    var e1 := Apply(Apply(INIT, Submit(r)), work);
    assert e1 == Engine(EMPTY, [Job(r, CountTransmit(PARAMS))], []);
    var e3 := Apply(Apply(e1, work), work);
    assert e3 == Engine(s1, [Job(r, Dedup(false))], [Survived(key, "A")]);
    var e5 := Apply(Apply(e3, work), work);
    assert e5 == Engine(Remember(MarkSeen(s1, key), key, "A"), [Job(r, SendFrame(0))],
      [Survived(key, "A"), Admitted(key, 0, 0), Noted(key)]);
  }

  lemma Relaying3(e: Engine)
    requires Frame().packetId != "" && FrameKey(Frame()).packetId == Frame().packetId
      && FrameKey(Frame()).receiver == "B"
    requires |e.jobs| == 1 && SenderOf(e.store, FrameKey(Frame())) == Some("A")
    ensures var work := Work(1, OVER); var key := FrameKey(Frame());
      var e' := Apply(Apply(Apply(Apply(e, Submit(Ack("B", Frame().packetId))), work), work), work);
      e'.log == e.log + [Taken(key), AckSent("A", key, Relayed)]
  {
    hide Frame, FrameKey;
    var r, work := Ack("B", Frame().packetId), Work(1, OVER);
    var key := FrameKey(Frame());
    var e1 := Apply(e, Submit(r));
    assert e1.jobs == [e.jobs[0], Job(r, TakeSender)] && e1.log == e.log;
    var e2 := Apply(e1, work);
    assert e2.jobs == [e.jobs[0], Job(r, RelayBack("A"))] && e2.log == e.log + [Taken(key)];
    var e3 := Apply(e2, work);
    assert e3.jobs == [e.jobs[0], Job(r, SendAck("A"))] && e3.log == e.log + [Taken(key)];
  }

  /** A node:ack that runs ahead can be relayed before its forward is sent, so those frames have to be counted in. */
  lemma RelayMayPrecedeForward()
    ensures var k := FrameKey(Frame()); Total(Run(Early()).log, Relays(k)) > Total(Run(Early()).log, Forwards(k))
  {
    hide Run, Apply, Frame, FrameKey, OVER;
    Sound(0);
    NamedB();
    Noting();
    EarlyRun();
    var work := Work(0, OVER);
    var e := Apply(Apply(Apply(Apply(Apply(Apply(INIT, Submit(Sent(0))), work), work), work), work), work);
    Relaying3(e);
    var k, log := FrameKey(Frame()), Run(Early()).log;
    assert log[4] == AckSent("A", k, Relayed);
    Zero(log, Forwards(k));
    NonNegative(log, Relays(k));
    assert log[4] in log;
  }

  lemma NamedB()
    ensures Frame().packetId != "" && FrameKey(Frame()).packetId == Frame().packetId
      && FrameKey(Frame()).receiver == "B"
  {
    assert PacketId("A", 1) == "pkt-A-" + Padded(1);
  }

  lemma EarlyRun()
    ensures var work, more := Work(0, OVER), Work(1, OVER);
      var e := Apply(Apply(Apply(Apply(Apply(Apply(INIT, Submit(Sent(0))), work), work), work), work), work);
      Run(Early()) == Apply(Apply(Apply(Apply(e, Submit(Ack("B", Frame().packetId))), more), more), more)
  {
    hide Run, Apply, Frame;
    var work, more := Work(0, OVER), Work(1, OVER);
    var a1 := [Submit(Sent(0))];
    var a2 := a1 + [work];
    var a3 := a2 + [work];
    var a4 := a3 + [work];
    var a5 := a4 + [work];
    var a6 := a5 + [work];
    var a7 := a6 + [Submit(Ack("B", Frame().packetId))];
    var a8 := a7 + [more];
    var a9 := a8 + [more];
    assert [] + a1 == a1;
    Started();
    OneStep([], Submit(Sent(0)));
    OneStep(a1, work); OneStep(a2, work); OneStep(a3, work); OneStep(a4, work); OneStep(a5, work);
    OneStep(a6, Submit(Ack("B", Frame().packetId)));
    OneStep(a7, more); OneStep(a8, more); OneStep(a9, more);
  }

  lemma Started()
    ensures Run([]) == INIT
  {
  }
}
