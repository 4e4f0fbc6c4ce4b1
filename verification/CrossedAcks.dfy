/** Waiters are keyed by packet alone: a run in which a call ends acked by the ACK for another call's frame. */
module CrossedAcks {
  import opened MeshGraph
  import opened Protocol
  import opened Decimal
  import opened StateStore
  import opened Ether
  import opened ShipNode
  import opened Fleet
  import opened FleetAcks
  import opened Schedules
  import opened SimulationEngine
  import Schema

  const PARAMS := SessionParams(7, 14, 0.0)
  const TO_SHIP := Env(Some(PARAMS), ShipTarget, Found, Found, true, false, false, false, false, None, Schema.Garbage)
  const TO_EDGE := TO_SHIP.(target := EdgeTarget)
  const WAIT := 2500

  function Always(env: Env): Pc -> Env { pc => env }

  function ShipA(): Ship { OnRoutingUpdate(Fresh("A"), "B", false, Routed) }
  function ShipB(): Ship { OnRoutingUpdate(Fresh("B"), "A", false, Routed) }

  // A's report to B, B's relay of it back to A, and A's relay of that to the edge.
  function First(): TransmitPacket { Telemetry(ShipA(), [7]) }
  function Second(): TransmitPacket { Relay(ShipB(), First()) }
  function Third(): TransmitPacket { Relay(OnRoutingUpdate(ShipA(), "E", true, Routed), Second()) }

  lemma Frames()
    ensures PassesAir(Transmit("A", First(), 0), PARAMS, false, Always(TO_SHIP))
    ensures PassesAir(Transmit("B", Second(), 1), PARAMS, false, Always(TO_SHIP))
    ensures PassesAir(Transmit("A", Third(), 2), PARAMS, true, Always(TO_EDGE))
  {
    assert Digits(1) == "1";
    assert PacketId("A", 1) == "pkt-A-" + Padded(1);
    assert Padded(1) == "000" + "1";
  }

  lemma Facts()
    ensures |First().routingPath| > 0 && |Second().routingPath| > 0 && |Third().routingPath| > 0
    ensures First().packetId == Second().packetId == Third().packetId == PacketId("A", 1)
    ensures First().targetParent == "B" && Second().targetParent == "A" && Third().targetParent == "E"
    ensures Transmitter(Third()) == "A"
  {
    hide PacketId;
  }

  // What every world of the run shares: who sails, what was called, what was aired, and that no ACK is logged yet.
  ghost predicate Scene(w: World, calls: nat, airings: seq<nat>) {
    && w.ships.Keys == {"A", "B"} && w.ships["A"].id == "A" && w.ships["B"].id == "B"
    && w.ships["A"].ackTimeout == 2000 && w.ships["A"].seen == {}
    && w.ships["B"].routed && w.ships["B"].parent == "A" && w.ships["A"].routed
    && 1 <= |w.calls| == calls <= 3
    && w.calls[0].ship == "A" && w.calls[0].frame == First()
    && (calls > 1 ==> w.calls[1].ship == "B" && w.calls[1].frame == Second())
    && |w.airings| == |airings| && (forall x :: 0 <= x < |airings| ==> w.airings[x].call == airings[x] < calls)
    && NoAcks(w.engine.log)
  }

  ghost predicate NoAcks(log: seq<Output>) { forall o :: o in log ==> !o.AckSent? }

  // Only the keys of these receivers are taken.
  ghost predicate Keys(s: Store, receivers: set<string>) { forall k :: k in s.dedup ==> k.receiver in receivers }

  const OPENING := [Join("A")] + [Join("B")] + [Route("A", "B", false, Routed)] + [Route("B", "A", false, Routed)]
                   + [Report("A", [7], false)]

  lemma Opened()
    ensures var w := Play(OPENING);
      && w == World(map["A" := ShipA().(pktSeq := 1), "B" := ShipB()], [Call("A", First(), Ready, [])], [], INIT)
  {
    hide Next, Play, Follow;
    var a, b, c, d := [Join("A")], [Join("B")], [Route("A", "B", false, Routed)], [Route("B", "A", false, Routed)];
    var e := [Report("A", [7], false)];
    PlayOn(a + b + c + d, e);
    PlayOn(a + b + c, d);
    PlayOn(a + b, c);
    PlayOn(a, b);
    PlayOn([], a);
    assert [] + a == a;
    Genesis();
    FollowOne(GENESIS, a[0]);
    FollowOne(Play(a), b[0]);
    FollowOne(Play(a + b), c[0]);
    FollowOne(Play(a + b + c), d[0]);
    FollowOne(Play(a + b + c + d), e[0]);
    TwoShips();
    FirstReport();
  }

  lemma Genesis()
    ensures Play([]) == GENESIS
  {
  }

  lemma TwoShips()
    ensures Next(Next(Next(Next(GENESIS, Join("A")), Join("B")), Route("A", "B", false, Routed)),
      Route("B", "A", false, Routed))
      == World(map["A" := ShipA(), "B" := ShipB()], [], [], INIT)
  {
  }

  lemma FirstReport()
    ensures Next(World(map["A" := ShipA(), "B" := ShipB()], [], [], INIT), Report("A", [7], false))
      == World(map["A" := ShipA().(pktSeq := 1), "B" := ShipB()], [Call("A", First(), Ready, [])], [], INIT)
  {
    hide Telemetry;
  }

  lemma SceneSet()
    ensures var w := Play(OPENING);
      Scene(w, 1, []) && w.calls[0].phase.Ready? && w.calls[0].aired == [] && Keys(w.engine.store, {})
      && w.ships["A"].parent == "B" && w.ships["B"].seen == {} && w.ships["A"].waiters == map[]
  {
    hide Play, First;
    Opened();
  }

  lemma Lift(w: World, c: nat, n: nat, airings: seq<nat>)
    requires Scene(w, n, airings) && c < n && w.calls[c].phase.Ready?
    requires c == 2 ==> w.calls[2].ship == "A"
    ensures var w' := Next(w, Air(c));
      && Scene(w', n, airings + [c]) && w'.engine == w.engine
      && (forall d :: 0 <= d < n ==> w'.calls[d].frame == w.calls[d].frame && w'.calls[d].ship == w.calls[d].ship)
      && (forall d :: 0 <= d < n && d != c ==> w'.calls[d] == w.calls[d])
      && w'.calls[c].phase == Waiting(Now(w), w.ships[w.calls[c].ship].ackTimeout, false)
        && w'.calls[c].aired == w.calls[c].aired + [|airings|]
      && w'.ships["A"].parent == w.ships["A"].parent && w'.ships["B"].seen == w.ships["B"].seen
      && (w.calls[c].ship == "A" ==>
            w'.ships["A"].waiters == w.ships["A"].waiters[w.calls[c].frame.packetId := Ticket(c, |w.calls[c].aired|)])
  {
    hide First, Second, NoAcks;
  }

  // A frame crosses to a ship and is forwarded there.
  lemma Cross(w: World, n: nat, airings: seq<nat>, x: nat, taken: set<string>) returns (i: nat)
    requires Scene(w, n, airings) && x < |airings| && airings[x] == x < 2 && Keys(w.engine.store, taken)
    requires w.calls[x].frame.targetParent !in taken
    ensures x < |w.airings| && w.airings[x].call < |w.calls|
    ensures var w' := Follow(w, Flight(w, x, Always(TO_SHIP)));
      && Scene(w', n, airings) && w' == w.(engine := w'.engine) && Now(w') == Now(w)
      && Keys(w'.engine.store, taken + {w.calls[x].frame.targetParent})
      && i < |w'.engine.log| && w'.engine.log[i].FrameSent? && w'.engine.log[i].to == w.calls[x].frame.targetParent
      && w'.engine.log[i].pkt == w.calls[x].frame
  {
    hide Follow, Flight, Drain, First, Second, HandledEnd, PassesAir, Always, FrameKey, NoAcks;
    Frames();
    Flown(w, x, Always(TO_SHIP));
    var r := RequestOf(w, x);
    assert r == if x == 0 then Transmit("A", First(), 0) else Transmit("B", Second(), 1);
    Facts();
    KeyFree(w.engine.store, r.pkt, taken);
    HandledStretch(w.engine.store, w.engine.log, r, PARAMS, false, Always(TO_SHIP));
    i := Forwarded(w.engine.store, w.engine.log, r, taken);
  }

  lemma KeyFree(s: Store, f: TransmitPacket, taken: set<string>)
    requires Keys(s, taken) && f.targetParent !in taken
    ensures FrameKey(f) !in s.dedup
  {
  }

  lemma Forwarded(s: Store, log: seq<Output>, r: Request, taken: set<string>) returns (i: nat)
    requires r.Transmit? && |r.pkt.routingPath| > 0 && FrameKey(r.pkt) !in s.dedup && Keys(s, taken) && NoAcks(log)
    ensures var (s', log') := HandledEnd(s, log, r, false, Always(TO_SHIP));
      && s'.now == s.now && Keys(s', taken + {r.pkt.targetParent}) && NoAcks(log')
      && i < |log'| && log'[i].FrameSent? && log'[i].to == r.pkt.targetParent && log'[i].pkt == r.pkt
  {
    hide Transmitter;
    i := |log| + 3;
  }

  lemma BHears(w: World, i: nat)
    requires Scene(w, 1, [0]) && w.ships["B"].seen == {} && i < |w.engine.log|
    requires w.engine.log[i].FrameSent? && w.engine.log[i].to == "B" && w.engine.log[i].pkt == First()
    ensures var w' := Next(w, Hear("B", i));
      && Scene(w', 2, [0]) && w'.engine == w.engine && w'.calls[0] == w.calls[0]
        && w'.calls[1] == Call("B", Second(), Ready, [])
      && w'.ships["A"] == w.ships["A"]
  {
    hide First, NoAcks;
    assert Relay(w.ships["B"], First()) == Second();
    hide Second, Relay;
  }

  lemma Reroute(w: World)
    requires Scene(w, 2, [0, 1])
    ensures var w' := Next(w, Route("A", "E", true, Routed));
      && Scene(w', 2, [0, 1]) && w' == w.(ships := w'.ships) && w'.ships["A"].parent == "E"
      && w'.ships["A"].waiters == w.ships["A"].waiters
  {
    hide First, Second, NoAcks;
  }

  lemma AHears(w: World, i: nat)
    requires Scene(w, 2, [0, 1]) && w.ships["A"].parent == "E" && i < |w.engine.log|
    requires w.engine.log[i].FrameSent? && w.engine.log[i].to == "A" && w.engine.log[i].pkt == Second()
    ensures var w' := Next(w, Hear("A", i));
      && |w'.calls| == 3 && w'.calls == w.calls + [Call("A", Third(), Ready, [])] && w'.engine == w.engine
      && w'.airings == w.airings && w'.ships == w.ships["A" := w'.ships["A"]]
      && w'.ships["A"] == w.ships["A"].(seen := {Second().packetId})
  {
    hide First, Second, NoAcks;
    assert Relay(w.ships["A"], Second()) == Third();
    hide Third, Relay;
  }

  // From here on only A, its two calls and their airings matter.
  ghost predicate Crossing(w: World, airings: seq<nat>) {
    && "A" in w.ships && w.ships["A"].ackTimeout == 2000
    && |w.calls| == 3 && w.calls[0].ship == "A" && w.calls[0].frame == First()
    && w.calls[2].ship == "A" && w.calls[2].frame == Third()
    && |w.airings| == |airings| && (forall x :: 0 <= x < |airings| ==> w.airings[x].call == airings[x] < 3)
    && NoAcks(w.engine.log) && Keys(w.engine.store, {"A", "B"})
  }

  lemma Relaunch(w: World, c: nat, airings: seq<nat>)
    requires Crossing(w, airings) && (c == 0 || c == 2) && w.calls[c].phase.Ready?
    ensures var w' := Next(w, Air(c));
      && Crossing(w', airings + [c]) && w'.engine == w.engine
      && w'.calls[c].phase == Waiting(Now(w), 2000, false) && w'.calls[c].aired == w.calls[c].aired + [|airings|]
      && (forall d :: 0 <= d < 3 && d != c ==> w'.calls[d] == w.calls[d])
      && w'.ships["A"].waiters == w.ships["A"].waiters[w.calls[c].frame.packetId := Ticket(c, |w.calls[c].aired|)]
  {
    hide First, Third, NoAcks;
  }

  lemma GiveUp(w: World, airings: seq<nat>)
    requires Crossing(w, airings) && w.calls[0].phase.Waiting? && w.calls[0].phase.since <= Now(w)
    requires w.calls[0].phase.timeout == 2000 && |w.calls[0].aired| == 1
    ensures var w' := Next(Next(w, Action.Pass(WAIT)), Expire(0));
      Crossing(w', airings) && w'.calls[0].phase == Ready && w'.calls[0].aired == w.calls[0].aired
  {
    hide First, Third, NoAcks;
    Expired(w, 0, WAIT);
  }

  // The relay's frame reaches the edge, and the edge's ACK goes out.
  lemma Arrive2(w: World) returns (i: nat)
    requires Crossing(w, [0, 1, 2, 0])
    ensures 2 < |w.airings| && w.airings[2].call < |w.calls|
    ensures var w' := Follow(w, Flight(w, 2, Always(TO_EDGE)));
      && w' == w.(engine := w'.engine) && i < |w'.engine.log|
        && w'.engine.log[i] == AckSent("A", FrameKey(Third()), FromEdge)
      && (forall o :: o in w'.engine.log && o.AckSent? ==> o.key == FrameKey(Third()))
  {
    hide Follow, Flight, Drain, First, Third, HandledEnd, PassesAir, Always, FrameKey, NoAcks;
    Frames();
    Facts();
    Flown(w, 2, Always(TO_EDGE));
    var r := RequestOf(w, 2);
    assert r == Transmit("A", Third(), 2);
    KeyFree(w.engine.store, r.pkt, {"A", "B"});
    HandledStretch(w.engine.store, w.engine.log, r, PARAMS, true, Always(TO_EDGE));
    i := Replied(w.engine.store, w.engine.log, r);
  }

  lemma Replied(s: Store, log: seq<Output>, r: Request) returns (i: nat)
    requires r.Transmit? && |r.pkt.routingPath| > 0 && FrameKey(r.pkt) !in s.dedup && NoAcks(log)
    ensures var log' := HandledEnd(s, log, r, true, Always(TO_EDGE)).1;
      && i < |log'| && log'[i] == AckSent(Transmitter(r.pkt), FrameKey(r.pkt), FromEdge)
      && forall o :: o in log' && o.AckSent? ==> o.key == FrameKey(r.pkt)
  {
    hide Transmitter, RowOf, FrameKey;
    i := |log| + 4;
  }

  lemma TakeAck(w: World, i: nat)
    requires "A" in w.ships && |w.calls| == 3 && w.calls[0].ship == "A" && w.calls[0].phase.Waiting?
      && |w.calls[0].aired| == 2
    requires i < |w.engine.log| && w.engine.log[i].AckSent? && w.engine.log[i].to == "A"
    requires w.engine.log[i].key.packetId == w.calls[0].frame.packetId
      && w.calls[0].frame.packetId in w.ships["A"].waiters
    requires w.ships["A"].waiters[w.calls[0].frame.packetId] == Ticket(0, 1)
    ensures var w' := Next(Next(w, HearAck("A", i)), Succeed(0));
      |w'.calls| == 3 && w'.calls[0].phase == Ended(true) && w'.calls[0].frame == w.calls[0].frame
        && w'.engine == w.engine
  {
    hide Next;
    Heard(w, 0, i);
    Succeeded(Next(w, HearAck("A", i)), 0);
  }

  lemma KeyApart()
    ensures FrameKey(First()) != FrameKey(Third()) && FrameKey(Third()).packetId == First().packetId
  {
    Facts();
    hide First, Third;
  }

  /** A relays its own packet and retries the original: the edge's ACK for the relay closes the retry's waiter, and the
      original call ends acked although no ACK was ever sent for its frame. */
  lemma AckedForAnother() returns (actions: seq<Action>)
    ensures var w := Play(actions);
      && |w.calls| > 0 && Acked(w.calls[0])
      && forall i :: 0 <= i < |w.engine.log| && w.engine.log[i].AckSent? ==>
        w.engine.log[i].key != FrameKey(w.calls[0].frame)
  {
    hide Play, Follow, Next, First, Second, Third, Flight, Scene, Keys, OPENING, FrameKey, Crossing, NoAcks;
    assert [0, 1] + [2] == [0, 1, 2] && [0, 1, 2] + [0] == [0, 1, 2, 0];
    var w6, a6 := OutAndBack();
    // A's relay takes off, and then the retry of its report.
    Relaunch(w6, 2, [0, 1]);
    FollowOne(w6, Air(2));
    var w7 := Follow(w6, [Air(2)]);
    CrossingFacts(w7, [0, 1, 2]);
    GiveUp(w7, [0, 1, 2]);
    FollowTwo(w7, Action.Pass(WAIT), Expire(0));
    var w8 := Follow(w7, [Action.Pass(WAIT)] + [Expire(0)]);
    CrossingFacts(w8, [0, 1, 2]);
    Relaunch(w8, 0, [0, 1, 2]);
    FollowOne(w8, Air(0));
    var w9 := Follow(w8, [Air(0)]);
    CrossingFacts(w9, [0, 1, 2, 0]);
    var i := Arrive2(w9);
    var a9 := Flight(w9, 2, Always(TO_EDGE));
    var w10 := Follow(w9, a9);
    KeyApart();
    TakeAck(w10, i);
    FollowTwo(w10, HearAck("A", i), Succeed(0));
    var a10 := [HearAck("A", i)] + [Succeed(0)];
    PlayOn(a6, [Air(2)]);
    PlayOn(a6 + [Air(2)], [Action.Pass(WAIT)] + [Expire(0)]);
    PlayOn(a6 + [Air(2)] + ([Action.Pass(WAIT)] + [Expire(0)]), [Air(0)]);
    PlayOn(a6 + [Air(2)] + ([Action.Pass(WAIT)] + [Expire(0)]) + [Air(0)], a9);
    PlayOn(a6 + [Air(2)] + ([Action.Pass(WAIT)] + [Expire(0)]) + [Air(0)] + a9, a10);
    actions := a6 + [Air(2)] + ([Action.Pass(WAIT)] + [Expire(0)]) + [Air(0)] + a9 + a10;
  }

  lemma CrossingFacts(w: World, airings: seq<nat>)
    requires Crossing(w, airings)
    ensures "A" in w.ships && |w.calls| == 3 && w.calls[0].ship == "A" && w.calls[0].frame == First()
  {
  }

  lemma FollowTwo(w: World, a: Action, b: Action)
    ensures Follow(w, [a] + [b]) == Next(Next(w, a), b)
  {
    hide Follow, Next;
    FollowOn(w, [a], [b]);
    FollowOne(w, a);
    FollowOne(Next(w, a), b);
  }

  // A's report goes to B and comes back, and A is about to relay it to the edge.
  lemma OutAndBack() returns (w: World, actions: seq<Action>)
    ensures w == Play(actions) && Crossing(w, [0, 1]) && w.calls[2].phase.Ready? && w.calls[2].aired == []
    ensures w.calls[0].phase.Waiting? && w.calls[0].phase.timeout == 2000 && w.calls[0].phase.since <= Now(w)
    ensures |w.calls[0].aired| == 1 && First().packetId == Third().packetId
  {
    hide Play, Follow, Next, First, Second, Third, Flight, Scene, Keys, OPENING, FrameKey, Crossing, NoAcks;
    assert [] + [0] == [0] && [0] + [1] == [0, 1] && {} + {"B"} == {"B"} && {"B"} + {"A"} == {"A", "B"};
    Facts();
    SceneSet();
    var w0 := Play(OPENING);
    SceneFacts(w0, 1, []);
    Lift(w0, 0, 1, []);
    FollowOne(w0, Air(0));
    var w1 := Follow(w0, [Air(0)]);
    SceneFacts(w1, 1, [0]);
    var i := Cross(w1, 1, [0], 0, {});
    var a1 := Flight(w1, 0, Always(TO_SHIP));
    var w2 := Follow(w1, a1);
    SceneFacts(w2, 1, [0]);
    BHears(w2, i);
    FollowOne(w2, Hear("B", i));
    var w3 := Follow(w2, [Hear("B", i)]);
    SceneFacts(w3, 2, [0]);
    Lift(w3, 1, 2, [0]);
    FollowOne(w3, Air(1));
    var w4 := Follow(w3, [Air(1)]);
    SceneFacts(w4, 2, [0, 1]);
    var j := Cross(w4, 2, [0, 1], 1, {"B"});
    var a4 := Flight(w4, 1, Always(TO_SHIP));
    var w5 := Follow(w4, a4);
    Reroute(w5);
    FollowOne(w5, Route("A", "E", true, Routed));
    var w6 := Follow(w5, [Route("A", "E", true, Routed)]);
    AHears(w6, j);
    FollowOne(w6, Hear("A", j));
    w := Follow(w6, [Hear("A", j)]);
    PlayOn(OPENING, [Air(0)]);
    PlayOn(OPENING + [Air(0)], a1);
    PlayOn(OPENING + [Air(0)] + a1, [Hear("B", i)]);
    PlayOn(OPENING + [Air(0)] + a1 + [Hear("B", i)], [Air(1)]);
    PlayOn(OPENING + [Air(0)] + a1 + [Hear("B", i)] + [Air(1)], a4);
    PlayOn(OPENING + [Air(0)] + a1 + [Hear("B", i)] + [Air(1)] + a4, [Route("A", "E", true, Routed)]);
    PlayOn(OPENING + [Air(0)] + a1 + [Hear("B", i)] + [Air(1)] + a4 + [Route("A", "E", true, Routed)], [Hear("A", j)]);
    actions := OPENING + [Air(0)] + a1 + [Hear("B", i)] + [Air(1)] + a4 + [Route("A", "E", true, Routed)]
      + [Hear("A", j)];
    SceneFacts(w6, 2, [0, 1]);
    IsCrossing(w6, w);
  }

  lemma SceneFacts(w: World, n: nat, airings: seq<nat>)
    requires Scene(w, n, airings)
    ensures |w.calls| == n && "A" in w.ships && "B" in w.ships && w.calls[0].ship == "A" && w.calls[0].frame == First()
    ensures w.ships["A"].ackTimeout == 2000 && (n > 1 ==> w.calls[1].ship == "B" && w.calls[1].frame == Second())
  {
    hide First, Second;
  }

  lemma IsCrossing(w: World, w': World)
    requires Scene(w, 2, [0, 1]) && Keys(w.engine.store, {"A", "B"}) && w'.engine == w.engine && w'.airings == w.airings
    requires w'.calls == w.calls + [Call("A", Third(), Ready, [])] && "A" in w'.ships
      && w'.ships["A"].ackTimeout == 2000
    ensures Crossing(w', [0, 1])
  {
    hide First, Second, Third, NoAcks, Keys;
  }
}
