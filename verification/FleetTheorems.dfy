/** Whole-run properties of a fleet of honest ships. */
module FleetTheorems {
  import opened MeshGraph
  import opened Protocol
  import opened StateStore
  import opened Ether
  import opened ShipNode
  import opened Fleet

  // ---- What every reachable world keeps --------------------------------------------------------

  // A frame on its hop: as many path entries as hops, from the origin to the ship sending it.
  ghost predicate FrameOk(f: TransmitPacket, ship: string) {
    && 1 <= f.hopCount <= MAX_HOPS + 1 && |f.routingPath| == f.hopCount
    && f.routingPath[0] == f.originNode && f.routingPath[|f.routingPath| - 1] == ship
  }

  ghost predicate Minted(ships: map<string, Ship>, f: TransmitPacket) {
    f.originNode in ships && exists n: nat ::
      1 <= n <= ships[f.originNode].pktSeq && f.packetId == PacketId(f.originNode, n)
  }

  // The call whose forwarded frame made this one a relay.
  ghost predicate Feeds(a: Call, b: Call) {
    && a.frame.packetId == b.frame.packetId && a.frame.originNode == b.frame.originNode
      && a.frame.payload == b.frame.payload
    && a.frame.hopCount + 1 == b.frame.hopCount && a.frame.targetParent == b.ship
    && b.frame.routingPath == a.frame.routingPath + [b.ship]
  }

  ghost predicate PhaseOk(c: Call) {
    match c.phase
    case Ready => |c.aired| <= MAX_RETRIES
    case _ => |c.aired| <= MAX_RETRIES + 1
  }

  ghost predicate CallOk(ships: map<string, Ship>, calls: seq<Call>, c: nat)
    requires c < |calls|
  {
    var call := calls[c];
    && call.ship in ships && FrameOk(call.frame, call.ship) && Minted(ships, call.frame) && PhaseOk(call)
    && (call.frame.hopCount > 1 ==>
          call.frame.packetId in ships[call.ship].seen && exists b :: 0 <= b < c && Feeds(calls[b], call))
  }

  ghost predicate CallsOk(ships: map<string, Ship>, calls: seq<Call>) {
    && (forall id :: id in ships ==> ships[id].id == id)
    && (forall c :: 0 <= c < |calls| ==> CallOk(ships, calls, c))
  }

  predicate SamePacket(a: Call, b: Call) { a.frame.packetId == b.frame.packetId }

  // Per packet id: one call per hop, and one relay call per ship.
  ghost predicate OneCallPerHop(calls: seq<Call>) {
    forall a, b :: 0 <= a < |calls| && 0 <= b < |calls| && a != b && SamePacket(calls[a], calls[b]) ==>
      && calls[a].frame.hopCount != calls[b].frame.hopCount
      && (calls[a].frame.hopCount > 1 && calls[b].frame.hopCount > 1 ==> calls[a].ship != calls[b].ship)
  }

  ghost predicate AiredOk(calls: seq<Call>, airings: seq<Airing>) {
    forall x :: 0 <= x < |airings| ==>
      && airings[x].call < |calls| && airings[x].attempt < |calls[airings[x].call].aired|
      && calls[airings[x].call].aired[airings[x].attempt] == x
  }

  // Frames the ether handles come from calls; it forwards only those within the hop limit.
  ghost predicate FromCall(calls: seq<Call>, f: TransmitPacket) {
    exists c :: 0 <= c < |calls| && calls[c].frame == f
  }

  predicate PastTtl(pc: Pc) {
    pc.Dedup? || pc.NoteSender? || pc.SendFrame?
  }

  ghost predicate JobOk(calls: seq<Call>, airings: seq<Airing>, j: Job) {
    && OwnPc(j)
    && (j.request.Transmit? ==>
          && j.request.tag < |airings| && airings[j.request.tag].call < |calls|
          && j.request.pkt == calls[airings[j.request.tag].call].frame
          && j.request.sender == calls[airings[j.request.tag].call].ship
          && (PastTtl(j.pc) ==> j.request.pkt.hopCount <= MAX_HOPS))
  }

  ghost predicate EtherOk(w: World) {
    && (forall j :: j in w.engine.jobs ==> JobOk(w.calls, w.airings, j))
    && (forall i :: 0 <= i < |w.engine.log| && w.engine.log[i].FrameSent? ==>
          && w.engine.log[i].to == w.engine.log[i].pkt.targetParent && w.engine.log[i].pkt.hopCount <= MAX_HOPS
          && FromCall(w.calls, w.engine.log[i].pkt))
  }

  ghost predicate WorldOk(w: World) {
    CallsOk(w.ships, w.calls) && OneCallPerHop(w.calls) && AiredOk(w.calls, w.airings) && EtherOk(w)
  }

  // ---- Each action keeps them --------------------------------------------------------------

  // Ships learn and calls progress; frames, senders and made airings stay.
  ghost predicate SameCalls(calls: seq<Call>, calls': seq<Call>) {
    && |calls| <= |calls'|
    && forall c :: 0 <= c < |calls| ==>
         calls'[c].ship == calls[c].ship && calls'[c].frame == calls[c].frame && calls[c].aired <= calls'[c].aired
  }

  ghost predicate ShipsGrow(ships: map<string, Ship>, ships': map<string, Ship>) {
    forall id :: id in ships ==>
      id in ships' && ships'[id].id == ships[id].id && ships[id].seen <= ships'[id].seen
        && ships[id].pktSeq <= ships'[id].pktSeq
  }

  lemma CallsKept(ships: map<string, Ship>, ships': map<string, Ship>, calls: seq<Call>, calls': seq<Call>, c: nat)
    requires SameCalls(calls, calls') && ShipsGrow(ships, ships') && c < |calls| && CallOk(ships, calls, c)
      && PhaseOk(calls'[c])
    ensures CallOk(ships', calls', c)
  {
    var call := calls[c];
    var n: nat :| 1 <= n <= ships[call.frame.originNode].pktSeq
      && call.frame.packetId == PacketId(call.frame.originNode, n);
    assert 1 <= n <= ships'[call.frame.originNode].pktSeq;
    if call.frame.hopCount > 1 {
      var b :| 0 <= b < c && Feeds(calls[b], call);
      assert Feeds(calls'[b], calls'[c]);
    }
  }

  lemma EtherKept(w: World, w': World)
    requires EtherOk(w) && SameCalls(w.calls, w'.calls) && w.airings <= w'.airings && w'.engine == w.engine
    ensures EtherOk(w')
  {
    forall j | j in w'.engine.jobs ensures JobOk(w'.calls, w'.airings, j) {
      assert JobOk(w.calls, w.airings, j);
    }
    forall i | 0 <= i < |w.engine.log| && w.engine.log[i].FrameSent? ensures FromCall(w'.calls, w.engine.log[i].pkt) {
      var c :| 0 <= c < |w.calls| && w.calls[c].frame == w.engine.log[i].pkt;
      assert w'.calls[c].frame == w.engine.log[i].pkt;
    }
  }

  // Actions that start no call and leave the ether alone.
  lemma QuietStep(w: World, w': World)
    requires WorldOk(w) && SameCalls(w.calls, w'.calls) && |w.calls| == |w'.calls| && ShipsGrow(w.ships, w'.ships)
    requires forall id :: id in w'.ships ==> w'.ships[id].id == id
    requires forall c :: 0 <= c < |w'.calls| ==> PhaseOk(w'.calls[c])
    requires w.airings <= w'.airings && w'.engine == w.engine && AiredOk(w'.calls, w'.airings)
    ensures WorldOk(w')
  {
    forall c: nat | c < |w'.calls| ensures CallOk(w'.ships, w'.calls, c) {
      CallsKept(w.ships, w'.ships, w.calls, w'.calls, c);
    }
    EtherKept(w, w');
  }

  lemma NewCall(w: World, w': World, call: Call)
    requires WorldOk(w) && w'.calls == w.calls + [call] && ShipsGrow(w.ships, w'.ships)
    requires forall id :: id in w'.ships ==> w'.ships[id].id == id
    requires w'.airings == w.airings && w'.engine == w.engine
    requires CallOk(w'.ships, w'.calls, |w.calls|) && call.aired == []
    requires forall c :: 0 <= c < |w.calls| && w.calls[c].frame.packetId == call.frame.packetId ==>
      && w.calls[c].frame.hopCount != call.frame.hopCount
      && (w.calls[c].frame.hopCount > 1 && call.frame.hopCount > 1 ==> w.calls[c].ship != call.ship)
    ensures WorldOk(w')
  {
    forall c: nat | c < |w'.calls| ensures CallOk(w'.ships, w'.calls, c) {
      if c < |w.calls| {
        assert CallOk(w.ships, w.calls, c);
        CallsKept(w.ships, w'.ships, w.calls, w'.calls, c);
      }
    }
    EtherKept(w, w');
  }

  lemma ReportKeeps(w: World, id: string, raw: seq<byte>, ignoreSF: bool)
    requires WorldOk(w) && id in w.ships
    ensures WorldOk(Next(w, Report(id, raw, ignoreSF)))
  {
    var (s, f) := Originate(w.ships[id], raw, ignoreSF);
    var w' := Next(w, Report(id, raw, ignoreSF));
    if f.None? {
      ReadyCallsFew(w);
      ProgressKeeps(w, w');
    } else {
      var n := s.pktSeq;
      assert Minted(w'.ships, f.value);
      forall c | 0 <= c < |w.calls| ensures w.calls[c].frame.packetId != f.value.packetId {
        assert CallOk(w.ships, w.calls, c);
        var m: nat :| 1 <= m <= w.ships[w.calls[c].frame.originNode].pktSeq
          && w.calls[c].frame.packetId == PacketId(w.calls[c].frame.originNode, m);
        if w.calls[c].frame.packetId == f.value.packetId { PacketIdsUnique(w.calls[c].frame.originNode, m, id, n); }
      }
      NewCall(w, w', Call(id, f.value, Ready, []));
    }
  }

  // A ship that has not seen the packet of call a, sent to it, is not yet the next hop of any call.
  lemma RelayIsNew(w: World, id: string, a: nat)
    requires WorldOk(w) && a < |w.calls| && w.calls[a].frame.targetParent == id
    requires id in w.ships && w.calls[a].frame.packetId !in w.ships[id].seen
    ensures forall c :: 0 <= c < |w.calls| && w.calls[c].frame.packetId == w.calls[a].frame.packetId ==>
      && w.calls[c].frame.hopCount != w.calls[a].frame.hopCount + 1
      && (w.calls[c].frame.hopCount > 1 ==> w.calls[c].ship != id)
  {
    assert CallOk(w.ships, w.calls, a);
    forall c | 0 <= c < |w.calls| && w.calls[c].frame.packetId == w.calls[a].frame.packetId
      ensures w.calls[c].frame.hopCount != w.calls[a].frame.hopCount + 1
      ensures w.calls[c].frame.hopCount > 1 ==> w.calls[c].ship != id
    {
      assert CallOk(w.ships, w.calls, c);
    }
  }

  lemma RelayOk(w: World, w': World, a: nat, call: Call)
    requires WorldOk(w) && a < |w.calls| && w.calls[a].frame.hopCount <= MAX_HOPS
      && w.calls[a].frame.targetParent == call.ship
    requires call.ship in w.ships && ShipsGrow(w.ships, w'.ships) && w'.ships[call.ship].id == call.ship
    requires w.calls[a].frame.packetId in w'.ships[call.ship].seen
    requires call.frame == Relay(w'.ships[call.ship], w.calls[a].frame) && call.phase.Ready? && call.aired == []
    requires w'.calls == w.calls + [call]
    ensures CallOk(w'.ships, w'.calls, |w.calls|)
  {
    var p := w.calls[a].frame;
    assert CallOk(w.ships, w.calls, a);
    assert Feeds(w'.calls[a], w'.calls[|w.calls|]);
    var n: nat :| 1 <= n <= w.ships[p.originNode].pktSeq && p.packetId == PacketId(p.originNode, n);
    assert n <= w'.ships[p.originNode].pktSeq;
  }

  lemma CallHeard(w: World, id: string, i: nat) returns (a: nat)
    requires WorldOk(w) && Received(w, id, i)
    ensures a < |w.calls| && w.calls[a].frame == w.engine.log[i].pkt
    ensures w.calls[a].frame.targetParent == id && w.calls[a].frame.hopCount <= MAX_HOPS
  {
    hide CallsOk, OneCallPerHop, AiredOk, JobOk;
    assert FromCall(w.calls, w.engine.log[i].pkt);
    a :| 0 <= a < |w.calls| && w.calls[a].frame == w.engine.log[i].pkt;
  }

  lemma HearKeeps(w: World, id: string, i: nat)
    requires WorldOk(w) && Received(w, id, i)
    ensures WorldOk(Next(w, Hear(id, i)))
  {
    var a := CallHeard(w, id, i);
    hide WorldOk, Originate, AirFrame, ExpireCall, AckShip, Engage;
    var p := w.engine.log[i].pkt;
    var (s, f) := Receive(w.ships[id], p);
    var w' := Next(w, Hear(id, i));
    ReadyCallsFew(w);
    if f.None? {
      ProgressKeeps(w, w');
    } else {
      var call := Call(id, f.value, Ready, []);
      RelayOk(w, w', a, call);
      RelayIsNew(w, id, a);
      NewCall(w, w', call);
    }
  }

  lemma AirKeeps(w: World, c: nat)
    requires WorldOk(w) && CanAir(w, c)
    ensures WorldOk(AirFrame(w, c))
  {
    var w' := AirFrame(w, c);
    assert CallOk(w.ships, w.calls, c);
    assert w.calls[c].aired <= w'.calls[c].aired;
    forall d | 0 <= d < |w'.calls| ensures PhaseOk(w'.calls[d]) { assert CallOk(w.ships, w.calls, d); }
    QuietStep(w, w');
  }

  // Actions that change one call's phase, or one ship's radio state.
  lemma ProgressKeeps(w: World, w': World)
    requires WorldOk(w) && w'.airings == w.airings && w'.engine == w.engine && |w'.calls| == |w.calls|
    requires forall c :: 0 <= c < |w.calls| ==>
      w'.calls[c] == w.calls[c].(phase := w'.calls[c].phase)
        && (w'.calls[c].phase.Ready? ==> |w.calls[c].aired| <= MAX_RETRIES)
    requires ShipsGrow(w.ships, w'.ships) && forall id :: id in w'.ships ==> w'.ships[id].id == id
    ensures WorldOk(w')
  {
    forall c | 0 <= c < |w'.calls| ensures PhaseOk(w'.calls[c]) { assert CallOk(w.ships, w.calls, c); }
    QuietStep(w, w');
  }

  lemma ReadyCallsFew(w: World)
    requires WorldOk(w)
    ensures forall c :: 0 <= c < |w.calls| && w.calls[c].phase.Ready? ==> |w.calls[c].aired| <= MAX_RETRIES
    ensures forall id :: id in w.ships ==> w.ships[id].id == id
  {
    forall c | 0 <= c < |w.calls| && w.calls[c].phase.Ready? ensures |w.calls[c].aired| <= MAX_RETRIES {
      assert CallOk(w.ships, w.calls, c);
    }
  }

  lemma ServeKeeps(w: World, n: nat, env: Env)
    requires WorldOk(w) && n < |w.engine.jobs|
    ensures WorldOk(Next(w, Serve(n, env)))
  {
    var j := w.engine.jobs[n];
    var e := Perform(j.request, j.pc, w.engine.store, env);
    assert JobOk(w.calls, w.airings, j);
    ServeFacts(j.request, j.pc, w.engine.store, env);
    if j.request.Transmit? { assert FromCall(w.calls, j.request.pkt); }
    hide Perform, CallsOk, OneCallPerHop, AiredOk, FromCall, OwnPc, PastTtl;
    var w' := Next(w, Serve(n, env));
    forall k | k in w'.engine.jobs ensures JobOk(w.calls, w.airings, k) {
      assert k in w.engine.jobs || k == j.(pc := e.pc);
    }
  }

  lemma ServeFacts(r: Request, pc: Pc, s: Store, env: Env)
    requires OwnPc(Job(r, pc)) && (r.Transmit? && PastTtl(pc) ==> r.pkt.hopCount <= MAX_HOPS)
    ensures var e := Perform(r, pc, s, env);
      && OwnPc(Job(r, e.pc)) && (r.Transmit? && PastTtl(e.pc) ==> r.pkt.hopCount <= MAX_HOPS)
      && (e.out != [] && e.out[0].FrameSent? ==>
            r.Transmit? && e.out[0].pkt == r.pkt && e.out[0].to == r.pkt.targetParent && r.pkt.hopCount <= MAX_HOPS)
  {
    hide Count, Incr, Seen, MarkSeen, Forget, Remember, SenderOf, SenderName, Validate, MaxPayloadBytes;
  }

  lemma SubmitKeeps(w: World, r: Request)
    requires WorldOk(w) && JobOk(w.calls, w.airings, Job(r, Start(r)))
    ensures WorldOk(Engage(w, Submit(r)))
  {
    hide CallsOk, OneCallPerHop, AiredOk, FromCall, JobOk;
    var w' := Engage(w, Submit(r));
    forall k | k in w'.engine.jobs ensures JobOk(w.calls, w.airings, k) {
      assert k in w.engine.jobs || k == Job(r, Start(r));
    }
  }

  lemma JoinKeeps(w: World, id: string)
    requires WorldOk(w)
    ensures WorldOk(Next(w, Join(id)))
  {
    ReadyCallsFew(w);
    ProgressKeeps(w, Next(w, Join(id)));
  }

  lemma RadioKeeps(w: World, a: Action)
    requires WorldOk(w) && (a.Route? || a.Params?)
    ensures WorldOk(Next(w, a))
  {
    hide WorldOk, Receive, Originate, AirFrame, ExpireCall, AckShip, Engage;
    ReadyCallsFew(w);
    ProgressKeeps(w, Next(w, a));
  }

  lemma AckKeeps(w: World, id: string, i: nat)
    requires WorldOk(w) && CanHearAck(w, id, i)
    ensures WorldOk(AckShip(w, id, i))
  {
    ReadyCallsFew(w);
    var w' := AckShip(w, id, i);
    assert forall c :: 0 <= c < |w.calls| ==> w'.calls[c] == w.calls[c] || w'.calls[c].phase.Waiting?;
    ProgressKeeps(w, w');
  }

  lemma ExpireKeeps(w: World, c: nat)
    requires WorldOk(w) && CanExpire(w, c)
    ensures WorldOk(ExpireCall(w, c))
  {
    ReadyCallsFew(w);
    ProgressKeeps(w, ExpireCall(w, c));
  }

  lemma EndKeeps(w: World, a: Action)
    requires WorldOk(w) && (a.FailWrite? || a.Succeed? || a.Quit?)
    ensures WorldOk(Next(w, a))
  {
    hide WorldOk, Receive, Originate, AirFrame, ExpireCall, AckShip, Engage;
    ReadyCallsFew(w);
    ProgressKeeps(w, Next(w, a));
  }

  lemma ArriveKeeps(w: World, x: nat)
    requires WorldOk(w) && x < |w.airings| && w.airings[x].call < |w.calls|
    ensures WorldOk(Next(w, Arrive(x)))
  {
    SubmitKeeps(w, Transmit(w.calls[w.airings[x].call].ship, w.calls[w.airings[x].call].frame, x));
  }

  lemma PassKeeps(w: World, ms: nat)
    requires WorldOk(w)
    ensures WorldOk(Next(w, Action.Pass(ms)))
  {
    hide CallsOk, OneCallPerHop, AiredOk, FromCall, JobOk;
  }

  lemma NodeAckKeeps(w: World, id: string, i: nat)
    requires WorldOk(w) && Received(w, id, i)
    ensures WorldOk(Next(w, SendNodeAck(id, i)))
  {
    var r := Ack(id, w.engine.log[i].pkt.packetId);
    assert JobOk(w.calls, w.airings, Job(r, Start(r)));
    hide WorldOk, JobOk;
    SubmitKeeps(w, r);
  }

  lemma NextKeeps(w: World, a: Action)
    requires WorldOk(w)
    ensures WorldOk(Next(w, a))
  {
    hide WorldOk, AirFrame, ExpireCall, AckShip, Receive, Originate, StartCall;
    match a
    case Pass(ms) => PassKeeps(w, ms);
    case Join(id) => JoinKeeps(w, id);
    case Route(_, _, _, _) => RadioKeeps(w, a);
    case Params(_, _, _) => RadioKeeps(w, a);
    case Report(id, raw, ignoreSF) => if id in w.ships { ReportKeeps(w, id, raw, ignoreSF); }
    case Hear(id, i) => if Received(w, id, i) { HearKeeps(w, id, i); }
    case HearAck(id, i) => if CanHearAck(w, id, i) { AckKeeps(w, id, i); }
    case Air(c) => if CanAir(w, c) { AirKeeps(w, c); }
    case FailWrite(_) => EndKeeps(w, a);
    case Expire(c) => if CanExpire(w, c) { ExpireKeeps(w, c); }
    case Succeed(_) => EndKeeps(w, a);
    case Quit(_) => EndKeeps(w, a);
    case Arrive(x) => if x < |w.airings| && w.airings[x].call < |w.calls| { ArriveKeeps(w, x); }
    case SendNodeAck(id, i) =>
      if Received(w, id, i) { NodeAckKeeps(w, id, i); }
    case Serve(j, env) => if j < |w.engine.jobs| { ServeKeeps(w, j, env); }
  }

  lemma GenesisOk()
    ensures WorldOk(GENESIS)
  {
    EmptyWorldOk(GENESIS);
  }

  lemma EmptyWorldOk(w: World)
    requires w.ships == map[] && w.calls == [] && w.airings == [] && w.engine.jobs == [] && w.engine.log == []
    ensures WorldOk(w)
  {
    assert CallsOk(w.ships, w.calls) by { hide CallOk; }
    assert OneCallPerHop(w.calls);
    assert AiredOk(w.calls, w.airings);
    assert EtherOk(w) by { hide CallsOk, OneCallPerHop, AiredOk, JobOk, FromCall; }
    hide CallsOk, OneCallPerHop, AiredOk, EtherOk;
  }

  lemma {:induction false} AlwaysOk(actions: seq<Action>)
    ensures WorldOk(Play(actions))
  {
    hide WorldOk, Next;
    if |actions| == 0 {
      GenesisOk();
    } else {
      AlwaysOk(actions[..|actions| - 1]);
      NextKeeps(Play(actions[..|actions| - 1]), actions[|actions| - 1]);
    }
  }
}
