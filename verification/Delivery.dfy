/** Routing table, ships and engine together: fleet runs in which no hop is lost. */
module Delivery {
  import opened MeshGraph
  import opened MeshTheorems
  import opened Protocol
  import opened StateStore
  import opened Ether
  import opened EtherTheorems
  import opened ShipNode
  import opened Fleet
  import opened FleetTheorems
  import opened Schedules
  import opened SimulationEngine
  import Schema
  import Hub
  import DistributionTheorems

  predicate IsEdgeCode(edges: seq<Edge>, name: string) { exists i :: 0 <= i < |edges| && edges[i].code == name }

  // Everyone online with a known position, no fault, no loss.
  function Calm(edges: seq<Edge>, target: string, params: SessionParams): Env {
    Env(Some(params), if IsEdgeCode(edges, target) then EdgeTarget else ShipTarget, Found, Found, true,
        false, false, false, false, None, Schema.Garbage)
  }

  function Calmly(edges: seq<Edge>, target: string, params: SessionParams): Pc -> Env {
    var env := Calm(edges, target, params);
    pc => env
  }

  // What the engine demands of a frame before the air decides.
  predicate Sound(f: TransmitPacket, sender: string, params: SessionParams) {
    && Validate(f) == None && Transmitter(f) == sender && f.payload.Bytes? && f.hopCount <= MAX_HOPS
    && PayloadSize(f) <= MaxPayloadBytes(params.spreadingFactor)
  }

  lemma SoundPasses(f: TransmitPacket, sender: string, params: SessionParams, edges: seq<Edge>, x: nat)
    requires Sound(f, sender, params)
    ensures PassesAir(Transmit(sender, f, x), params, IsEdgeCode(edges, f.targetParent),
      Calmly(edges, f.targetParent, params))
  {
    SoundPath(f, sender, params);
    hide Validate, MaxPayloadBytes, PayloadSize, IsEdgeCode;
  }

  lemma SoundPath(f: TransmitPacket, sender: string, params: SessionParams)
    requires Sound(f, sender, params)
    ensures |f.routingPath| > 0
  {
  }

  // Nothing dropped, nothing filtered, no time passed.
  ghost predicate Clean(s: Store, s': Store) {
    Dropped(s') == Dropped(s) && Count(s', DuplicatesFiltered) == Count(s, DuplicatesFiltered)
  }

  lemma HandledCleanly(s: Store, log: seq<Output>, r: Request, edge: bool, answers: Pc -> Env)
    requires r.Transmit? && |r.pkt.routingPath| > 0 && FrameKey(r.pkt) !in s.dedup
    requires !answers(EdgeReply).ackLost
    ensures var s' := HandledEnd(s, log, r, edge, answers).0;
      Clean(s, s') && s'.dedup == s.dedup[FrameKey(r.pkt) := s.now + DEDUP_TTL]
  {
    hide Dropped, Count, RowOf;
    var s1 := MarkSeen(Incr(s, TransmitTotal), FrameKey(r.pkt));
    var s' := HandledEnd(s, log, r, edge, answers).0;
    assert s1.dedup == s.dedup[FrameKey(r.pkt) := s.now + DEDUP_TTL];
    forall k | k !in {TransmitTotal, ForwardedToNode, DeliveredToEdge, AcksRelayed}
      ensures Count(s', k) == Count(s, k)
    {
      OtherCounters(s, log, r, edge, answers, k);
    }
    SameDrops(s, s');
  }

  lemma OtherCounters(s: Store, log: seq<Output>, r: Request, edge: bool, answers: Pc -> Env, k: Stat)
    requires r.Transmit? && |r.pkt.routingPath| > 0 && FrameKey(r.pkt) !in s.dedup
    requires !answers(EdgeReply).ackLost && k !in {TransmitTotal, ForwardedToNode, DeliveredToEdge, AcksRelayed}
    ensures Count(HandledEnd(s, log, r, edge, answers).0, k) == Count(s, k)
  {
    hide RowOf, FrameKey, Transmitter, Notice;
  }

  lemma SameDrops(s: Store, s': Store)
    requires forall k :: k !in {TransmitTotal, ForwardedToNode, DeliveredToEdge, AcksRelayed} ==>
      Count(s', k) == Count(s, k)
    ensures Clean(s, s')
  {
    hide Count;
  }

  // ---- Names and knowledge ----------------------------------------------------------------------

  // Names are usable on the wire, and no ship is called like an edge.
  ghost predicate GoodNames(net: Net) {
    && (forall n, e :: n in net.nodes && e in net.edges ==> n.id != e.code)
    && (forall n :: n in net.nodes ==> GoodId(n.id)) && (forall e :: e in net.edges ==> GoodId(e.code))
  }

  // Every ship of the table sails and holds its own row.
  ghost predicate KnowRows(t: Table, ships: map<string, Ship>) {
    forall id :: id in t ==>
      id in ships && ships[id].id == id && ships[id].parent == t[id].parent
        && ships[id].routed == (t[id].status == Routed)
  }

  // Below level h nobody has met the packet yet.
  ghost predicate Unmet(t: Table, ships: map<string, Ship>, s: Store, packetId: string, h: int) {
    && KnowRows(t, ships)
    && (forall id :: id in t && t[id].hop < h ==> packetId !in ships[id].seen)
    && (forall k :: k in s.dedup && k.packetId == packetId ==> k.receiver in t && t[k.receiver].hop >= h)
  }

  lemma LevelOne(net: Net, t: Table, id: string)
    requires IsTopology(net, t) && GoodNames(net) && id in t && t[id].status == Routed
    ensures 1 <= t[id].hop <= MAX_HOPS && t[id].parent != ""
  {
    RowShape(net, t, id);
  }

  lemma EdgeParent(net: Net, t: Table, id: string)
    requires IsTopology(net, t) && id in t && t[id].status == Routed && t[id].hop == 1
    ensures IsEdgeCode(net.edges, t[id].parent) && ParentChain(t, id) == [id]
  {
    var n := Member(net, t, id);
    EdgeRow(net, t, n);
    hide IsTopology;
    var m, e :| m in net.nodes && e in net.edges && m.id == id && e.code == t[id].parent && InRange(net, m.at, e.at);
  }

  lemma ShipParent(net: Net, t: Table, id: string)
    requires IsTopology(net, t) && GoodNames(net) && id in t && t[id].status == Routed && t[id].hop >= 2
    ensures var m := t[id].parent;
      && m in t && t[m].status == Routed && t[m].hop == t[id].hop - 1 && t[m].parent != "" && GoodId(m)
        && GoodId(t[m].parent)
      && !IsEdgeCode(net.edges, m) && ParentChain(t, id) == [id] + ParentChain(t, m)
  {
    var n := Member(net, t, id);
    var m := ParentRow(net, t, n);
    NoShipIsEdge(net, m);
    GoodParent(net, t, m.id);
    LevelOne(net, t, m.id);
    hide IsTopology;
  }

  lemma GoodParent(net: Net, t: Table, id: string)
    requires IsTopology(net, t) && GoodNames(net) && id in t && t[id].status == Routed
    ensures GoodId(t[id].parent)
  {
    var n := Member(net, t, id);
    LevelOne(net, t, id);
    if t[id].hop == 1 {
      EdgeParent(net, t, id);
      hide IsTopology;
      assert forall i :: 0 <= i < |net.edges| ==> net.edges[i] in net.edges;
    } else {
      var m := ParentRow(net, t, n);
    }
  }

  lemma NoShipIsEdge(net: Net, n: NodePosition)
    requires GoodNames(net) && n in net.nodes
    ensures !IsEdgeCode(net.edges, n.id)
  {
    assert forall i :: 0 <= i < |net.edges| ==> net.edges[i] in net.edges;
  }

  // Levels fall along the chain, so the next receiver's dedup key is free.
  lemma ParentIsNew(net: Net, t: Table, ships: map<string, Ship>, s: Store, packetId: string, id: string)
    requires IsTopology(net, t) && GoodNames(net) && id in t && t[id].status == Routed
    requires Unmet(t, ships, s, packetId, t[id].hop)
    ensures Key(packetId, t[id].parent) !in s.dedup
  {
    LevelOne(net, t, id);
    if t[id].hop == 1 {
      EdgeParent(net, t, id);
      if t[id].parent in t { var n := Member(net, t, t[id].parent); NoShipIsEdge(net, n); }
    } else {
      ShipParent(net, t, id);
    }
  }

  lemma RelaySound(net: Net, t: Table, ships: map<string, Ship>, params: SessionParams, f: TransmitPacket, id: string)
    requires IsTopology(net, t) && GoodNames(net) && id in t && t[id].status == Routed && t[id].hop >= 2
    requires KnowRows(t, ships) && Sound(f, id, params) && |f.routingPath| == f.hopCount < MAX_HOPS
    ensures t[id].parent in ships && Sound(Relay(ships[t[id].parent], f), t[id].parent, params)
  {
    ShipParent(net, t, id);
    hide IsTopology, GoodNames, MaxPayloadBytes;
    var m := t[id].parent;
    var g := Relay(ships[m], f);
    assert forall i :: 0 <= i < |g.routingPath| ==> GoodId(g.routingPath[i]) by {
      assert forall i :: 0 <= i < |f.routingPath| ==> GoodId(f.routingPath[i]) && g.routingPath[i] == f.routingPath[i];
    }
  }

  // ---- One hop of the fleet ---------------------------------------------------------------------

  // The call's first airing takes off and its handler runs to the end.
  lemma Hop(w: World, c: nat, id: string, f: TransmitPacket, edges: seq<Edge>, params: SessionParams)
    returns (actions: seq<Action>)
    requires c < |w.calls| && w.calls[c] == Call(id, f, Ready, []) && id in w.ships
    requires Sound(f, id, params) && FrameKey(f) !in w.engine.store.dedup
    ensures |f.routingPath| > 0
    ensures var x, edge, answers := |w.airings|, IsEdgeCode(edges, f.targetParent),
      Calmly(edges, f.targetParent, params);
      var w' := Follow(w, actions);
      && |w'.airings| == x + 1 && |w'.calls| == |w.calls|
      && id in w'.ships && w'.ships == w.ships[id := w.ships[id].(waiters := w'.ships[id].waiters)]
      && (w'.engine.store, w'.engine.log) == HandledEnd(w.engine.store, w.engine.log, Transmit(id, f, x), edge, answers)
  {
    hide Follow, Next, HandledEnd, Drain, Sound, Calmly, IsEdgeCode, Flight, PassesAir, FrameKey;
    SoundPath(f, id, params);
    var x, edge, answers := |w.airings|, IsEdgeCode(edges, f.targetParent), Calmly(edges, f.targetParent, params);
    var w1 := Next(w, Air(c));
    Attempted(w, c);
    FollowOne(w, Air(c));
    assert RequestOf(w1, x) == Transmit(id, f, x);
    Flown(w1, x, answers);
    actions := [Air(c)] + Flight(w1, x, answers);
    FollowOn(w, [Air(c)], Flight(w1, x, answers));
    SoundPasses(f, id, params, edges, x);
    HandledStretch(w.engine.store, w.engine.log, Transmit(id, f, x), params, edge, answers);
  }

  // To a ship: the parent takes the frame in and starts relaying it.
  lemma RelayRun(t: Table, w: World, c: nat, id: string, f: TransmitPacket, edges: seq<Edge>, params: SessionParams)
    returns (actions: seq<Action>)
    requires c < |w.calls| && w.calls[c] == Call(id, f, Ready, []) && id in w.ships
    requires id in t && t[id].parent in t && t[t[id].parent].hop == t[id].hop - 1 && f.targetParent == t[id].parent
    requires t[t[id].parent].status == Routed && t[t[id].parent].parent != "" && t[id].parent != id
    requires Unmet(t, w.ships, w.engine.store, f.packetId, t[id].hop)
      && Key(f.packetId, t[id].parent) !in w.engine.store.dedup
    requires Sound(f, id, params) && !IsEdgeCode(edges, f.targetParent)
    ensures t[id].parent in w.ships
    ensures var m := t[id].parent; var w' := Follow(w, actions);
      && |w'.calls| == |w.calls| + 1 && w'.calls[|w.calls|] == Call(m, Relay(w.ships[m], f), Ready, []) && m in w'.ships
      && |w'.airings| == |w.airings| + 1 && w.engine.log <= w'.engine.log && Clean(w.engine.store, w'.engine.store)
      && Unmet(t, w'.ships, w'.engine.store, f.packetId, t[id].hop - 1)
  {
    hide Follow, HandledEnd, Sound, Calmly, IsEdgeCode, Unmet, Clean, Receive, Next, Relay;
    var m := t[id].parent;
    var r, answers := Transmit(id, f, |w.airings|), Calmly(edges, m, params);
    var first := Hop(w, c, id, f, edges, params);
    var w1 := Follow(w, first);
    SteadyReply(edges, m, params);
    HandledCleanly(w.engine.store, w.engine.log, r, false, answers);
    var i := Forwarded(w.engine.store, w.engine.log, r, answers);
    FirstMeeting(t, w.ships, w.engine.store, w1.ships, f, id);
    HearFrame(w1, m, i, f);
    FollowOne(w1, Hear(m, i));
    actions := first + [Hear(m, i)];
    FollowOn(w, first, [Hear(m, i)]);
    StaysUnmet(t, w.ships, w1.ships, w.engine.store, w1.engine.store, f, id);
  }

  lemma SteadyReply(edges: seq<Edge>, target: string, params: SessionParams)
    ensures forall pc :: Calmly(edges, target, params)(pc) == Calm(edges, target, params)
    ensures !Calm(edges, target, params).ackLost && !Calm(edges, target, params).storeFault
      && Calm(edges, target, params).schema == None
  {
  }

  lemma Forwarded(s: Store, log: seq<Output>, r: Request, answers: Pc -> Env) returns (i: nat)
    requires r.Transmit? && |r.pkt.routingPath| > 0 && FrameKey(r.pkt) !in s.dedup
    ensures var log' := HandledEnd(s, log, r, false, answers).1;
      log <= log' && |log| <= i < |log'| && log'[i].FrameSent? && log'[i].to == r.pkt.targetParent
        && log'[i].pkt == r.pkt
  {
    hide Transmitter, Notice, FrameKey;
    i := |HandledEnd(s, log, r, false, answers).1| - 2;
  }

  lemma FirstMeeting(t: Table, ships: map<string, Ship>, s: Store, ships1: map<string, Ship>, f: TransmitPacket,
      id: string)
    requires id in t && t[id].parent in t && t[t[id].parent].hop < t[id].hop && t[id].parent != id && id in ships
    requires t[t[id].parent].status == Routed && t[t[id].parent].parent != ""
    requires Unmet(t, ships, s, f.packetId, t[id].hop)
    requires id in ships1 && ships1 == ships[id := ships[id].(waiters := ships1[id].waiters)]
    ensures var m := t[id].parent;
      m in ships1 && m in ships && ships1[m] == ships[m] && Receive(ships1[m], f).1 == Some(Relay(ships[m], f))
        && ships1[m].id == m
  {
    hide Relay;
  }

  lemma HearFrame(w: World, m: string, i: nat, f: TransmitPacket)
    requires m in w.ships && w.ships[m].id == m && Receive(w.ships[m], f).1.Some?
    requires i < |w.engine.log| && w.engine.log[i].FrameSent? && w.engine.log[i].to == m && w.engine.log[i].pkt == f
    ensures Next(w, Hear(m, i))
      == w.(ships := w.ships[m := Receive(w.ships[m], f).0],
        calls := w.calls + [Call(m, Receive(w.ships[m], f).1.value, Ready, [])])
  {
    hide Relay;
  }

  lemma StaysUnmet(t: Table, ships: map<string, Ship>, ships1: map<string, Ship>, s: Store, s1: Store,
      f: TransmitPacket, id: string)
    requires id in t && t[id].parent in t && t[t[id].parent].hop == t[id].hop - 1 && f.targetParent == t[id].parent
      && id in ships
    requires Unmet(t, ships, s, f.packetId, t[id].hop) && s1.dedup == s.dedup[FrameKey(f) := s.now + DEDUP_TTL]
    requires id in ships1 && ships1 == ships[id := ships[id].(waiters := ships1[id].waiters)] && t[id].parent in ships1
    ensures Unmet(t, ships1[t[id].parent := Receive(ships1[t[id].parent], f).0], s1, f.packetId, t[id].hop - 1)
  {
    hide Relay;
  }

  // ---- The whole way ------------------------------------------------------------------------------

  // The row a frame at level h leaves at the end of its parent chain.
  function Promised(t: Table, f: TransmitPacket, id: string, before: seq<string>): TelemetryRow
    requires id in t
  {
    TelemetryRow(f.originNode, FinalEdge(t, id), f.hopCount + t[id].hop - 1,
      before + ParentChain(t, id) + [FinalEdge(t, id)],
                 Raw(f.payload, []))
  }

  ghost predicate DeliversAt(w: World, w': World, packetId: string, row: TelemetryRow, transmissions: int) {
    && |w'.airings| == |w.airings| + transmissions && w.engine.log <= w'.engine.log
      && Clean(w.engine.store, w'.engine.store)
    && exists i :: |w.engine.log| <= i < |w'.engine.log| && IsDelivery(w'.engine.log[i], packetId, row)
  }

  predicate IsDelivery(o: Output, packetId: string, row: TelemetryRow) {
    o.Delivered? && o.key == Key(packetId, row.edge) && o.row == row && o.stored
  }

  lemma LastHop(w: World, c: nat, id: string, f: TransmitPacket, edges: seq<Edge>, params: SessionParams)
      returns (actions: seq<Action>)
    requires c < |w.calls| && w.calls[c] == Call(id, f, Ready, []) && id in w.ships
    requires Sound(f, id, params) && FrameKey(f) !in w.engine.store.dedup && IsEdgeCode(edges, f.targetParent)
    ensures DeliversAt(w, Follow(w, actions), f.packetId,
      TelemetryRow(f.originNode, f.targetParent, f.hopCount, f.routingPath + [f.targetParent], Raw(f.payload, [])), 1)
  {
    hide Follow, HandledEnd, Sound, Calmly, IsEdgeCode, Clean, IsDelivery, FrameKey;
    var r, answers := Transmit(id, f, |w.airings|), Calmly(edges, f.targetParent, params);
    actions := Hop(w, c, id, f, edges, params);
    SteadyReply(edges, f.targetParent, params);
    HandledCleanly(w.engine.store, w.engine.log, r, true, answers);
    var i := Stored(w.engine.store, w.engine.log, r, answers);
  }

  lemma Stored(s: Store, log: seq<Output>, r: Request, answers: Pc -> Env) returns (i: nat)
    requires r.Transmit? && |r.pkt.routingPath| > 0 && FrameKey(r.pkt) !in s.dedup
    requires !answers(EdgeReply).ackLost && !answers(Persist(s.now)).storeFault
      && answers(Persist(s.now)).schema == None
    ensures var log' := HandledEnd(s, log, r, true, answers).1;
      var p := r.pkt;
      log <= log' && |log| <= i < |log'| && IsDelivery(log'[i], p.packetId,
        TelemetryRow(p.originNode, p.targetParent, p.hopCount, p.routingPath + [p.targetParent], Raw(p.payload, [])))
  {
    hide Transmitter, Notice, AckEventOf;
    i := |HandledEnd(s, log, r, true, answers).1| - 4;
  }

  /** A call at level h has a continuation in which h transmissions, none lost, end at the edge of its parent chain. */
  lemma {:induction false} ChainDelivers(net: Net, t: Table, w: World, c: nat, id: string, f: TransmitPacket,
      before: seq<string>,
                                         params: SessionParams) returns (actions: seq<Action>)
    requires IsTopology(net, t) && GoodNames(net) && id in t && t[id].status == Routed
    requires c < |w.calls| && w.calls[c] == Call(id, f, Ready, []) && id in w.ships
    requires Unmet(t, w.ships, w.engine.store, f.packetId, t[id].hop)
    requires Sound(f, id, params) && f.targetParent == t[id].parent
    requires f.routingPath == before + [id] && |f.routingPath| == f.hopCount && f.hopCount + t[id].hop - 1 <= MAX_HOPS
    ensures t[id].hop >= 1 && DeliversAt(w, Follow(w, actions), f.packetId, Promised(t, f, id, before), t[id].hop)
    decreases t[id].hop
  {
    hide IsTopology, GoodNames, Unmet, Sound, Follow, Promised, DeliversAt, Relay, IsEdgeCode, ParentChain, FinalEdge;
    LevelOne(net, t, id);
    ParentIsNew(net, t, w.ships, w.engine.store, f.packetId, id);
    if t[id].hop == 1 {
      EdgeParent(net, t, id);
      actions := LastHop(w, c, id, f, net.edges, params);
      PromiseAtEdge(t, f, id, before);
    } else {
      var m := t[id].parent;
      ShipParent(net, t, id);
      Knowing(t, w.ships, w.engine.store, f.packetId, t[id].hop);
      RelaySound(net, t, w.ships, params, f, id);
      var first := RelayRun(t, w, c, id, f, net.edges, params);
      var w1 := Follow(w, first);
      var g := Relay(w.ships[m], f);
      RelayFacts(w.ships[m], f, before, id, m);
      assert w.ships[m].id == m && w.ships[m].parent == t[m].parent;
      var rest := ChainDelivers(net, t, w1, |w.calls|, m, g, before + [id], params);
      actions := first + rest;
      FollowOn(w, first, rest);
      PromiseKept(t, f, g, id, before);
      Delivers2(w, w1, Follow(w1, rest), f.packetId, Promised(t, f, id, before), t[m].hop);
    }
  }

  lemma Knowing(t: Table, ships: map<string, Ship>, s: Store, packetId: string, h: int)
    requires Unmet(t, ships, s, packetId, h)
    ensures KnowRows(t, ships)
  {
  }

  lemma RelayFacts(s: Ship, f: TransmitPacket, before: seq<string>, id: string, m: string)
    requires s.id == m && f.routingPath == before + [id]
    ensures var g := Relay(s, f);
      && g.packetId == f.packetId && g.originNode == f.originNode && g.payload == f.payload
        && g.targetParent == s.parent
      && g.hopCount == f.hopCount + 1 && g.routingPath == (before + [id]) + [m]
  {
  }

  lemma Delivers2(w: World, w1: World, w2: World, packetId: string, row: TelemetryRow, rest: int)
    requires |w1.airings| == |w.airings| + 1 && w.engine.log <= w1.engine.log && Clean(w.engine.store, w1.engine.store)
    requires DeliversAt(w1, w2, packetId, row, rest)
    ensures DeliversAt(w, w2, packetId, row, rest + 1)
  {
    hide IsDelivery;
  }

  lemma PromiseAtEdge(t: Table, f: TransmitPacket, id: string, before: seq<string>)
    requires id in t && t[id].hop == 1 && ParentChain(t, id) == [id] && f.routingPath == before + [id]
    ensures Promised(t, f, id, before)
      == TelemetryRow(f.originNode, t[id].parent, f.hopCount, f.routingPath + [t[id].parent], Raw(f.payload, []))
  {
  }

  lemma PromiseKept(t: Table, f: TransmitPacket, g: TransmitPacket, id: string, before: seq<string>)
    requires id in t && t[id].parent in t && t[t[id].parent].hop == t[id].hop - 1
    requires ParentChain(t, id) == [id] + ParentChain(t, t[id].parent)
    requires g.originNode == f.originNode && g.hopCount == f.hopCount + 1 && g.payload == f.payload
    ensures Promised(t, g, t[id].parent, before + [id]) == Promised(t, f, id, before)
  {
    var m := t[id].parent;
    assert before + [id] + ParentChain(t, m) == before + ParentChain(t, id);
  }

  // ---- A new packet is new to everybody ---------------------------------------------------------

  ghost predicate MintedId(ships: map<string, Ship>, packetId: string) {
    exists id, n: nat :: id in ships && 1 <= n <= ships[id].pktSeq && packetId == PacketId(id, n)
  }

  // Whatever a ship has seen or the engine has admitted was issued by some ship.
  ghost predicate OnlyMinted(w: World) {
    && (forall id, p :: id in w.ships && p in w.ships[id].seen ==> MintedId(w.ships, p))
    && (forall k :: k in w.engine.store.dedup ==> MintedId(w.ships, k.packetId))
  }

  lemma MintedStays(ships: map<string, Ship>, ships': map<string, Ship>, p: string)
    requires ShipsGrow(ships, ships') && MintedId(ships, p)
    ensures MintedId(ships', p)
  {
    var id, n: nat :| id in ships && 1 <= n <= ships[id].pktSeq && p == PacketId(id, n);
    assert id in ships' && 1 <= n <= ships'[id].pktSeq;
  }

  lemma FrameMinted(w: World, c: nat)
    requires WorldOk(w) && c < |w.calls|
    ensures MintedId(w.ships, w.calls[c].frame.packetId)
  {
    assert CallOk(w.ships, w.calls, c);
    var f := w.calls[c].frame;
    var n: nat :| 1 <= n <= w.ships[f.originNode].pktSeq && f.packetId == PacketId(f.originNode, n);
  }

  // What one action may add to memories and dedup keys.
  lemma NextAdds(w: World, a: Action)
    requires WorldOk(w)
    ensures var w' := Next(w, a);
      && ShipsGrow(w.ships, w'.ships)
      && (forall id, p :: id in w'.ships && p in w'.ships[id].seen ==>
            (id in w.ships && p in w.ships[id].seen)
              || (a.Hear? && Received(w, a.id, a.i) && p == w.engine.log[a.i].pkt.packetId))
  {
    hide WorldOk, Next;
    ReadyCallsFew(w);
    if a.Report? || a.Hear? || a.Join? { MemoryAdds(w, a); } else { QuietAdds(w, a); }
  }

  lemma MemoryAdds(w: World, a: Action)
    requires a.Report? || a.Hear? || a.Join?
    requires forall id :: id in w.ships ==> w.ships[id].id == id
    ensures var w' := Next(w, a);
      && ShipsGrow(w.ships, w'.ships)
      && (forall id, p :: id in w'.ships && p in w'.ships[id].seen ==>
            (id in w.ships && p in w.ships[id].seen)
              || (a.Hear? && Received(w, a.id, a.i) && p == w.engine.log[a.i].pkt.packetId))
  {
    hide Relay, Telemetry, AckShip, AirFrame, ExpireCall, Listen, Engage, StartCall;
    StartAdds(w);
  }

  lemma QuietAdds(w: World, a: Action)
    requires !a.Report? && !a.Hear? && !a.Join?
    ensures var w' := Next(w, a);
      w'.ships.Keys == w.ships.Keys && forall id :: id in w.ships ==>
        w'.ships[id].id == w.ships[id].id && w'.ships[id].seen == w.ships[id].seen
          && w'.ships[id].pktSeq == w.ships[id].pktSeq
  {
    hide Receive, Originate, AckShip, AirFrame, ExpireCall, Listen, Engage, StartCall;
    if a.HearAck? && CanHearAck(w, a.id, a.i) { AckAdds(w, a.id, a.i); }
    if a.Air? && CanAir(w, a.call) { AiringAdds(w, a.call); }
    if a.Expire? && CanExpire(w, a.call) { ExpireAdds(w, a.call); }
    if a.FailWrite? && CanAir(w, a.call) { ListenAdds(w.ships[w.calls[a.call].ship], w.calls[a.call].frame.packetId); }
    EngageAdds(w);
  }

  lemma AiringAdds(w: World, c: nat)
    requires CanAir(w, c)
    ensures var w', id := AirFrame(w, c), w.calls[c].ship;
      id in w'.ships && w'.ships == w.ships[id := w.ships[id].(waiters := w'.ships[id].waiters)]
  {
  }

  lemma StartAdds(w: World)
    ensures forall s, f :: StartCall(w, s, f).ships == w.ships[s.id := s]
  {
  }

  lemma EngageAdds(w: World)
    ensures forall step :: Engage(w, step).ships == w.ships
  {
  }

  lemma NextKeepsKeys(w: World, a: Action)
    requires !a.Serve?
    ensures Next(w, a).engine.store.dedup == w.engine.store.dedup
  {
    hide Receive, Originate, AckShip, AirFrame, ExpireCall, Listen, Start, Fresh;
    if a.HearAck? && CanHearAck(w, a.id, a.i) { AckAdds(w, a.id, a.i); }
    if a.Air? && CanAir(w, a.call) { AirAdds(w, a.call); }
    if a.Expire? && CanExpire(w, a.call) { ExpireAdds(w, a.call); }
  }

  lemma AirAdds(w: World, c: nat)
    requires CanAir(w, c)
    ensures AirFrame(w, c).engine == w.engine
  {
  }

  lemma AckAdds(w: World, id: string, i: nat)
    requires CanHearAck(w, id, i)
    ensures var w' := AckShip(w, id, i);
      w'.engine == w.engine && id in w'.ships
        && w'.ships == w.ships[id := w.ships[id].(waiters := w'.ships[id].waiters)]
  {
  }

  lemma ExpireAdds(w: World, c: nat)
    requires CanExpire(w, c)
    ensures var w', id := ExpireCall(w, c), w.calls[c].ship;
      w'.engine == w.engine && id in w'.ships
        && w'.ships == w.ships[id := w.ships[id].(waiters := w'.ships[id].waiters)]
  {
  }

  lemma ListenAdds(s: Ship, p: string)
    ensures forall t :: Listen(s, p, t) == s.(waiters := Listen(s, p, t).waiters)
  {
  }

  lemma ServeAdds(w: World, j: nat, env: Env)
    requires j < |w.engine.jobs| && OwnPc(w.engine.jobs[j])
    ensures var r := w.engine.jobs[j].request; var w' := Next(w, Serve(j, env));
      forall k :: k in w'.engine.store.dedup ==> k in w.engine.store.dedup || (k == JobKey(r) && r.Transmit?)
  {
    hide Count, Incr, JudgeFrame, Seen, Forget, Remember, SenderOf, SenderName, FrameEvent, AckEventOf, RowOf, Validate,
         Transmitter;
    var job := w.engine.jobs[j];
    AdmitsOwn(job.request, job.pc, w.engine.store, env);
    hide Perform;
  }

  lemma AdmitsOwn(r: Request, pc: Pc, s: Store, env: Env)
    ensures forall k :: k in Perform(r, pc, s, env).store.dedup ==> k in s.dedup || (k == JobKey(r) && pc.Dedup?)
  {
    hide Count, JudgeFrame, Seen, SenderOf, SenderName, FrameEvent, AckEventOf, RowOf, Validate, Transmitter, JobKey;
  }

  lemma OnlyMintedStep(w: World, a: Action)
    requires WorldOk(w) && OnlyMinted(w)
    ensures OnlyMinted(Next(w, a))
  {
    hide WorldOk, Next, MintedId, ShipsGrow;
    var w' := Next(w, a);
    NextAdds(w, a);
    if !a.Serve? { NextKeepsKeys(w, a); }
    forall p | MintedId(w.ships, p) ensures MintedId(w'.ships, p) { MintedStays(w.ships, w'.ships, p); }
    if a.Hear? && Received(w, a.id, a.i) {
      var c := CallHeard(w, a.id, a.i);
      FrameMinted(w, c);
    }
    if a.Serve? {
      if a.job < |w.engine.jobs| {
        ServeMints(w, a.job, a.env);
      } else {
        NoSuchJob(w, a.job, a.env);
      }
    }
  }

  lemma NoSuchJob(w: World, j: nat, env: Env)
    requires j >= |w.engine.jobs|
    ensures Next(w, Serve(j, env)) == w
  {
  }

  lemma ServeMints(w: World, j: nat, env: Env)
    requires WorldOk(w) && j < |w.engine.jobs|
    ensures forall k :: k in Next(w, Serve(j, env)).engine.store.dedup ==>
      k in w.engine.store.dedup || MintedId(w.ships, k.packetId)
  {
    hide Next, MintedId, Perform, PastTtl;
    var job := w.engine.jobs[j];
    assert JobOk(w.calls, w.airings, job);
    ServeAdds(w, j, env);
    if job.request.Transmit? { FrameMinted(w, w.airings[job.request.tag].call); }
  }

  lemma {:induction false} AlwaysOnlyMinted(actions: seq<Action>)
    ensures OnlyMinted(Play(actions))
  {
    hide WorldOk, Next, OnlyMinted;
    if |actions| == 0 {
      NothingMinted();
    } else {
      AlwaysOk(actions[..|actions| - 1]);
      AlwaysOnlyMinted(actions[..|actions| - 1]);
      OnlyMintedStep(Play(actions[..|actions| - 1]), actions[|actions| - 1]);
    }
  }

  lemma NothingMinted()
    ensures OnlyMinted(GENESIS)
  {
    hide MintedId;
    assert |GENESIS.ships| == 0 && |GENESIS.engine.store.dedup| == 0;
  }

  // The next id of a ship is none of them.
  lemma NextIdUnmet(t: Table, w: World, id: string, h: int)
    requires OnlyMinted(w) && KnowRows(t, w.ships) && id in w.ships
    ensures Unmet(t, w.ships, w.engine.store, PacketId(id, w.ships[id].pktSeq + 1), h)
  {
    var p := PacketId(id, w.ships[id].pktSeq + 1);
    if MintedId(w.ships, p) {
      var o, n: nat :| o in w.ships && 1 <= n <= w.ships[o].pktSeq && p == PacketId(o, n);
      PacketIdsUnique(o, n, id, w.ships[id].pktSeq + 1);
      assert false;
    }
    hide MintedId;
  }

  // ---- Main results -----------------------------------------------------------------------------

  /** In any reachable world whose ships hold their rows, a report of a level-k ship has a continuation that delivers it
      on transmission k with hop count k, the parent chain as its path, and nothing dropped or filtered. */
  lemma LosslessDelivery(net: Net, t: Table, before: seq<Action>, params: SessionParams, id: string, raw: seq<byte>,
      ignoreSF: bool)
    returns (actions: seq<Action>)
    requires IsTopology(net, t) && GoodNames(net) && KnowRows(t, Play(before).ships)
    requires id in t && t[id].status == Routed && GoodId(PacketId(id, Play(before).ships[id].pktSeq + 1))
    requires 0 < |raw| <= Play(before).ships[id].maxPayload && |raw| <= MaxPayloadBytes(params.spreadingFactor)
    ensures |actions| > 0 && actions[0] == Report(id, raw, ignoreSF)
    ensures var w := Play(before);
      DeliversAt(w, Play(before + actions), PacketId(id, w.ships[id].pktSeq + 1),
        TelemetryRow(id, FinalEdge(t, id), t[id].hop, ParentChain(t, id) + [FinalEdge(t, id)], Raw(Bytes(raw), [])),
          t[id].hop)
  {
    hide IsTopology, GoodNames, Play, Follow, Next, DeliversAt, Promised, Sound, Unmet, OnlyMinted, ParentChain,
         FinalEdge, Telemetry;
    var w := Play(before);
    AlwaysOnlyMinted(before);
    FirstFrame(net, t, w.ships[id], params, id, raw);
    var f := Telemetry(w.ships[id], raw);
    NextIdUnmet(t, w, id, t[id].hop);
    var report := Report(id, raw, ignoreSF);
    Reported(w, id, raw, ignoreSF);
    var w1 := Next(w, report);
    FollowOne(w, report);
    StillUnmet(t, w.ships, w1.ships, w.engine.store, f.packetId, t[id].hop, id);
    var rest := ChainDelivers(net, t, w1, |w.calls|, id, f, [], params);
    actions := [report] + rest;
    FollowOn(w, [report], rest);
    PlayOn(before, actions);
    PromiseAtOrigin(t, f, id, raw);
    SameStart(w, w1, Follow(w1, rest), f.packetId, Promised(t, f, id, []), t[id].hop);
  }

  lemma FirstFrame(net: Net, t: Table, s: Ship, params: SessionParams, id: string, raw: seq<byte>)
    requires IsTopology(net, t) && GoodNames(net) && id in t && t[id].status == Routed
    requires s.id == id && s.parent == t[id].parent && s.routed && GoodId(PacketId(id, s.pktSeq + 1))
    requires 0 < |raw| <= MaxPayloadBytes(params.spreadingFactor)
    ensures var f := Telemetry(s, raw);
      && Sound(f, id, params) && f.packetId == PacketId(id, s.pktSeq + 1) && f.originNode == id && f.hopCount == 1
      && f.routingPath == [] + [id] && f.targetParent == t[id].parent && f.payload == Bytes(raw)
      && 1 <= t[id].hop <= MAX_HOPS && t[id].parent != ""
  {
    LevelOne(net, t, id);
    GoodParent(net, t, id);
    var n := Member(net, t, id);
    hide IsTopology;
  }

  lemma Reported(w: World, id: string, raw: seq<byte>, ignoreSF: bool)
    requires id in w.ships && w.ships[id].id == id && w.ships[id].routed && w.ships[id].parent != ""
      && |raw| <= w.ships[id].maxPayload
    ensures Next(w, Report(id, raw, ignoreSF))
      == w.(ships := w.ships[id := w.ships[id].(pktSeq := w.ships[id].pktSeq + 1)],
            calls := w.calls + [Call(id, Telemetry(w.ships[id], raw), Ready, [])])
  {
    hide Telemetry;
  }

  lemma StillUnmet(t: Table, ships: map<string, Ship>, ships1: map<string, Ship>, s: Store, p: string, h: int,
      id: string)
    requires Unmet(t, ships, s, p, h) && id in ships
      && ships1 == ships[id := ships[id].(pktSeq := ships[id].pktSeq + 1)]
    ensures Unmet(t, ships1, s, p, h)
  {
  }

  lemma PromiseAtOrigin(t: Table, f: TransmitPacket, id: string, raw: seq<byte>)
    requires id in t && f.originNode == id && f.hopCount == 1 && f.payload == Bytes(raw)
    ensures Promised(t, f, id, [])
      == TelemetryRow(id, FinalEdge(t, id), t[id].hop, ParentChain(t, id) + [FinalEdge(t, id)], Raw(Bytes(raw), []))
  {
    assert [] + ParentChain(t, id) == ParentChain(t, id);
  }

  lemma SameStart(w: World, w1: World, w2: World, packetId: string, row: TelemetryRow, transmissions: int)
    requires w1.airings == w.airings && w1.engine == w.engine && DeliversAt(w1, w2, packetId, row, transmissions)
    ensures DeliversAt(w, w2, packetId, row, transmissions)
  {
    hide IsDelivery;
  }

  // Every ship of the stored table is online and applied the last route it was sent.
  ghost predicate RoutesApplied(s: DistributionTheorems.State, ships: map<string, Ship>) {
    forall id :: id in s.table ==>
      && DistributionTheorems.Online(s.registry, id).Some?
        && DistributionTheorems.Online(s.registry, id).value in s.held
      && id in ships && ships[id].id == id
      && var u := s.held[DistributionTheorems.Online(s.registry, id).value].update;
         ships[id] == OnRoutingUpdate(ships[id], u.parent, u.parentIsEdge, u.status)
  }

  /** The routes pushed by the server are enough: ships that applied what they were last sent hold their rows. */
  lemma PushesInform(steps: seq<DistributionTheorems.Step>, dist: (Point, Point) -> real, ships: map<string, Ship>)
    requires RoutesApplied(DistributionTheorems.Run(steps, dist), ships)
    ensures KnowRows(DistributionTheorems.Run(steps, dist).table, ships)
  {
    hide DistributionTheorems.Run, DistributionTheorems.Online;
    var s := DistributionTheorems.Run(steps, dist);
    forall id | id in s.table
      ensures id in ships && ships[id].id == id && ships[id].parent == s.table[id].parent
      ensures ships[id].routed == (s.table[id].status == Routed)
    {
      DistributionTheorems.ShipsAgree(steps, dist, id);
    }
  }

  // The last route each of these ships was sent, as the fleet takes it in.
  ghost predicate Pushes(s: DistributionTheorems.State, actions: seq<Action>) {
    forall a :: a in actions ==>
      && a.Route? && a.id in s.table && DistributionTheorems.Online(s.registry, a.id).Some?
      && DistributionTheorems.Online(s.registry, a.id).value in s.held
      && var u := s.held[DistributionTheorems.Online(s.registry, a.id).value].update;
         a.parent == u.parent && a.parentIsEdge == u.parentIsEdge && a.status == u.status
  }

  // Routes change nothing else about a ship.
  ghost predicate SameButRoutes(w: World, w': World) {
    && w' == w.(ships := w'.ships) && w'.ships.Keys == w.ships.Keys
    && forall id :: id in w.ships ==>
      && w'.ships[id].id == w.ships[id].id && w'.ships[id].pktSeq == w.ships[id].pktSeq
      && w'.ships[id].maxPayload == w.ships[id].maxPayload
  }

  lemma {:induction false} PushAll(steps: seq<DistributionTheorems.Step>, dist: (Point, Point) -> real, w: World,
      ids: set<string>)
    returns (actions: seq<Action>)
    requires var s := DistributionTheorems.Run(steps, dist);
      forall id :: id in ids ==> id in s.table && DistributionTheorems.Online(s.registry, id).Some? && id in w.ships
    ensures Pushes(DistributionTheorems.Run(steps, dist), actions)
    ensures SameButRoutes(w, Follow(w, actions))
    ensures var t, ships := DistributionTheorems.Run(steps, dist).table, Follow(w, actions).ships;
      forall id :: id in ids ==> ships[id].parent == t[id].parent && ships[id].routed == (t[id].status == Routed)
    decreases ids
  {
    hide DistributionTheorems.Run, DistributionTheorems.Online, Next;
    actions := [];
    if ids != {} {
      var id :| id in ids;
      var s := DistributionTheorems.Run(steps, dist);
      var rest := PushAll(steps, dist, w, ids - {id});
      DistributionTheorems.ShipsAgree(steps, dist, id);
      var u := s.held[DistributionTheorems.Online(s.registry, id).value].update;
      var last := Route(id, u.parent, u.parentIsEdge, u.status);
      actions := rest + [last];
      FollowOn(w, rest, [last]);
      FollowOne(Follow(w, rest), last);
      RouteNext(Follow(w, rest), id, u.parent, u.parentIsEdge, u.status);
      hide Follow;
    }
  }

  lemma RouteNext(w: World, id: string, parent: string, isEdge: bool, status: Status)
    requires id in w.ships
    ensures Next(w, Route(id, parent, isEdge, status))
      == w.(ships := w.ships[id := w.ships[id].(parent := parent, parentIsEdge := isEdge, routed := status == Routed)])
  {
  }

  /** Scheduler, route pushes, ships and engine together: after any run of the scheduler, any reachable fleet with the
      ships of the stored table aboard has a continuation that takes in the last pushes and then delivers a report on
      transmission k along that table. */
  lemma PushedRoutesDeliver(steps: seq<DistributionTheorems.Step>, dist: (Point, Point) -> real, net: Net,
                            before: seq<Action>, params: SessionParams, id: string, raw: seq<byte>, ignoreSF: bool)
    returns (pushes: seq<Action>, actions: seq<Action>)
    requires var t := DistributionTheorems.Run(steps, dist).table;
      IsTopology(net, t) && GoodNames(net) && id in t && t[id].status == Routed
    requires var s := DistributionTheorems.Run(steps, dist);
      forall o :: o in s.table ==> DistributionTheorems.Online(s.registry, o).Some? && o in Play(before).ships
    requires GoodId(PacketId(id, Play(before).ships[id].pktSeq + 1))
    requires 0 < |raw| <= Play(before).ships[id].maxPayload && |raw| <= MaxPayloadBytes(params.spreadingFactor)
    ensures Pushes(DistributionTheorems.Run(steps, dist), pushes)
    ensures |actions| > 0 && actions[0] == Report(id, raw, ignoreSF)
    ensures var w, t := Play(before), DistributionTheorems.Run(steps, dist).table;
      DeliversAt(w, Play(before + pushes + actions), PacketId(id, w.ships[id].pktSeq + 1),
        TelemetryRow(id, FinalEdge(t, id), t[id].hop, ParentChain(t, id) + [FinalEdge(t, id)], Raw(Bytes(raw), [])),
          t[id].hop)
  {
    hide DistributionTheorems.Run, DistributionTheorems.Online, Play, Follow, IsTopology, GoodNames, DeliversAt,
         ParentChain, FinalEdge, Pushes;
    var t, w := DistributionTheorems.Run(steps, dist).table, Play(before);
    pushes := PushAll(steps, dist, w, t.Keys);
    PlayOn(before, pushes);
    var w1 := Play(before + pushes);
    AlwaysOk(before);
    ReadyCallsFew(w);
    actions := LosslessDelivery(net, t, before + pushes, params, id, raw, ignoreSF);
    SameStart(w, w1, Play(before + pushes + actions), PacketId(id, w.ships[id].pktSeq + 1),
      TelemetryRow(id, FinalEdge(t, id), t[id].hop, ParentChain(t, id) + [FinalEdge(t, id)], Raw(Bytes(raw), [])),
        t[id].hop);
  }

  // ---- An ordinary answered call ------------------------------------------------------------------

  lemma EdgeAnswers(s: Store, log: seq<Output>, r: Request, answers: Pc -> Env)
    requires r.Transmit? && |r.pkt.routingPath| > 0 && FrameKey(r.pkt) !in s.dedup && !answers(EdgeReply).ackLost
    ensures var log' := HandledEnd(s, log, r, true, answers).1;
      |log'| >= 2 && log'[|log'| - 2] == AckSent(Transmitter(r.pkt), FrameKey(r.pkt), FromEdge)
  {
    hide Transmitter, Notice, AckEventOf, RowOf;
  }

  /** In any reachable world a level-1 ship's report, left to the retry loop, airs one frame and ends acked when the
      engine handles it before the loop looks again: the loop's hypotheses are met in the ordinary way. */
  lemma ReportAnswered(net: Net, t: Table, before: seq<Action>, params: SessionParams, id: string, raw: seq<byte>,
      wait: nat)
    returns (during: nat -> seq<Action>, i: nat)
    requires IsTopology(net, t) && GoodNames(net) && KnowRows(t, Play(before).ships)
    requires id in t && t[id].status == Routed && t[id].hop == 1
    requires GoodId(PacketId(id, Play(before).ships[id].pktSeq + 1))
    requires 0 < |raw| <= Play(before).ships[id].maxPayload && |raw| <= MaxPayloadBytes(params.spreadingFactor)
    requires wait >= Play(before).ships[id].ackTimeout + RETRY_GUARD
    ensures forall k :: Background(during(k))
    ensures var w, c := Play(before), |Play(before).calls|;
      var w' := Play(before + [Report(id, raw, false)] + Alone(c, id, wait, during, i, k => Answered, 0));
      && c < |w'.calls| && w'.calls[c].phase == Ended(true) && |w'.calls[c].aired| == 1
      && w'.calls[c].frame.packetId == PacketId(id, w.ships[id].pktSeq + 1)
  {
    hide IsTopology, GoodNames, Play, Follow, Next, Sound, Unmet, OnlyMinted, Telemetry, Flight, HandledEnd, Calmly,
         IsEdgeCode, PassesAir, Drain, Background, OnlyCall, Standing, FrameKey, PacketId, Waits;
    var w, report, outcome := Play(before), Report(id, raw, false), (k: nat) => Answered;
    AlwaysOnlyMinted(before);
    FirstFrame(net, t, w.ships[id], params, id, raw);
    var f := Telemetry(w.ships[id], raw);
    NextIdUnmet(t, w, id, 1);
    ParentIsNew(net, t, w.ships, w.engine.store, f.packetId, id);
    EdgeParent(net, t, id);
    Reported(w, id, raw, false);
    var w1, c := Next(w, report), |w.calls|;
    FreshCall(w1, c, id, f);
    Attempted(w1, c);
    FollowOne(w1, Air(c));
    var w2, x, answers := Next(w1, Air(c)), |w1.airings|, Calmly(net.edges, f.targetParent, params);
    SoundPath(f, id, params);
    AiredBy(w1, w2, c, id, f);
    FlightInBackground(w2, x, answers);
    Flown(w2, x, answers);
    SoundPasses(f, id, params, net.edges, x);
    HandledStretch(w2.engine.store, w2.engine.log, Transmit(id, f, x), params, true, answers);
    SteadyReply(net.edges, f.targetParent, params);
    KeyOf(f);
    EdgeAnswers(w2.engine.store, w2.engine.log, Transmit(id, f, x), answers);
    during := k => Flight(w2, x, answers);
    FollowOn(w1, [Air(c)], during(0));
    var w3 := Follow(w1, [Air(c)] + during(0));
    i := |w3.engine.log| - 2;
    SoundSender(f, id, params);
    LoopIsARun(w1, c, wait, during, i, outcome, 0);
    OneSend(outcome);
    PlayOn(before, [report]);
    FollowOne(w, report);
    PlayOn(before + [report], Alone(c, id, wait, during, i, outcome, 0));
    LoopEnd(w1, Follow(w1, Alone(c, id, wait, during, i, outcome, 0)), c);
  }

  lemma OneSend(outcome: nat -> Outcome)
    requires outcome(0) == Answered
    ensures Sends(outcome, 0) == 1 && LastOutcome(outcome, 0) == Answered
  {
  }

  lemma KeyOf(f: TransmitPacket)
    ensures FrameKey(f) == Key(f.packetId, f.targetParent)
  {
  }

  lemma SoundSender(f: TransmitPacket, sender: string, params: SessionParams)
    requires Sound(f, sender, params)
    ensures |f.routingPath| > 0 && Transmitter(f) == sender
  {
  }

  lemma FreshCall(w: World, c: nat, id: string, f: TransmitPacket)
    requires c < |w.calls| && w.calls[c] == Call(id, f, Ready, []) && id in w.ships
    ensures Standing(w, c, 0) && CanAir(w, c)
  {
  }

  lemma AiredBy(w: World, w': World, c: nat, id: string, f: TransmitPacket)
    requires c < |w.calls| && OnlyCall(w, w', c, 1) && w.calls[c].ship == id && w.calls[c].frame == f
    ensures |w'.airings| == |w.airings| + 1 && w'.airings[|w.airings|].call == c && c < |w'.calls|
    ensures RequestOf(w', |w.airings|) == Transmit(id, f, |w.airings|) && id in w'.ships
  {
  }

  lemma LoopEnd(w: World, w': World, c: nat)
    requires c < |w.calls| && OnlyCall(w, w', c, 1) && w.calls[c].aired == []
    ensures c < |w'.calls| && |w'.calls[c].aired| == 1 && w'.calls[c].frame == w.calls[c].frame
  {
  }
}
