/** Fleet runs under one routing table: every frame keeps to its parent chain, whatever is lost, repeated or delayed. */
module SteadyRoutes {
  import opened MeshGraph
  import opened MeshTheorems
  import opened Protocol
  import opened StateStore
  import opened Ether
  import opened EtherTheorems
  import opened ShipNode
  import opened Fleet
  import opened FleetTheorems
  import opened FleetAcks
  import opened Delivery
  import D = DistributionTheorems

  // ---- The hypothesis: routes come from t, and only edge codes resolve to edges --------------------

  ghost predicate SteadyAction(net: Net, t: Table, w: World, a: Action) {
    match a
    case Route(id, parent, _, status) => id in t && parent == t[id].parent && status == t[id].status
    case Serve(j, env) =>
      env.target.EdgeTarget? && j < |w.engine.jobs| && w.engine.jobs[j].request.Transmit?
      ==> IsEdgeCode(net.edges, w.engine.jobs[j].request.pkt.targetParent)
    case _ => true
  }

  ghost predicate Steady(net: Net, t: Table, actions: seq<Action>) {
    forall n :: 0 <= n < |actions| ==> SteadyAction(net, t, Play(actions[..n]), actions[n])
  }

  lemma SteadyBefore(net: Net, t: Table, actions: seq<Action>)
    requires |actions| > 0 && Steady(net, t, actions)
    ensures Steady(net, t, actions[..|actions| - 1])
    ensures SteadyAction(net, t, Play(actions[..|actions| - 1]), actions[|actions| - 1])
  {
    hide Play, SteadyAction;
    var before := actions[..|actions| - 1];
    forall n | 0 <= n < |before| ensures SteadyAction(net, t, Play(before[..n]), before[n]) {
      assert before[..n] == actions[..n] && before[n] == actions[n];
    }
  }

  // ---- Where a packet from o goes -------------------------------------------------------------

  // Its k-th addressee: the chain after o, then the edge.
  function Stop(t: Table, o: string, k: nat): string
    requires o in t
  {
    var chain := ParentChain(t, o);
    if k < |chain| then chain[k] else FinalEdge(t, o)
  }

  lemma ChainLinks(net: Net, t: Table, o: string)
    requires IsTopology(net, t) && GoodNames(net) && o in t && t[o].status == Routed
    ensures var chain := ParentChain(t, o);
      && 1 <= |chain| == t[o].hop <= MAX_HOPS && chain[0] == o
      && (forall k :: 0 <= k < |chain| ==>
            chain[k] in t && t[chain[k]].status == Routed && t[chain[k]].parent == Stop(t, o, k + 1))
      && FinalEdge(t, o) !in t
  {
    ParentChainDescends(net, t, o);
    LevelOne(net, t, o);
    hide IsTopology, Link, ParentChain;
    var edge := FinalEdge(t, o);
    var chain := ParentChain(t, o);
    var n, e :| n in net.nodes && e in net.edges && n.id == chain[|chain| - 1] && e.code == edge
      && InRange(net, n.at, e.at);
    NoShipHasCode(net, t, e);
  }

  lemma NoShipHasCode(net: Net, t: Table, e: Edge)
    requires IsTopology(net, t) && GoodNames(net) && e in net.edges
    ensures e.code !in t
  {
    hide RowFor;
  }

  lemma EdgeIsFinal(net: Net, t: Table, o: string, k: nat)
    requires IsTopology(net, t) && GoodNames(net) && o in t && t[o].status == Routed
    requires 1 <= k <= |ParentChain(t, o)| && IsEdgeCode(net.edges, Stop(t, o, k))
    ensures k == |ParentChain(t, o)| == t[o].hop && Stop(t, o, k) == FinalEdge(t, o)
  {
    ChainLinks(net, t, o);
    hide ParentChain, FinalEdge;
    if k < |ParentChain(t, o)| {
      var m := Member(net, t, ParentChain(t, o)[k]);
      NoShipIsEdge(net, m);
    }
  }

  // ---- Invariant ------------------------------------------------------------------------------

  // The frame is on hop k of its origin's chain.
  ghost predicate OnCourse(t: Table, f: TransmitPacket) {
    && f.originNode in t && t[f.originNode].status == Routed
    && 1 <= f.hopCount <= |ParentChain(t, f.originNode)|
    && f.routingPath == ParentChain(t, f.originNode)[..f.hopCount]
    && f.targetParent == Stop(t, f.originNode, f.hopCount)
  }

  ghost predicate RowOnCourse(t: Table, row: TelemetryRow) {
    && row.origin in t && t[row.origin].status == Routed && row.hopCount == t[row.origin].hop
    && row.edge == FinalEdge(t, row.origin) && row.path == ParentChain(t, row.origin) + [FinalEdge(t, row.origin)]
  }

  ghost predicate OwnRoute(t: Table, s: Ship) {
    s.routed ==> s.id in t && t[s.id].status == Routed && s.parent == t[s.id].parent
  }

  // A handler that took its target for an edge.
  predicate ToEdge(j: Job) { j.request.Transmit? && (j.pc == Dedup(true) || j.pc.Persist?) }

  ghost predicate Course(net: Net, t: Table, w: World) {
    && (forall id :: id in w.ships ==> OwnRoute(t, w.ships[id]))
    && (forall c :: 0 <= c < |w.calls| ==> OnCourse(t, w.calls[c].frame))
    && (forall j :: j in w.engine.jobs && ToEdge(j) ==> IsEdgeCode(net.edges, j.request.pkt.targetParent))
    && (forall i :: 0 <= i < |w.engine.log| && w.engine.log[i].Delivered? ==> RowOnCourse(t, w.engine.log[i].row))
  }

  lemma ReportOnCourse(net: Net, t: Table, s: Ship, raw: seq<byte>)
    requires IsTopology(net, t) && GoodNames(net) && OwnRoute(t, s) && s.routed
    ensures OnCourse(t, Telemetry(s, raw))
  {
    ChainLinks(net, t, s.id);
    hide ParentChain, FinalEdge, PacketId;
    assert ParentChain(t, s.id)[..1] == [s.id];
  }

  lemma RelayOnCourse(net: Net, t: Table, s: Ship, f: TransmitPacket)
    requires IsTopology(net, t) && GoodNames(net) && OwnRoute(t, s) && s.routed
    requires OnCourse(t, f) && f.targetParent == s.id
    ensures OnCourse(t, Relay(s, f))
  {
    var o := f.originNode;
    ChainLinks(net, t, o);
    hide ParentChain, FinalEdge;
    var chain := ParentChain(t, o);
    assert f.hopCount < |chain| && s.id == chain[f.hopCount];
    assert chain[..f.hopCount + 1] == chain[..f.hopCount] + [chain[f.hopCount]];
  }

  // ---- Each action keeps it ---------------------------------------------------------------------

  lemma ReportCourse(net: Net, t: Table, w: World, id: string, raw: seq<byte>, ignoreSF: bool)
    requires IsTopology(net, t) && GoodNames(net) && WorldOk(w) && Course(net, t, w)
    ensures Course(net, t, Next(w, Report(id, raw, ignoreSF)))
  {
    hide IsTopology, GoodNames, OnCourse, RowOnCourse, IsEdgeCode, ToEdge, Telemetry, WorldOk;
    if id in w.ships {
      ReadyCallsFew(w);
      if w.ships[id].routed { ReportOnCourse(net, t, w.ships[id], raw); }
    }
  }

  lemma HearCourse(net: Net, t: Table, w: World, id: string, i: nat)
    requires IsTopology(net, t) && GoodNames(net) && WorldOk(w) && Course(net, t, w) && Received(w, id, i)
    ensures Course(net, t, Next(w, Hear(id, i)))
  {
    hide IsTopology, GoodNames, OnCourse, RowOnCourse, IsEdgeCode, ToEdge, Relay, WorldOk;
    ReadyCallsFew(w);
    var a := CallHeard(w, id, i);
    if w.ships[id].routed { RelayOnCourse(net, t, w.ships[id], w.calls[a].frame); }
  }

  lemma RouteCourse(net: Net, t: Table, w: World, a: Action)
    requires (a.Route? || a.Params? || a.Join?) && WorldOk(w) && Course(net, t, w) && SteadyAction(net, t, w, a)
    ensures Course(net, t, Next(w, a))
  {
    hide OnCourse, RowOnCourse, IsEdgeCode, ToEdge, WorldOk;
    ReadyCallsFew(w);
  }

  // Same frames, same routes, and an engine that only got requests.
  ghost predicate Unsteered(w: World, w': World) {
    && w'.ships.Keys == w.ships.Keys
    && (forall id :: id in w.ships ==>
          && w'.ships[id].id == w.ships[id].id && w'.ships[id].routed == w.ships[id].routed
          && w'.ships[id].parent == w.ships[id].parent)
    && |w'.calls| == |w.calls| && (forall c :: 0 <= c < |w.calls| ==> w'.calls[c].frame == w.calls[c].frame)
    && w'.engine.log == w.engine.log
    && forall j :: j in w'.engine.jobs ==> j in w.engine.jobs || j.pc == Start(j.request)
  }

  lemma UnsteeredCourse(net: Net, t: Table, w: World, w': World)
    requires Course(net, t, w) && Unsteered(w, w')
    ensures Course(net, t, w')
  {
    hide OnCourse, RowOnCourse, IsEdgeCode;
  }

  lemma CallActions(w: World, a: Action)
    requires a.Air? || a.FailWrite? || a.Expire? || a.Succeed? || a.Quit?
    ensures Unsteered(w, Next(w, a))
  {
    hide Start;
  }

  lemma AckActions(w: World, id: string, i: nat)
    ensures Unsteered(w, Next(w, HearAck(id, i)))
  {
    hide Start;
    if CanHearAck(w, id, i) {
      var w' := AckShip(w, id, i);
      assert |w'.calls| == |w.calls| && forall c :: 0 <= c < |w.calls| ==> w'.calls[c].frame == w.calls[c].frame;
    }
  }

  lemma QueueActions(w: World, a: Action)
    requires a.Pass? || a.Arrive? || a.SendNodeAck?
    ensures Unsteered(w, Next(w, a))
  {
    hide Start;
  }

  // A worker's operation: where a handler for an edge comes from, and what a delivery stores.
  lemma StepsToEdge(r: Request, pc: Pc, s: Store, env: Env)
    ensures var e := Perform(r, pc, s, env);
      && (ToEdge(Job(r, e.pc)) ==> ToEdge(Job(r, pc)) || env.target.EdgeTarget?)
      && (OwnPc(Job(r, pc)) && e.out != [] && e.out[0].Delivered? ==>
        ToEdge(Job(r, pc)) && e.out[0].row == RowOf(r.pkt, env))
  {
    hide Count, Incr, Seen, MarkSeen, Forget, Remember, SenderOf, SenderName, JobKey, Validate, Transmitter, RowOf,
         PayloadSize, MaxPayloadBytes, SenderOfJob, TagOf;
  }

  lemma ServeCourse(net: Net, t: Table, w: World, j: nat, env: Env)
    requires IsTopology(net, t) && GoodNames(net) && WorldOk(w) && Course(net, t, w)
    requires j < |w.engine.jobs| && SteadyAction(net, t, w, Serve(j, env))
    ensures Course(net, t, Next(w, Serve(j, env)))
  {
    hide IsTopology, GoodNames, Perform, OnCourse, RowOnCourse, IsEdgeCode, CallsOk, OneCallPerHop, AiredOk, PastTtl,
         OwnPc, ToEdge;
    var job := w.engine.jobs[j];
    var e := Perform(job.request, job.pc, w.engine.store, env);
    var w' := Next(w, Serve(j, env));
    StepsToEdge(job.request, job.pc, w.engine.store, env);
    assert JobOk(w.calls, w.airings, job) && job == Job(job.request, job.pc);
    if e.out != [] && e.out[0].Delivered? {
      EdgeJobTransmits(job);
      RowFollows(net, t, job.request.pkt, env);
    }
    forall k ensures ToEdge(k) ==> k.request.Transmit? { EdgeJobTransmits(k); }
    forall k | k in w'.engine.jobs && k.request.Transmit? && ToEdge(k)
      ensures IsEdgeCode(net.edges, k.request.pkt.targetParent)
    {
      assert k in w.engine.jobs || k == job.(pc := e.pc);
    }
  }

  lemma EdgeJobTransmits(j: Job)
    ensures ToEdge(j) ==> j.request.Transmit?
  {
  }

  lemma RowFollows(net: Net, t: Table, f: TransmitPacket, env: Env)
    requires IsTopology(net, t) && GoodNames(net) && OnCourse(t, f) && IsEdgeCode(net.edges, f.targetParent)
    ensures RowOnCourse(t, RowOf(f, env))
  {
    var o := f.originNode;
    EdgeIsFinal(net, t, o, f.hopCount);
    hide IsTopology, GoodNames, IsEdgeCode, ContentOf, ParentChain, FinalEdge;
    var chain := ParentChain(t, o);
    assert chain[..|chain|] == chain;
  }

  lemma CourseStep(net: Net, t: Table, w: World, a: Action)
    requires IsTopology(net, t) && GoodNames(net) && WorldOk(w) && Course(net, t, w) && SteadyAction(net, t, w, a)
    ensures Course(net, t, Next(w, a))
  {
    hide IsTopology, GoodNames, WorldOk, Course, SteadyAction, Next, Unsteered;
    match a
    case Report(id, raw, ignoreSF) => ReportCourse(net, t, w, id, raw, ignoreSF);
    case Hear(id, i) => if Received(w, id, i) { HearCourse(net, t, w, id, i); } else { Idle(w, a); }
    case Serve(j, env) => if j < |w.engine.jobs| { ServeCourse(net, t, w, j, env); } else { Idle(w, a); }
    case Route(_, _, _, _) => RouteCourse(net, t, w, a);
    case Params(_, _, _) => RouteCourse(net, t, w, a);
    case Join(_) => RouteCourse(net, t, w, a);
    case HearAck(id, i) => AckActions(w, id, i); UnsteeredCourse(net, t, w, Next(w, a));
    case Pass(_) => QueueActions(w, a); UnsteeredCourse(net, t, w, Next(w, a));
    case Arrive(_) => QueueActions(w, a); UnsteeredCourse(net, t, w, Next(w, a));
    case SendNodeAck(_, _) => QueueActions(w, a); UnsteeredCourse(net, t, w, Next(w, a));
    case _ => CallActions(w, a); UnsteeredCourse(net, t, w, Next(w, a));
  }

  lemma Idle(w: World, a: Action)
    requires (a.Hear? && !Received(w, a.id, a.i)) || (a.Serve? && a.job >= |w.engine.jobs|)
    ensures Next(w, a) == w
  {
  }

  lemma {:induction false} AlwaysOnCourse(net: Net, t: Table, actions: seq<Action>)
    requires IsTopology(net, t) && GoodNames(net) && Steady(net, t, actions)
    ensures Course(net, t, Play(actions))
  {
    hide IsTopology, GoodNames, WorldOk, Course, Next, Steady, SteadyAction;
    if |actions| == 0 {
      SettingOut(net, t);
    } else {
      var before := actions[..|actions| - 1];
      SteadyBefore(net, t, actions);
      AlwaysOk(before);
      AlwaysOnCourse(net, t, before);
      CourseStep(net, t, Play(before), actions[|actions| - 1]);
    }
  }

  lemma SettingOut(net: Net, t: Table)
    ensures Course(net, t, GENESIS)
  {
    hide OnCourse, RowOnCourse, IsEdgeCode;
    assert |GENESIS.ships| == 0 && |GENESIS.calls| == 0 && |GENESIS.engine.jobs| == 0 && |GENESIS.engine.log| == 0;
  }

  // ---- Main results -------------------------------------------------------------------------------

  /** Under one table, in every run with any loss, repetition, delay and retries: each frame a ship sends carries the
      first hop_count ships of its origin's parent chain, is addressed to the next stop, and is within the TTL. */
  lemma FramesFollowChain(net: Net, t: Table, actions: seq<Action>, c: nat)
    requires IsTopology(net, t) && GoodNames(net) && Steady(net, t, actions) && c < |Play(actions).calls|
    ensures var f := Play(actions).calls[c].frame;
      && f.originNode in t && 1 <= f.hopCount <= t[f.originNode].hop <= MAX_HOPS
      && |ParentChain(t, f.originNode)| == t[f.originNode].hop
      && f.routingPath == ParentChain(t, f.originNode)[..f.hopCount]
      && f.targetParent == Stop(t, f.originNode, f.hopCount)
  {
    hide IsTopology, GoodNames, Steady, Play, ParentChain;
    AlwaysOnCourse(net, t, actions);
    assert OnCourse(t, Play(actions).calls[c].frame);
    ChainLinks(net, t, Play(actions).calls[c].frame.originNode);
  }

  /** And whatever is delivered comes from a level-k ship with hop count k, at the edge of its chain, along that
      chain. */
  lemma DeliveriesFollowChain(net: Net, t: Table, actions: seq<Action>, i: nat)
    requires IsTopology(net, t) && GoodNames(net) && Steady(net, t, actions)
    requires i < |Play(actions).engine.log| && Play(actions).engine.log[i].Delivered?
    ensures var row := Play(actions).engine.log[i].row;
      && row.origin in t && row.hopCount == t[row.origin].hop && row.edge == FinalEdge(t, row.origin)
      && row.path == ParentChain(t, row.origin) + [FinalEdge(t, row.origin)]
  {
    hide IsTopology, GoodNames, Steady, Play, ParentChain, FinalEdge;
    AlwaysOnCourse(net, t, actions);
  }

  // ---- ACKs under one table -------------------------------------------------------------------------------

  /** A ship sends a packet in one call only: chains do not come back. */
  lemma OneCallPerShip(net: Net, t: Table, actions: seq<Action>, a: nat, b: nat)
    requires IsTopology(net, t) && GoodNames(net) && Steady(net, t, actions)
    requires a < |Play(actions).calls| && b < |Play(actions).calls|
    requires var calls := Play(actions).calls;
      calls[a].ship == calls[b].ship && calls[a].frame.packetId == calls[b].frame.packetId
    ensures a == b
  {
    hide IsTopology, GoodNames, Steady, Play;
    var w := Play(actions);
    AlwaysOk(actions);
    AlwaysOnCourse(net, t, actions);
    SameOrigin(w, a, b);
    var f, g := w.calls[a].frame, w.calls[b].frame;
    assert OnCourse(t, f) && OnCourse(t, g);
    assert CallOk(w.ships, w.calls, a) && CallOk(w.ships, w.calls, b);
    ParentChainDescends(net, t, f.originNode);
    hide ParentChain, Link, EdgeLink, CallOk;
    var chain := ParentChain(t, f.originNode);
    assert chain[f.hopCount - 1] == chain[g.hopCount - 1];
  }

  lemma SameOrigin(w: World, a: nat, b: nat)
    requires WorldOk(w) && a < |w.calls| && b < |w.calls| && w.calls[a].frame.packetId == w.calls[b].frame.packetId
    ensures w.calls[a].frame.originNode == w.calls[b].frame.originNode
  {
    assert CallOk(w.ships, w.calls, a) && CallOk(w.ships, w.calls, b);
    var f, g := w.calls[a].frame, w.calls[b].frame;
    var m: nat :| 1 <= m <= w.ships[f.originNode].pktSeq && f.packetId == PacketId(f.originNode, m);
    var n: nat :| 1 <= n <= w.ships[g.originNode].pktSeq && g.packetId == PacketId(g.originNode, n);
    PacketIdsUnique(f.originNode, m, g.originNode, n);
  }

  /** So under one table a call that ended acked was acked for its own frame by the next stop of its chain. */
  lemma AckedByNextStop(net: Net, t: Table, actions: seq<Action>, c: nat) returns (i: nat, j: nat)
    requires IsTopology(net, t) && GoodNames(net) && Steady(net, t, actions)
    requires c < |Play(actions).calls| && Acked(Play(actions).calls[c])
    ensures var w := Play(actions); var call := w.calls[c];
      && call.frame.originNode in t && call.frame.hopCount >= 1
      && j < i < |w.engine.log| && w.engine.log[i].AckSent? && w.engine.log[i].to == call.ship
      && w.engine.log[i].key == Key(call.frame.packetId, Stop(t, call.frame.originNode, call.frame.hopCount))
      && w.engine.log[j] == Survived(w.engine.log[i].key, call.ship)
  {
    hide IsTopology, GoodNames, Steady, Play, Acked;
    var w := Play(actions);
    forall b | 0 <= b < |w.calls| && w.calls[b].ship == w.calls[c].ship
      && w.calls[b].frame.packetId == w.calls[c].frame.packetId
      ensures b == c
    {
      OneCallPerShip(net, t, actions, b, c);
    }
    i, j := AckedByOwnFrame(actions, c);
    FramesFollowChain(net, t, actions, c);
  }

  // ---- Drops that never happen ------------------------------------------------------------------------

  // No handler dropped a frame for this reason, or is about to.
  ghost predicate Spared(e: Engine, reason: DropReason) {
    Count(e.store, DropStat(reason)) == 0 && forall j :: j in e.jobs ==> j.pc != CountDrop(reason)
  }

  lemma StepSpares(r: Request, pc: Pc, s: Store, env: Env, reason: DropReason)
    requires reason.MaxHopsExceeded? || reason.SfLimitExceeded?
    requires Count(s, DropStat(reason)) == 0 && pc != CountDrop(reason)
    requires pc.Judge? ==> JudgeFrame(PacketOf(r), pc.params, env) != Drop(reason)
    ensures var e := Perform(r, pc, s, env); Count(e.store, DropStat(reason)) == 0 && e.pc != CountDrop(reason)
  {
    hide Perform, Count, Incr;
    StatsOf(r, pc, s, env);
    NextIsNoDrop(r, pc, s, env, reason);
    match Counted(pc)
    case None => SameStats(s, Perform(r, pc, s, env).store);
    case Some(k) => IncrCount(s, k, DropStat(reason));
  }

  lemma NextIsNoDrop(r: Request, pc: Pc, s: Store, env: Env, reason: DropReason)
    requires pc.Judge? ==> JudgeFrame(PacketOf(r), pc.params, env) != Drop(reason)
    requires pc != CountDrop(reason) && (reason.MaxHopsExceeded? || reason.SfLimitExceeded?)
    ensures Perform(r, pc, s, env).pc != CountDrop(reason) && Counted(pc) != Some(DropStat(reason))
  {
    hide Count, Incr, Seen, MarkSeen, Forget, Remember, SenderOf, SenderName, JobKey, Validate, Transmitter, RowOf,
         JudgeFrame, PacketOf, SenderOfJob, TagOf, FrameEvent, AckEventOf;
  }

  // An action that lets no handler drop for this reason.
  ghost predicate Sparing(w: World, a: Action, reason: DropReason) {
    a.Serve? && a.job < |w.engine.jobs| && w.engine.jobs[a.job].pc.Judge? ==>
      JudgeFrame(PacketOf(w.engine.jobs[a.job].request), w.engine.jobs[a.job].pc.params, a.env) != Drop(reason)
  }

  lemma SparedStep(w: World, a: Action, reason: DropReason)
    requires reason.MaxHopsExceeded? || reason.SfLimitExceeded?
    requires Spared(w.engine, reason) && Sparing(w, a, reason)
    ensures Spared(Next(w, a).engine, reason)
  {
    hide Perform, JudgeFrame, Count, Receive, Originate, AckShip, AirFrame, ExpireCall, Listen, StopListening;
    if a.Serve? {
      if a.job < |w.engine.jobs| {
        var j := w.engine.jobs[a.job];
        assert j in w.engine.jobs;
        StepSpares(j.request, j.pc, w.engine.store, a.env, reason);
        forall k | k in Next(w, a).engine.jobs ensures k.pc != CountDrop(reason) {
          assert k in w.engine.jobs || k == j.(pc := Perform(j.request, j.pc, w.engine.store, a.env).pc);
        }
      }
    } else {
      EngineAside(w, a);
      SameCounts(w.engine.store, Next(w, a).engine.store);
    }
  }

  lemma EngineAside(w: World, a: Action)
    requires !a.Serve?
    ensures Next(w, a).engine.store.stats == w.engine.store.stats
    ensures forall j :: j in Next(w, a).engine.jobs ==> j in w.engine.jobs || j.pc == Start(j.request)
  {
    hide Receive, Originate, Listen, StopListening, Start;
    if a.HearAck? { AckActions(w, a.id, a.i); }
  }

  lemma SameCounts(s: Store, s': Store)
    requires s'.stats == s.stats
    ensures forall k :: Count(s', k) == Count(s, k)
  {
  }

  lemma NothingDropped(reason: DropReason)
    ensures Spared(GENESIS.engine, reason)
  {
    CountEmpty(DropStat(reason));
  }

  /** Under one table the hop limit never drops a frame, in any run. */
  lemma {:induction false} NeverTooFar(net: Net, t: Table, actions: seq<Action>)
    requires IsTopology(net, t) && GoodNames(net) && Steady(net, t, actions)
    ensures Spared(Play(actions).engine, MaxHopsExceeded)
  {
    hide IsTopology, GoodNames, Steady, SteadyAction, Next, Spared, Sparing, Course, WorldOk;
    if |actions| == 0 {
      NothingDropped(MaxHopsExceeded);
    } else {
      var before, a := actions[..|actions| - 1], actions[|actions| - 1];
      SteadyBefore(net, t, actions);
      NeverTooFar(net, t, before);
      AlwaysOk(before);
      AlwaysOnCourse(net, t, before);
      WithinLimit(net, t, Play(before), a);
      SparedStep(Play(before), a, MaxHopsExceeded);
    }
  }

  lemma WithinLimit(net: Net, t: Table, w: World, a: Action)
    requires IsTopology(net, t) && GoodNames(net) && WorldOk(w) && Course(net, t, w)
    ensures Sparing(w, a, MaxHopsExceeded)
  {
    hide IsTopology, GoodNames, CallsOk, OneCallPerHop, AiredOk, PastTtl, ParentChain, MaxPayloadBytes, PayloadSize;
    if a.Serve? && a.job < |w.engine.jobs| && w.engine.jobs[a.job].pc.Judge? {
      var j := w.engine.jobs[a.job];
      assert JobOk(w.calls, w.airings, j);
      assert OnCourse(t, w.calls[w.airings[j.request.tag].call].frame);
      ChainLinks(net, t, j.request.pkt.originNode);
    }
  }

  // ---- Sizes under the session's parameters -------------------------------------------------------------

  // Parameters are those of spreading factor sf, and ships that hold them report nothing that ignores them.
  ghost predicate TunedAction(sf: int, w: World, a: Action) {
    match a
    case Params(_, ms, limit) => ms == AckTimeout(sf) && limit == MaxPayloadBytes(sf)
    case Report(id, _, ignoreSF) => !ignoreSF && (id in w.ships ==> w.ships[id].maxPayload == MaxPayloadBytes(sf))
    case Serve(_, env) => env.params.Some? ==> env.params.value.spreadingFactor == sf
    case _ => true
  }

  ghost predicate Tuned(sf: int, actions: seq<Action>) {
    forall n :: 0 <= n < |actions| ==> TunedAction(sf, Play(actions[..n]), actions[n])
  }

  ghost predicate Fitting(sf: int, w: World) {
    && (forall c :: 0 <= c < |w.calls| ==> PayloadSize(w.calls[c].frame) <= MaxPayloadBytes(sf))
    && (forall j :: j in w.engine.jobs && (j.pc.CountTransmit? || j.pc.Judge?) ==> j.pc.params.spreadingFactor == sf)
  }

  lemma StepTunes(r: Request, pc: Pc, s: Store, env: Env, sf: int)
    requires pc.CountTransmit? || pc.Judge? ==> pc.params.spreadingFactor == sf
    requires env.params.Some? ==> env.params.value.spreadingFactor == sf
    ensures var pc' := Perform(r, pc, s, env).pc; pc'.CountTransmit? || pc'.Judge? ==> pc'.params.spreadingFactor == sf
  {
    hide Count, Incr, Seen, MarkSeen, Forget, Remember, SenderOf, SenderName, JobKey, Validate, Transmitter, RowOf,
         JudgeFrame, PacketOf, SenderOfJob, TagOf, FrameEvent, AckEventOf;
  }

  lemma FittingStep(sf: int, w: World, a: Action)
    requires WorldOk(w) && Fitting(sf, w) && TunedAction(sf, w, a)
    ensures Fitting(sf, Next(w, a))
  {
    hide WorldOk, Perform, PayloadSize, MaxPayloadBytes, AckTimeout, Next, TunedAction, Fitting, Unsteered;
    match a
    case Report(id, raw, ignoreSF) => ReportFits(sf, w, id, raw, ignoreSF);
    case Hear(id, i) => if Received(w, id, i) { HearFits(sf, w, id, i); } else { Idle(w, a); }
    case Serve(j, env) => if j < |w.engine.jobs| { ServeFits(sf, w, j, env); } else { Idle(w, a); }
    case Route(_, _, _, _) => SameCallsFit(sf, w, a);
    case Params(_, _, _) => SameCallsFit(sf, w, a);
    case Join(_) => SameCallsFit(sf, w, a);
    case HearAck(id, i) => AckActions(w, id, i); UnsteeredFits(sf, w, Next(w, a));
    case Pass(_) => QueueActions(w, a); UnsteeredFits(sf, w, Next(w, a));
    case Arrive(_) => QueueActions(w, a); UnsteeredFits(sf, w, Next(w, a));
    case SendNodeAck(_, _) => QueueActions(w, a); UnsteeredFits(sf, w, Next(w, a));
    case _ => CallActions(w, a); UnsteeredFits(sf, w, Next(w, a));
  }

  lemma UnsteeredFits(sf: int, w: World, w': World)
    requires Fitting(sf, w) && Unsteered(w, w')
    ensures Fitting(sf, w')
  {
    hide PayloadSize, MaxPayloadBytes;
  }

  lemma SameCallsFit(sf: int, w: World, a: Action)
    requires Fitting(sf, w) && (a.Route? || a.Params? || a.Join?)
    ensures Fitting(sf, Next(w, a))
  {
    hide PayloadSize, MaxPayloadBytes;
  }

  lemma ReportFits(sf: int, w: World, id: string, raw: seq<byte>, ignoreSF: bool)
    requires Fitting(sf, w) && TunedAction(sf, w, Report(id, raw, ignoreSF))
    ensures Fitting(sf, Next(w, Report(id, raw, ignoreSF)))
  {
    hide MaxPayloadBytes, AckTimeout, PacketId;
  }

  lemma HearFits(sf: int, w: World, id: string, i: nat)
    requires WorldOk(w) && Fitting(sf, w) && Received(w, id, i)
    ensures Fitting(sf, Next(w, Hear(id, i)))
  {
    var a := CallHeard(w, id, i);
    hide MaxPayloadBytes, WorldOk;
  }

  lemma ServeFits(sf: int, w: World, j: nat, env: Env)
    requires Fitting(sf, w) && j < |w.engine.jobs| && TunedAction(sf, w, Serve(j, env))
    ensures Fitting(sf, Next(w, Serve(j, env)))
  {
    hide Perform, PayloadSize, MaxPayloadBytes;
    var job := w.engine.jobs[j];
    assert job in w.engine.jobs;
    StepTunes(job.request, job.pc, w.engine.store, env, sf);
    var e := Perform(job.request, job.pc, w.engine.store, env);
    forall k | k in Next(w, Serve(j, env)).engine.jobs ensures k in w.engine.jobs || k == job.(pc := e.pc) { }
  }

  lemma FitsLimit(sf: int, w: World, a: Action)
    requires WorldOk(w) && Fitting(sf, w)
    ensures Sparing(w, a, SfLimitExceeded)
  {
    hide CallsOk, OneCallPerHop, AiredOk, PastTtl, MaxPayloadBytes;
    if a.Serve? && a.job < |w.engine.jobs| && w.engine.jobs[a.job].pc.Judge? {
      var j := w.engine.jobs[a.job];
      assert j in w.engine.jobs && JobOk(w.calls, w.airings, j);
    }
  }

  /** In a session whose ships report only within its parameters, no frame is ever dropped for its size, however often
      it is relayed. */
  lemma {:induction false} NeverTooLarge(sf: int, actions: seq<Action>)
    requires Tuned(sf, actions)
    ensures Fitting(sf, Play(actions)) && Spared(Play(actions).engine, SfLimitExceeded)
  {
    hide Next, Spared, Sparing, Fitting, WorldOk, TunedAction;
    if |actions| == 0 {
      NothingDropped(SfLimitExceeded);
      NothingTooLarge(sf);
    } else {
      var before, a := actions[..|actions| - 1], actions[|actions| - 1];
      forall n | 0 <= n < |before| ensures TunedAction(sf, Play(before[..n]), before[n]) {
        assert before[..n] == actions[..n] && before[n] == actions[n];
      }
      NeverTooLarge(sf, before);
      AlwaysOk(before);
      FitsLimit(sf, Play(before), a);
      SparedStep(Play(before), a, SfLimitExceeded);
      FittingStep(sf, Play(before), a);
    }
  }

  lemma NothingTooLarge(sf: int)
    ensures Fitting(sf, GENESIS)
  {
    hide MaxPayloadBytes;
    assert |GENESIS.calls| == 0 && |GENESIS.engine.jobs| == 0;
  }

  // ---- Routes as the server pushes them -------------------------------------------------------------------

  // Routes are what the server last sent the ship's socket, and only edge codes resolve to edges.
  ghost predicate Served(s: D.State, net: Net, actions: seq<Action>) {
    forall n :: 0 <= n < |actions| ==>
      match actions[n]
      case Route(id, parent, isEdge, status) =>
        && id in s.table && D.Online(s.registry, id).Some? && D.Online(s.registry, id).value in s.held
        && var u := s.held[D.Online(s.registry, id).value].update;
           parent == u.parent && isEdge == u.parentIsEdge && status == u.status
      case Serve(_, _) => SteadyAction(net, s.table, Play(actions[..n]), actions[n])
      case _ => true
  }

  /** After any run of the scheduler, ships that are told what the server last sent deliver only along the stored
      table. */
  lemma PushedRoutesFollowTable(steps: seq<D.Step>, dist: (Point, Point) -> real, net: Net, actions: seq<Action>,
      i: nat)
    requires var s := D.Run(steps, dist); IsTopology(net, s.table) && GoodNames(net) && Served(s, net, actions)
    requires i < |Play(actions).engine.log| && Play(actions).engine.log[i].Delivered?
    ensures var t, row := D.Run(steps, dist).table, Play(actions).engine.log[i].row;
      && row.origin in t && row.hopCount == t[row.origin].hop && row.edge == FinalEdge(t, row.origin)
      && row.path == ParentChain(t, row.origin) + [FinalEdge(t, row.origin)]
    ensures Spared(Play(actions).engine, MaxHopsExceeded)
  {
    hide D.Run, D.Online, Play, IsTopology, GoodNames, Spared, ParentChain, FinalEdge;
    var s := D.Run(steps, dist);
    forall n | 0 <= n < |actions| ensures SteadyAction(net, s.table, Play(actions[..n]), actions[n]) {
      if actions[n].Route? { D.ShipsAgree(steps, dist, actions[n].id); }
    }
    hide Served, SteadyAction;
    DeliveriesFollowChain(net, s.table, actions, i);
    NeverTooFar(net, s.table, actions);
  }
}
