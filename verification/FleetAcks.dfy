/** What a ship may conclude from an ACK, in every fleet run. */
module FleetAcks {
  import opened Protocol
  import opened StateStore
  import opened Ether
  import opened ShipNode
  import opened Fleet
  import opened FleetTheorems
  import opened FleetResults
  import EtherOrder

  // ---- A call ends acked only after an ACK to its ship for its packet ---------------------------

  // Every registered waiter belongs to a call of that ship for that packet.
  ghost predicate TicketsOk(w: World) {
    forall id, p :: id in w.ships && p in w.ships[id].waiters ==> TicketOf(w, id, p, w.ships[id].waiters[p])
  }

  predicate TicketOf(w: World, id: string, packetId: string, t: Ticket) {
    t.call < |w.calls| && w.calls[t.call].ship == id && w.calls[t.call].frame.packetId == packetId
  }

  predicate Acked(c: Call) { (c.phase.Waiting? && c.phase.acked) || c.phase == Ended(true) }

  ghost predicate AckFor(log: seq<Output>, ship: string, packetId: string) {
    exists i :: 0 <= i < |log| && log[i].AckSent? && log[i].to == ship && log[i].key.packetId == packetId
  }

  ghost predicate AcksOk(w: World) {
    TicketsOk(w) && forall c :: 0 <= c < |w.calls| && Acked(w.calls[c]) ==>
      AckFor(w.engine.log, w.calls[c].ship, w.calls[c].frame.packetId)
  }

  // A step under which waiters are kept, dropped or registered for their own call, and no call turns acked.
  ghost predicate KeepsTickets(w: World, w': World) {
    && SameCalls(w.calls, w'.calls) && w.engine.log <= w'.engine.log
    && (forall id, p :: id in w'.ships && p in w'.ships[id].waiters ==>
          (id in w.ships && p in w.ships[id].waiters && w.ships[id].waiters[p] == w'.ships[id].waiters[p])
          || TicketOf(w', id, p, w'.ships[id].waiters[p]))
    && (forall c :: 0 <= c < |w'.calls| && Acked(w'.calls[c]) ==> c < |w.calls| && Acked(w.calls[c]))
  }

  lemma AckForGrows(log: seq<Output>, log': seq<Output>, ship: string, packetId: string)
    requires log <= log' && AckFor(log, ship, packetId)
    ensures AckFor(log', ship, packetId)
  {
    var i :| 0 <= i < |log| && log[i].AckSent? && log[i].to == ship && log[i].key.packetId == packetId;
    assert log'[i] == log[i];
  }

  lemma KeptOk(w: World, w': World)
    requires AcksOk(w) && KeepsTickets(w, w')
    ensures AcksOk(w')
  {
    hide AckFor;
    forall c | 0 <= c < |w'.calls| && Acked(w'.calls[c])
      ensures AckFor(w'.engine.log, w'.calls[c].ship, w'.calls[c].frame.packetId)
    {
      AckForGrows(w.engine.log, w'.engine.log, w.calls[c].ship, w.calls[c].frame.packetId);
    }
  }

  lemma CallActions(w: World, a: Action)
    requires WorldOk(w) && (a.Air? || a.FailWrite? || a.Expire? || a.Quit?)
    ensures KeepsTickets(w, Next(w, a))
  {
    hide WorldOk, Receive, Originate, AckShip, Start;
  }

  lemma StartActions(w: World, a: Action)
    requires WorldOk(w) && (a.Report? || a.Hear?)
    ensures KeepsTickets(w, Next(w, a))
  {
    hide WorldOk, Start, Relay, Telemetry, AckShip, AirFrame, ExpireCall, Perform;
    OwnNames(w);
  }

  lemma RadioActions(w: World, a: Action)
    requires a.Join? || a.Route? || a.Params?
    ensures KeepsTickets(w, Next(w, a))
  {
    hide Start, Receive, Originate, AckShip, AirFrame, ExpireCall, Perform;
  }

  lemma QueueActions(w: World, a: Action)
    requires a.Pass? || a.Arrive? || a.SendNodeAck?
    ensures KeepsTickets(w, Next(w, a))
  {
    hide Start, Receive, Originate, AckShip, AirFrame, ExpireCall, Perform;
  }

  lemma OwnNames(w: World)
    requires WorldOk(w)
    ensures forall id :: id in w.ships ==> w.ships[id].id == id
  {
  }

  lemma ServeActions(w: World, j: nat, env: Env)
    ensures KeepsTickets(w, Next(w, Serve(j, env)))
  {
    hide Perform;
  }

  lemma SucceedActions(w: World, c: nat)
    requires AcksOk(w)
    ensures AcksOk(Next(w, Succeed(c)))
  {
  }

  lemma HearAckActions(w: World, id: string, i: nat)
    requires AcksOk(w) && CanHearAck(w, id, i)
    ensures AcksOk(AckShip(w, id, i))
  {
    hide AckFor;
    var w' := AckShip(w, id, i);
    assert AckFor(w.engine.log, id, w.engine.log[i].key.packetId) by { AckHere(w.engine.log, i); }
    assert w'.engine == w.engine;
    var p := w.engine.log[i].key.packetId;
    if p in w.ships[id].waiters { assert TicketOf(w, id, p, w.ships[id].waiters[p]); }
  }

  lemma AckHere(log: seq<Output>, i: nat)
    requires i < |log| && log[i].AckSent?
    ensures AckFor(log, log[i].to, log[i].key.packetId)
  {
  }

  lemma {:induction false} AlwaysAcksOk(actions: seq<Action>)
    ensures AcksOk(Play(actions))
  {
    if |actions| > 0 {
      hide WorldOk, Next, AcksOk, KeepsTickets;
      var w, a := Play(actions[..|actions| - 1]), actions[|actions| - 1];
      AlwaysAcksOk(actions[..|actions| - 1]);
      AlwaysOk(actions[..|actions| - 1]);
      AcksStep(w, a);
    } else {
      NobodyAcked();
    }
  }

  lemma NobodyAcked()
    ensures AcksOk(GENESIS)
  {
    hide AckFor;
    assert |GENESIS.calls| == 0 && |GENESIS.ships| == 0;
  }

  lemma AcksStep(w: World, a: Action)
    requires WorldOk(w) && AcksOk(w)
    ensures AcksOk(Next(w, a))
  {
    hide WorldOk, AcksOk, KeepsTickets, AckShip;
    if a.HearAck? {
      if CanHearAck(w, a.id, a.i) { HearAckActions(w, a.id, a.i); }
    } else if a.Succeed? {
      SucceedActions(w, a.call);
    } else {
      if a.Serve? { ServeActions(w, a.job, a.env); }
      else if a.Air? || a.FailWrite? || a.Expire? || a.Quit? { CallActions(w, a); }
      else if a.Report? || a.Hear? { StartActions(w, a); }
      else if a.Join? || a.Route? || a.Params? { RadioActions(w, a); }
      else { QueueActions(w, a); }
      hide Next;
      KeptOk(w, Next(w, a));
    }
  }

  /** A call that ended acked was sent an ACK, and some frame of its ship for that packet survived the air before it. */
  lemma AckedMeansSurvived(actions: seq<Action>, c: nat) returns (i: nat, j: nat)
    requires c < |Play(actions).calls| && Acked(Play(actions).calls[c])
    ensures var w := Play(actions); var call := w.calls[c];
      && j < i < |w.engine.log| && w.engine.log[i].AckSent? && w.engine.log[i].to == call.ship
      && w.engine.log[i].key.packetId == call.frame.packetId
      && w.engine.log[j] == Survived(w.engine.log[i].key, call.ship)
  {
    hide Play, StepsOf, Run, TicketsOk;
    var w := Play(actions);
    AlwaysAcksOk(actions);
    EngineRun(actions);
    assert AckFor(w.engine.log, w.calls[c].ship, w.calls[c].frame.packetId);
    i :| 0 <= i < |w.engine.log| && w.engine.log[i].AckSent? && w.engine.log[i].to == w.calls[c].ship
      && w.engine.log[i].key.packetId == w.calls[c].frame.packetId;
    EtherOrder.AckHasCause(StepsOf(actions), i);
    j :| 0 <= j < i && w.engine.log[j] == Survived(w.engine.log[i].key, w.engine.log[i].to);
  }

  // ---- When the ACK is for the call's own frame -----------------------------------------------------

  // Whatever survived the air is the frame of some call of that ship.
  ghost predicate SurvivorsOk(w: World) {
    forall i :: 0 <= i < |w.engine.log| && w.engine.log[i].Survived? ==>
      SentBy(w, w.engine.log[i].key, w.engine.log[i].sender)
  }

  ghost predicate SentBy(w: World, key: Key, ship: string) {
    exists c :: 0 <= c < |w.calls| && FrameKey(w.calls[c].frame) == key && w.calls[c].ship == ship
  }

  lemma SentStays(w: World, w': World, key: Key, ship: string)
    requires SameCalls(w.calls, w'.calls) && SentBy(w, key, ship)
    ensures SentBy(w', key, ship)
  {
    var c :| 0 <= c < |w.calls| && FrameKey(w.calls[c].frame) == key && w.calls[c].ship == ship;
    assert FrameKey(w'.calls[c].frame) == key && w'.calls[c].ship == ship;
  }

  lemma StepSurvives(r: Request, pc: Pc, s: Store, env: Env)
    requires OwnPc(Job(r, pc))
    ensures var out := Perform(r, pc, s, env).out;
      out != [] && out[0].Survived? ==> r.Transmit? && out[0].key == FrameKey(r.pkt) && out[0].sender == SenderName(r)
  {
    hide Count, Incr, JudgeFrame, Seen, MarkSeen, Forget, Remember, SenderOf, RowOf, Validate, Transmitter, PacketOf,
         SenderOfJob, TagOf, ScreenFrame, SenderName;
  }

  lemma ServeSurvives(w: World, n: nat, env: Env)
    requires WorldOk(w) && SurvivorsOk(w) && n < |w.engine.jobs|
    ensures SurvivorsOk(Next(w, Serve(n, env)))
  {
    hide Perform, CallsOk, OneCallPerHop, AiredOk, FromCall, PastTtl, FrameKey;
    var j := w.engine.jobs[n];
    assert JobOk(w.calls, w.airings, j) && j == Job(j.request, j.pc);
    var out := Perform(j.request, j.pc, w.engine.store, env).out;
    StepSurvives(j.request, j.pc, w.engine.store, env);
    var w' := Next(w, Serve(n, env));
    assert w'.engine.log == w.engine.log + out && w'.calls == w.calls;
    if out != [] && out[0].Survived? {
      var c := w.airings[j.request.tag].call;
      FrameFacts(w, c);
      assert FrameKey(w.calls[c].frame) == out[0].key && w.calls[c].ship == out[0].sender;
    }
    forall i | 0 <= i < |w'.engine.log| && w'.engine.log[i].Survived?
      ensures SentBy(w', w'.engine.log[i].key, w'.engine.log[i].sender)
    {
      if i < |w.engine.log| {
        assert w'.engine.log[i] == w.engine.log[i];
        SentStays(w, w', w.engine.log[i].key, w.engine.log[i].sender);
      }
    }
  }

  lemma FrameFacts(w: World, c: nat)
    requires CallsOk(w.ships, w.calls) && c < |w.calls|
    ensures |w.calls[c].frame.routingPath| > 0 && Transmitter(w.calls[c].frame) == w.calls[c].ship
  {
    assert CallOk(w.ships, w.calls, c);
  }

  lemma SurvivorsStay(w: World, w': World)
    requires SurvivorsOk(w) && SameCalls(w.calls, w'.calls) && w'.engine.log == w.engine.log
    ensures SurvivorsOk(w')
  {
    hide SentBy;
    forall i | 0 <= i < |w'.engine.log| && w'.engine.log[i].Survived?
      ensures SentBy(w', w'.engine.log[i].key, w'.engine.log[i].sender)
    {
      SentStays(w, w', w.engine.log[i].key, w.engine.log[i].sender);
    }
  }

  lemma LogStays(w: World, a: Action)
    requires !a.Serve?
    ensures Next(w, a).engine.log == w.engine.log && SameCalls(w.calls, Next(w, a).calls)
  {
    hide Perform, Receive, Originate, AckShip, Listen, StopListening, Start, Fresh;
    if a.HearAck? && CanHearAck(w, a.id, a.i) { AckChangesPhases(w, a.id, a.i); }
  }

  lemma {:induction false} AlwaysSurvivorsOk(actions: seq<Action>)
    ensures SurvivorsOk(Play(actions))
  {
    hide WorldOk, Next, SurvivorsOk;
    if |actions| == 0 {
      NoSurvivors();
    } else {
      var w, a := Play(actions[..|actions| - 1]), actions[|actions| - 1];
      AlwaysSurvivorsOk(actions[..|actions| - 1]);
      AlwaysOk(actions[..|actions| - 1]);
      if !a.Serve? {
        LogStays(w, a);
        SurvivorsStay(w, Next(w, a));
      } else if a.job < |w.engine.jobs| {
        ServeSurvives(w, a.job, a.env);
      } else {
        NoJob(w, a);
      }
    }
  }

  lemma NoJob(w: World, a: Action)
    requires a.Serve? && a.job >= |w.engine.jobs|
    ensures Next(w, a) == w
  {
  }

  lemma NoSurvivors()
    ensures SurvivorsOk(GENESIS)
  {
    assert |GENESIS.engine.log| == 0;
  }

  /** If its ship has no other call for the packet, an acked call was acked for its own frame, to its own addressee. */
  lemma AckedByOwnFrame(actions: seq<Action>, c: nat) returns (i: nat, j: nat)
    requires c < |Play(actions).calls| && Acked(Play(actions).calls[c])
    requires var calls := Play(actions).calls;
      forall b :: 0 <= b < |calls| && calls[b].ship == calls[c].ship && SamePacket(calls[b], calls[c]) ==> b == c
    ensures var w := Play(actions); var call := w.calls[c];
      && j < i < |w.engine.log| && w.engine.log[i].AckSent? && w.engine.log[i].to == call.ship
      && w.engine.log[i].key == FrameKey(call.frame) && w.engine.log[j] == Survived(FrameKey(call.frame), call.ship)
  {
    hide Play, Acked;
    var w := Play(actions);
    i, j := AckedMeansSurvived(actions, c);
    AlwaysSurvivorsOk(actions);
    assert SentBy(w, w.engine.log[j].key, w.engine.log[j].sender);
    var b :| 0 <= b < |w.calls| && FrameKey(w.calls[b].frame) == w.engine.log[j].key
      && w.calls[b].ship == w.calls[c].ship;
  }
}
