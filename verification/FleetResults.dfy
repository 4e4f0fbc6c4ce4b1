/** What the fleet invariant gives: bounded traffic per packet, clean envelopes, one admission per retry burst. */
module FleetResults {
  import opened MeshGraph
  import opened Protocol
  import opened StateStore
  import opened Ether
  import opened ShipNode
  import opened Fleet
  import opened FleetTheorems
  import EtherOrder

  /** Every frame on air has hop_count = path length <= 6, runs from its origin to its transmitter, and no ship
      relays a packet id twice. */
  lemma FramesOnAir(actions: seq<Action>, x: nat)
    requires x < |Play(actions).airings|
    ensures var w := Play(actions);
      && w.airings[x].call < |w.calls|
      && FrameOk(w.calls[w.airings[x].call].frame, w.calls[w.airings[x].call].ship)
      && Transmitter(w.calls[w.airings[x].call].frame) == w.calls[w.airings[x].call].ship
    ensures OneCallPerHop(Play(actions).calls)
  {
    AlwaysOk(actions);
    var w := Play(actions);
    assert CallOk(w.ships, w.calls, w.airings[x].call);
  }

  /** The engine never refuses an honest frame for its path length, hop count or transmitter. */
  lemma HonestFramesPassScreening(actions: seq<Action>, j: Job)
    requires j in Play(actions).engine.jobs && j.request.Transmit?
    ensures Validate(j.request.pkt) !in {Some(PathTooLong), Some(BadHopCount), Some(EmptyPath)}
    ensures |j.request.pkt.routingPath| > 0 && Transmitter(j.request.pkt) == j.request.sender
  {
    AlwaysOk(actions);
    var w := Play(actions);
    assert JobOk(w.calls, w.airings, j);
    assert CallOk(w.ships, w.calls, w.airings[j.request.tag].call);
    hide WorldOk, Play;
  }

  /** A ship that took over the parameters of a session reports nothing the engine drops for its size there, and neither
      does anyone who relays the report. */
  lemma SyncedReportsFit(s: Ship, sf: int, raw: seq<byte>, relay: Ship, params: SessionParams, env: Env)
    requires params.spreadingFactor == sf
    ensures var f := Originate(OnSyncParams(s, AckTimeout(sf), MaxPayloadBytes(sf)), raw, false).1;
      f.Some? ==>
        && JudgeFrame(f.value, params, env) != Drop(SfLimitExceeded)
        && JudgeFrame(Relay(relay, f.value), params, env) != Drop(SfLimitExceeded)
  {
    PositiveTimeout(sf);
    hide AckTimeout, MaxPayloadBytes, PacketId;
  }

  lemma PositiveTimeout(sf: int)
    ensures AckTimeout(sf) > 0
  {
  }

  // ---- At most 24 frames per packet id -------------------------------------------------------

  ghost function AiringsOf(w: World, packetId: string): set<nat> {
    set x: nat | x < |w.airings| && w.airings[x].call < |w.calls|
      && w.calls[w.airings[x].call].frame.packetId == packetId
  }

  ghost function Slot(w: World, x: nat): int
    requires x < |w.airings| && w.airings[x].call < |w.calls|
  {
    (w.calls[w.airings[x].call].frame.hopCount - 1) * (MAX_RETRIES + 1) + w.airings[x].attempt
  }

  lemma SlotsDistinct(w: World, x: nat, y: nat, packetId: string)
    requires WorldOk(w) && x in AiringsOf(w, packetId) && y in AiringsOf(w, packetId)
    ensures 0 <= Slot(w, x) < (MAX_HOPS + 1) * (MAX_RETRIES + 1)
    ensures Slot(w, x) == Slot(w, y) ==> x == y
  {
    var a, b := w.airings[x], w.airings[y];
    assert CallOk(w.ships, w.calls, a.call) && CallOk(w.ships, w.calls, b.call);
    assert a.attempt <= MAX_RETRIES && b.attempt <= MAX_RETRIES;
    if Slot(w, x) == Slot(w, y) {
      assert w.calls[a.call].frame.hopCount == w.calls[b.call].frame.hopCount && a.attempt == b.attempt;
      assert a.call == b.call;
    }
  }

  lemma {:induction false} DistinctSlots(s: set<nat>, f: nat --> int, lo: int, hi: int)
    requires lo <= hi && forall x :: x in s ==> f.requires(x) && lo <= f(x) < hi
    requires forall x, y :: x in s && y in s && f(x) == f(y) ==> x == y
    ensures |s| <= hi - lo
    decreases hi - lo
  {
    if lo == hi {
      assert s == {};
    } else if x :| x in s && f(x) == lo {
      DistinctSlots(s - {x}, f, lo + 1, hi);
    } else {
      DistinctSlots(s, f, lo + 1, hi);
    }
  }

  /** At most 6 transmit calls x 4 attempts = 24 frames ever carry one packet id. */
  lemma AtMost24Frames(actions: seq<Action>, packetId: string)
    ensures |AiringsOf(Play(actions), packetId)| <= 24
  {
    var w := Play(actions);
    AlwaysOk(actions);
    var s := AiringsOf(w, packetId);
    forall x, y | x in s && y in s
      ensures 0 <= Slot(w, x) < 24 && (Slot(w, x) == Slot(w, y) ==> x == y)
    {
      SlotsDistinct(w, x, y, packetId);
    }
    hide WorldOk, Play;
    DistinctSlots(s, (x: nat) requires x < |w.airings| && w.airings[x].call < |w.calls| => Slot(w, x), 0, 24);
  }

  // ---- The ether inside a fleet run is an ether run -------------------------------------------

  function StepOf(w: World, a: Action): seq<Step> {
    match a
    case Pass(ms) => [Tick(ms)]
    case Arrive(x) =>
      if x < |w.airings| && w.airings[x].call < |w.calls|
      then [Submit(Transmit(w.calls[w.airings[x].call].ship, w.calls[w.airings[x].call].frame, x))] else []
    case SendNodeAck(id, i) => if Received(w, id, i) then [Submit(Ack(id, w.engine.log[i].pkt.packetId))] else []
    case Serve(j, env) => [Work(j, env)]
    case _ => []
  }

  function StepsOf(actions: seq<Action>): seq<Step> {
    if |actions| == 0 then []
    else StepsOf(actions[..|actions| - 1]) + StepOf(Play(actions[..|actions| - 1]), actions[|actions| - 1])
  }

  /** All whole-run ether theorems hold of every fleet run. */
  lemma {:induction false} EngineRun(actions: seq<Action>)
    ensures Play(actions).engine == Run(StepsOf(actions))
  {
    if |actions| > 0 {
      var w := Play(actions[..|actions| - 1]);
      EngineRun(actions[..|actions| - 1]);
      var steps, more := StepsOf(actions[..|actions| - 1]), StepOf(w, actions[|actions| - 1]);
      if more == [] {
        assert steps + more == steps;
      } else {
        assert (steps + more)[..|steps|] == steps && (steps + more)[|steps|] == more[0];
      }
      StepMatches(w, actions[|actions| - 1]);
      hide Next, Apply, StepOf;
    }
  }

  lemma StepMatches(w: World, a: Action)
    ensures |StepOf(w, a)| <= 1
    ensures Next(w, a).engine == if StepOf(w, a) == [] then w.engine else Apply(w.engine, StepOf(w, a)[0])
  {
    hide Perform, Receive, Originate, OnAck;
  }

  // ---- One admission per retry burst ----------------------------------------------------------

  // Airings are dated in order, point back into their call, and an admission comes after its airing.
  ghost predicate Dated(w: World) {
    && (forall x, y :: 0 <= x <= y < |w.airings| ==> w.airings[x].at <= w.airings[y].at <= Now(w))
    && (forall c, k :: 0 <= c < |w.calls| && 0 <= k < |w.calls[c].aired| ==>
          && w.calls[c].aired[k] < |w.airings|
          && w.airings[w.calls[c].aired[k]].call == c && w.airings[w.calls[c].aired[k]].attempt == k)
    && (forall c, j, k :: 0 <= c < |w.calls| && 0 <= j <= k < |w.calls[c].aired| ==>
      w.calls[c].aired[j] <= w.calls[c].aired[k])
    && (forall i :: 0 <= i < |w.engine.log| && w.engine.log[i].Admitted? ==>
          && w.engine.log[i].tag < |w.airings| && w.airings[w.engine.log[i].tag].call < |w.calls|
          && w.airings[w.engine.log[i].tag].at <= w.engine.log[i].at
          && w.engine.log[i].key == FrameKey(w.calls[w.airings[w.engine.log[i].tag].call].frame))
  }

  lemma LogDated(w: World, w': World, out: seq<Output>)
    requires Dated(w) && w'.airings == w.airings && w'.calls == w.calls && Now(w') == Now(w)
    requires w'.engine.log == w.engine.log + out && |out| <= 1
    requires out != [] && out[0].Admitted? ==>
      && out[0].tag < |w.airings| && w.airings[out[0].tag].call < |w.calls| && out[0].at == Now(w)
      && out[0].key == FrameKey(w.calls[w.airings[out[0].tag].call].frame)
    ensures Dated(w')
  {
  }

  lemma ServeDated(w: World, n: nat, env: Env)
    requires WorldOk(w) && Dated(w) && n < |w.engine.jobs|
    ensures Dated(Next(w, Serve(n, env)))
  {
    var j := w.engine.jobs[n];
    assert JobOk(w.calls, w.airings, j);
    var e := Perform(j.request, j.pc, w.engine.store, env);
    EtherOrder.StepAdmits(j.request, j.pc, w.engine.store, env);
    if e.out != [] && e.out[0].Admitted? { AdmitterIsTransmit(j.request, j.pc, w.engine.store, env); }
    hide Perform, WorldOk, JobOk, Dated;
    LogDated(w, Next(w, Serve(n, env)), e.out);
  }

  lemma AdmitterIsTransmit(r: Request, pc: Pc, s: Store, env: Env)
    requires OwnPc(Job(r, pc)) && Perform(r, pc, s, env).out != [] && Perform(r, pc, s, env).out[0].Admitted?
    ensures r.Transmit?
  {
    hide Count, Incr, Seen, MarkSeen, Forget, Remember, SenderOf, SenderName, Validate, JudgeFrame;
  }

  // Nothing that only moves time, phases or ship state disturbs the dates.
  lemma DatesKept(w: World, w': World)
    requires Dated(w) && w'.airings == w.airings && w'.engine.log == w.engine.log && Now(w) <= Now(w')
    requires SameCalls(w.calls, w'.calls)
    requires forall c :: 0 <= c < |w'.calls| ==> w'.calls[c].aired == if c < |w.calls| then w.calls[c].aired else []
    ensures Dated(w')
  {
  }

  lemma AirDated(w: World, c: nat)
    requires Dated(w) && CanAir(w, c)
    ensures Dated(AirFrame(w, c))
  {
    hide Listen;
    var w' := AirFrame(w, c);
    assert forall d :: 0 <= d < |w'.calls| ==>
      w'.calls[d].aired == (if d == c then w.calls[c].aired + [|w.airings|] else w.calls[d].aired)
        && w'.calls[d].frame == w.calls[d].frame;
    assert w'.airings == w.airings + [Airing(c, |w.calls[c].aired|, Now(w), w'.airings[|w.airings|].timeout)];
    hide AirFrame;
  }

  lemma QuietDates(w: World, a: Action)
    requires !a.Serve? && !a.Air?
    ensures var w' := Next(w, a);
      && w'.airings == w.airings && w'.engine.log == w.engine.log && Now(w) <= Now(w')
      && SameCalls(w.calls, w'.calls)
      && forall c :: 0 <= c < |w'.calls| ==> w'.calls[c].aired == if c < |w.calls| then w.calls[c].aired else []
  {
    hide Receive, Originate, AckShip, Start, Listen, StopListening, Fresh, AirFrame;
    if a.HearAck? {
      if CanHearAck(w, a.id, a.i) { AckChangesPhases(w, a.id, a.i); }
    }
  }

  lemma AckChangesPhases(w: World, id: string, i: nat)
    requires CanHearAck(w, id, i)
    ensures var w' := AckShip(w, id, i);
      && w'.airings == w.airings && w'.engine == w.engine && |w'.calls| == |w.calls|
      && forall c :: 0 <= c < |w.calls| ==> w'.calls[c] == w.calls[c].(phase := w'.calls[c].phase)
  {
    var w' := AckShip(w, id, i);
    assert w'.calls == w.calls || exists t: nat, p ::
      t < |w.calls| && w'.calls == w.calls[t := w.calls[t].(phase := p)];
  }

  lemma NextDated(w: World, a: Action)
    requires WorldOk(w) && Dated(w)
    ensures Dated(Next(w, a))
  {
    if a.Serve? {
      if a.job < |w.engine.jobs| { hide WorldOk, Dated; ServeDated(w, a.job, a.env); }
    } else if a.Air? {
      if CanAir(w, a.call) { hide WorldOk, Dated, AirFrame; AirDated(w, a.call); }
    } else {
      QuietDates(w, a);
      hide WorldOk, Dated, Next;
      DatesKept(w, Next(w, a));
    }
  }

  lemma {:induction false} AlwaysDated(actions: seq<Action>)
    ensures Dated(Play(actions))
  {
    if |actions| > 0 {
      hide WorldOk, Next, Dated;
      AlwaysOk(actions[..|actions| - 1]);
      AlwaysDated(actions[..|actions| - 1]);
      NextDated(Play(actions[..|actions| - 1]), actions[|actions| - 1]);
    }
  }

  // Call c listened at most `timeout` per attempt, re-sent within `timer` of each deadline, and its frames
  // reached deduplication within `queue` of being aired.
  ghost predicate Prompt(w: World, c: nat, timeout: int, timer: int, queue: int)
    requires c < |w.calls|
  {
    && (forall k :: 0 <= k < |w.calls[c].aired| ==> w.calls[c].aired[k] < |w.airings|)
    && (forall k :: 0 <= k < |w.calls[c].aired| ==> w.airings[w.calls[c].aired[k]].timeout <= timeout)
    && (forall k :: 0 < k < |w.calls[c].aired| ==>
          w.airings[w.calls[c].aired[k]].at
          <= w.airings[w.calls[c].aired[k - 1]].at + w.airings[w.calls[c].aired[k - 1]].timeout + RETRY_GUARD + timer)
    && (forall i :: AdmittedFor(w, c, i) ==> w.engine.log[i].at <= w.airings[w.engine.log[i].tag].at + queue)
  }

  ghost predicate AdmittedFor(w: World, c: nat, i: int) {
    && 0 <= i < |w.engine.log| && w.engine.log[i].Admitted?
    && w.engine.log[i].tag < |w.airings| && w.airings[w.engine.log[i].tag].call == c
  }

  lemma {:induction false} AttemptsInTime(w: World, c: nat, timeout: int, timer: int, queue: int, k: nat)
    requires Dated(w) && c < |w.calls| && Prompt(w, c, timeout, timer, queue) && k < |w.calls[c].aired|
    ensures w.airings[w.calls[c].aired[k]].at <= w.airings[w.calls[c].aired[0]].at + k * (timeout + RETRY_GUARD + timer)
  {
    if k > 0 {
      AttemptsInTime(w, c, timeout, timer, queue, k - 1);
      assert k * (timeout + RETRY_GUARD + timer) == (k - 1) * (timeout + RETRY_GUARD + timer)
        + (timeout + RETRY_GUARD + timer);
    }
  }

  /** A transmitWithRetry call whose four attempts fit the 30 s window is admitted at most once. */
  lemma OneAdmissionPerBurst(actions: seq<Action>, c: nat, timeout: int, timer: int, queue: int)
    requires c < |Play(actions).calls| && Prompt(Play(actions), c, timeout, timer, queue)
    requires timeout >= 0 && timer >= 0 && MAX_RETRIES * (timeout + RETRY_GUARD + timer) + queue < DEDUP_TTL
    ensures forall i, j :: AdmittedFor(Play(actions), c, i) && AdmittedFor(Play(actions), c, j) ==> i == j
  {
    hide Play, StepsOf, Run, EtherOrder.Leased, WorldOk, Dated, Prompt;
    var w := Play(actions);
    AlwaysOk(actions);
    AlwaysDated(actions);
    EngineRun(actions);
    EtherOrder.AdmissionsSpaced(StepsOf(actions));
    SameKey(actions, c);
    forall i, j | AdmittedFor(w, c, i) && AdmittedFor(w, c, j) && i < j ensures false {
      AdmissionWindow(w, c, timeout, timer, queue, i);
      AdmissionWindow(w, c, timeout, timer, queue, j);
    }
  }

  // All frames of one call ask for the same dedup key.
  lemma SameKey(actions: seq<Action>, c: nat)
    requires c < |Play(actions).calls| && Dated(Play(actions))
    ensures var w := Play(actions);
      forall i :: AdmittedFor(w, c, i) ==> w.engine.log[i].key == FrameKey(w.calls[c].frame)
  {
    hide Play;
  }

  lemma AdmissionWindow(w: World, c: nat, timeout: int, timer: int, queue: int, i: nat)
    requires WorldOk(w) && Dated(w) && c < |w.calls| && Prompt(w, c, timeout, timer, queue) && AdmittedFor(w, c, i)
    requires timeout >= 0 && timer >= 0
    ensures |w.calls[c].aired| > 0
    ensures var start := w.airings[w.calls[c].aired[0]].at;
      start <= w.engine.log[i].at <= start + MAX_RETRIES * (timeout + RETRY_GUARD + timer) + queue
  {
    var x := w.engine.log[i].tag;
    var k := w.airings[x].attempt;
    assert w.calls[c].aired[k] == x;
    assert CallOk(w.ships, w.calls, c);
    AttemptsInTime(w, c, timeout, timer, queue, k);
    var d := timeout + RETRY_GUARD + timer;
    assert k * d <= MAX_RETRIES * d;
    assert w.calls[c].aired[0] <= w.calls[c].aired[k];
  }

  // A forward or delivery of one of call c's frames.
  ghost predicate PassedFor(w: World, c: nat, i: int) {
    && 0 <= i < |w.engine.log| && EtherOrder.IsPassage(w.engine.log[i])
    && w.engine.log[i].tag < |w.airings| && w.airings[w.engine.log[i].tag].call == c
  }

  function TagsOf(w: World, c: nat): EtherOrder.Claim -> bool {
    (claim: EtherOrder.Claim) => claim.tag < |w.airings| && w.airings[claim.tag].call == c
  }

  /** So one such call causes at most one forward or delivery. */
  lemma OnePassagePerBurst(actions: seq<Action>, c: nat, timeout: int, timer: int, queue: int)
    requires c < |Play(actions).calls| && Prompt(Play(actions), c, timeout, timer, queue)
    requires timeout >= 0 && timer >= 0 && MAX_RETRIES * (timeout + RETRY_GUARD + timer) + queue < DEDUP_TTL
    ensures forall i, j :: PassedFor(Play(actions), c, i) && PassedFor(Play(actions), c, j) ==> i == j
  {
    hide Play, StepsOf, Run, Prompt;
    var w := Play(actions);
    OneAdmissionPerBurst(actions, c, timeout, timer, queue);
    EngineRun(actions);
    forall i, j | PassedFor(w, c, i) && PassedFor(w, c, j) ensures i == j {
      forall a, b | 0 <= a < |w.engine.log| && 0 <= b < |w.engine.log|
        && EtherOrder.Admits(w.engine.log[a], TagsOf(w, c)) && EtherOrder.Admits(w.engine.log[b], TagsOf(w, c))
        ensures a == b
      {
        assert AdmittedFor(w, c, a) && AdmittedFor(w, c, b);
      }
      EtherOrder.SinglePassage(StepsOf(actions), TagsOf(w, c), i, j);
    }
  }

  /** At SF 7 to 11 that is the case whenever total timer and queue slack stays below 9 s. */
  lemma BurstFitsWindow(sf: int, timer: int, queue: int)
    requires 7 <= sf <= 11 && MAX_RETRIES * timer + queue < 9000
    ensures MAX_RETRIES * (AckTimeout(sf) + RETRY_GUARD + timer) + queue < DEDUP_TTL
  {
    assert sf == 7 || sf == 8 || sf == 9 || sf == 10 || sf == 11;
  }
}
