/** Ether and dashboard together: a ship's retry mark speaks of that ship's own frames. */
module RetryMarks {
  import opened Protocol
  import opened StateStore
  import opened Sums
  import opened Fates
  import opened Verdicts
  import Ether
  import T = TopologyStore
  import opened TopologyRuns

  // A frame of the ship was judged and dropped for the reason.
  ghost predicate OwnDrop(steps: seq<Ether.Step>, id: string, packetId: string, receiver: string, reason: DropReason) {
    exists n, r, params ::
      JudgedAt(steps, n, r, params) && DropOf(r, params, steps[n].env, id, packetId, receiver, reason)
  }

  ghost predicate DropOf(r: Ether.Request, params: SessionParams, env: Ether.Env, id: string, packetId: string,
      receiver: string, reason: DropReason) {
    && r.Transmit? && r.sender == id && r.pkt.packetId == packetId && r.pkt.targetParent == receiver
    && r.pkt.payload.Bytes? && DroppedFor(reason, r.pkt, params.spreadingFactor, env)
  }

  // What an announced event that marks the ship rests on.
  ghost predicate Cause(steps: seq<Ether.Step>, ev: PacketEvent, id: string) {
    var log := Ether.Run(steps).log;
    match ev.kind
    case DropEvent => exists reason :: ev.reason == Some(reason) && OwnDrop(steps, id, ev.packetId, ev.to, reason)
    case AckEvent =>
      && Ether.Survived(Key(ev.packetId, ev.from), id) in log
      && exists o :: o in log && IsAck(o, Key(ev.packetId, ev.from), id)
    case AckDropEvent => Ether.Survived(Key(ev.packetId, ev.from), id) in log
    case _ => Ether.Survived(Key(ev.packetId, ev.to), id) in log
  }

  lemma AckSentFor(steps: seq<Ether.Step>, i: nat)
    requires i < |Ether.Run(steps).log| && Ether.Run(steps).log[i].Event? && Ether.Run(steps).log[i].ev.kind.AckEvent?
    ensures var ev := Ether.Run(steps).log[i].ev;
      exists o :: o in Ether.Run(steps).log && IsAck(o, Key(ev.packetId, ev.from), ev.to)
  {
    hide Ether.Run, Speaking;
    var e, ev := Ether.Run(steps), Ether.Run(steps).log[i].ev;
    var k, to := Key(ev.packetId, ev.from), ev.to;
    AckEventsMatch(steps, k, to);
    NonNegative(e.jobs, Speaks(k, to));
    NonNegative(e.log, AckEvents(k, to));
    assert e.log[i] in e.log && AckEvents(k, to)(e.log[i]) == 1;
    if forall o :: o in e.log ==> !IsAck(o, k, to) { Zero(e.log, Acks(k, to)); }
  }

  /** Every announced event that sets or clears a ship's mark speaks of a frame of that ship: one that was judged and
      dropped, or one that survived; and an ack event of an ACK sent to it. */
  lemma MarkHasCause(steps: seq<Ether.Step>, i: nat, id: string, retrying: bool)
    requires i < |Ether.Run(steps).log| && Ether.Run(steps).log[i].Event?
    requires Marks(Ether.Run(steps).log[i].ev, id, retrying)
    ensures Cause(steps, Ether.Run(steps).log[i].ev, id)
  {
    hide Ether.Run, JudgedAt, DroppedFor;
    var ev := Ether.Run(steps).log[i].ev;
    if ev.kind.DropEvent? {
      var n, r, params, reason := DropsExplained(steps, i);
      JudgedFacts(steps, n, r, params);
      assert JudgedAt(steps, n, r, params) && DropOf(r, params, steps[n].env, id, ev.packetId, ev.to, reason);
      assert OwnDrop(steps, id, ev.packetId, ev.to, reason);
    } else {
      EventsNameTheFrame(steps, i);
      if ev.kind.AckEvent? { AckSentFor(steps, i); }
    }
  }

  // The last word on the ship's mark is event i of the actions, and says that the ship waits.
  ghost predicate WaitsSince(actions: seq<(T.Action, int)>, steps: seq<Ether.Step>, id: string, i: int) {
    && LastWord(actions, i, id, IsRetrying(true))
    && 0 <= i < |actions| && actions[i].0.Packet? && Cause(steps, actions[i].0.ev, id)
    && actions[i].0.ev.kind in {DropEvent, DuplicateEvent, AckDropEvent}
  }

  /** A dashboard fed with the ether's events shows a ship waiting only after an event saying that a frame of that very
      ship was dropped, filtered as a duplicate, or survived while its ACK was lost; nothing since has said
      otherwise. */
  lemma WaitingHasCause(actions: seq<(T.Action, int)>, steps: seq<Ether.Step>, id: string)
    requires forall k :: 0 <= k < |actions| && actions[k].0.Packet? ==>
      Ether.Event(actions[k].0.ev) in Ether.Run(steps).log
    requires id in T.Run(actions) && T.Run(actions)[id].retrying
    ensures exists i :: WaitsSince(actions, steps, id, i)
  {
    hide Ether.Run, T.Run, Cause;
    if forall j, f :: MatterOf(f) == Mark ==> !LastWord(actions, j, id, f) { NoWordNoFact(actions, id, Mark); }
    var i, f :| MatterOf(f) == Mark && LastWord(actions, i, id, f);
    LastWordShown(actions, i, id, f);
    assert Heard(actions, i, id, IsRetrying(true));
    var ev := actions[i].0.ev;
    var n :| 0 <= n < |Ether.Run(steps).log| && Ether.Run(steps).log[n] == Ether.Event(ev);
    MarkHasCause(steps, n, id, true);
    assert WaitsSince(actions, steps, id, i);
  }
}
