/** cmd/nodesim/main.go: one ship's data-link state. */
module ShipNode {
  import opened MeshGraph
  import opened Protocol
  import opened Decimal

  // The channel a waiting attempt of a transmit call listens on.
  datatype Ticket = Ticket(call: nat, attempt: nat)

  datatype Ship = Ship(id: string, parent: string, parentIsEdge: bool, routed: bool, ackTimeout: int, maxPayload: int,
                       seen: set<string>, waiters: map<string, Ticket>, pktSeq: nat)

  function Fresh(id: string): Ship { Ship(id, "", false, false, 2000, 242, {}, map[], 0) }

  // Decimal text of n, zero-padded to four digits (%04d).
  function Padded(n: nat): string {
    var d := Digits(n);
    if |d| >= 4 then d else seq(4 - |d|, _ => '0') + d
  }

  function PacketId(ship: string, n: nat): string { "pkt-" + ship + "-" + Padded(n) }

  function OnRoutingUpdate(s: Ship, parent: string, parentIsEdge: bool, status: Status): Ship {
    s.(parent := parent, parentIsEdge := parentIsEdge, routed := status == Routed)
  }

  function OnSyncParams(s: Ship, timeoutMs: int, maxPayload: int): Ship {
    if timeoutMs > 0 then s.(ackTimeout := timeoutMs, maxPayload := maxPayload) else s
  }

  // A mesh:ack closes the channel registered for its packet id, whoever it belongs to.
  function OnAck(s: Ship, packetId: string): (Ship, Option<Ticket>) {
    if packetId in s.waiters then (s.(waiters := s.waiters - {packetId}), Some(s.waiters[packetId])) else (s, None)
  }

  function Listen(s: Ship, packetId: string, t: Ticket): Ship { s.(waiters := s.waiters[packetId := t]) }
  function StopListening(s: Ship, packetId: string): Ship { s.(waiters := s.waiters - {packetId}) }

  function Relay(s: Ship, p: TransmitPacket): TransmitPacket {
    p.(targetParent := s.parent, hopCount := p.hopCount + 1, routingPath := p.routingPath + [s.id])
  }

  // handleReceive after its node:ack: relay a packet id seen for the first time, if there is a route.
  function Receive(s: Ship, p: TransmitPacket): (Ship, Option<TransmitPacket>) {
    if p.packetId in s.seen then (s, None)
    else
      var s' := s.(seen := s.seen + {p.packetId});
      (s', if !s.routed || s.parent == "" then None else Some(Relay(s, p)))
  }

  function Telemetry(s: Ship, raw: seq<byte>): TransmitPacket {
    TransmitPacket(PacketId(s.id, s.pktSeq + 1), s.id, s.parent, 1, [s.id], if raw == [] then NoText else Bytes(raw))
  }

  // transmitTelemetry: the sequence number advances even when nothing is sent.
  function Originate(s: Ship, raw: seq<byte>, ignoreSF: bool): (Ship, Option<TransmitPacket>) {
    var s' := s.(pktSeq := s.pktSeq + 1);
    if !s.routed || s.parent == "" then (s', None)
    else if |raw| > s.maxPayload && !ignoreSF then (s', None)
    else (s', Some(Telemetry(s, raw)))
  }

  // How one attempt of transmitWithRetry ends.
  datatype Outcome = WriteFailed | Answered | Cancelled | TimedOut

  // Attempts put on the air from `attempt` on, when attempt n ends as outcome(n).
  function Sends(outcome: nat -> Outcome, attempt: nat): nat
    decreases MAX_RETRIES + 1 - attempt
  {
    if attempt > MAX_RETRIES || outcome(attempt) == WriteFailed then 0
    else if outcome(attempt) == TimedOut then 1 + Sends(outcome, attempt + 1)
    else 1
  }

  function LastOutcome(outcome: nat -> Outcome, attempt: nat): Outcome
    decreases MAX_RETRIES + 1 - attempt
  {
    if attempt > MAX_RETRIES then TimedOut
    else if outcome(attempt) == TimedOut then LastOutcome(outcome, attempt + 1) else outcome(attempt)
  }

  /** A call whose first n attempts time out airs n frames, and one more unless writing it fails; four at most. */
  lemma {:induction false} AttemptsAired(outcome: nat -> Outcome, from: nat, n: nat)
    requires from <= n <= 4 && forall k :: from <= k < n ==> outcome(k) == TimedOut
    ensures n == 4 ==> Sends(outcome, from) == n - from && LastOutcome(outcome, from) == TimedOut
    ensures n < 4 && outcome(n) != TimedOut ==>
      Sends(outcome, from) == n - from + (if outcome(n) == WriteFailed then 0 else 1)
        && LastOutcome(outcome, from) == outcome(n)
    decreases n - from
  {
    if from < n { AttemptsAired(outcome, from + 1, n); }
  }

  // The waiters a call leaves from `attempt` on, when the wait of attempt n ends with the waiters found(n): it
  // registers its own before it sends, and after a timeout removes whatever is registered for its packet.
  function Waits(waiters: map<string, Ticket>, packetId: string, call: nat, outcome: nat -> Outcome,
                 found: nat -> map<string, Ticket>, attempt: nat): map<string, Ticket>
    decreases MAX_RETRIES + 1 - attempt
  {
    if attempt > MAX_RETRIES then waiters
    else match outcome(attempt)
      case WriteFailed => waiters[packetId := Ticket(call, attempt)]
      case TimedOut => Waits(found(attempt) - {packetId}, packetId, call, outcome, found, attempt + 1)
      case _ => found(attempt)
  }

  // What a call finds that nobody disturbs: its own waiter, or none once the ACK closed it.
  function Quietly(waiters: map<string, Ticket>, packetId: string, call: nat,
      outcome: nat -> Outcome): nat -> map<string, Ticket> {
    (n: nat) => if outcome(n) == Answered then waiters - {packetId} else waiters[packetId := Ticket(call, n)]
  }

  ghost predicate Undisturbed(waiters: map<string, Ticket>, packetId: string, outcome: nat -> Outcome,
      found: nat -> map<string, Ticket>) {
    forall n: nat :: found(n) - {packetId} == waiters - {packetId} && (packetId in found(n) <==> outcome(n) != Answered)
  }

  /** Undisturbed, a call touches no other waiter, and its own stays behind exactly after a failed write or a
      cancellation. */
  lemma {:induction false} QuietWaits(waiters: map<string, Ticket>, packetId: string, call: nat,
      outcome: nat -> Outcome,
                                      found: nat -> map<string, Ticket>, attempt: nat)
    requires Undisturbed(waiters, packetId, outcome, found)
    ensures Waits(waiters, packetId, call, outcome, found, attempt) - {packetId} == waiters - {packetId}
    ensures var left := Waits(waiters, packetId, call, outcome, found, attempt);
      attempt <= MAX_RETRIES ==> (packetId in left <==> LastOutcome(outcome, attempt) in {WriteFailed, Cancelled})
    decreases MAX_RETRIES + 1 - attempt
  {
    if attempt <= MAX_RETRIES {
      match outcome(attempt)
      case TimedOut =>
        QuietWaits(found(attempt) - {packetId}, packetId, call, outcome, found, attempt + 1);
        assert (found(attempt) - {packetId}) - {packetId} == found(attempt) - {packetId};
      case WriteFailed => assert waiters[packetId := Ticket(call, attempt)] - {packetId} == waiters - {packetId};
      case _ =>
    }
  }

  class Node {
    const id: string
    var parent: string
    var parentIsEdge: bool
    var routed: bool
    var ackTimeout: int
    var maxPayload: int
    var seen: set<string>
    var waiters: map<string, Ticket>
    var pktSeq: nat

    function View(): Ship
      reads this
    {
      Ship(id, parent, parentIsEdge, routed, ackTimeout, maxPayload, seen, waiters, pktSeq)
    }

    constructor (id: string)
      ensures View() == Fresh(id)
      ensures this.id == id && parent == "" && !routed && ackTimeout == 2000 && maxPayload == 242
      ensures seen == {} && waiters == map[] && pktSeq == 0
    {
      this.id := id;
      parent, parentIsEdge, routed, ackTimeout, maxPayload := "", false, false, 2000, 242;
      seen, waiters, pktSeq := {}, map[], 0;
    }

    method RoutingUpdate(newParent: string, isEdge: bool, status: Status)
      modifies this`parent, this`parentIsEdge, this`routed
      ensures View() == OnRoutingUpdate(old(View()), newParent, isEdge, status)
      ensures parent == newParent && parentIsEdge == isEdge && (routed <==> status == Routed)
      ensures forall p :: Receive(View(), p).1.Some? <==> p.packetId !in seen && status == Routed && newParent != ""
      ensures forall p :: Receive(View(), p).1.Some? ==> Receive(View(), p).1.value.targetParent == newParent
      ensures forall raw, ignoreSF :: Originate(View(), raw, ignoreSF).1.Some? ==>
        status == Routed && newParent != "" && Originate(View(), raw, ignoreSF).1.value.targetParent == newParent
    {
      parent, parentIsEdge, routed := newParent, isEdge, status == Routed;
    }

    method SyncParams(timeoutMs: int, payloadLimit: int)
      modifies this`ackTimeout, this`maxPayload
      ensures View() == OnSyncParams(old(View()), timeoutMs, payloadLimit)
      ensures timeoutMs > 0 ==> ackTimeout == timeoutMs && maxPayload == payloadLimit
      ensures timeoutMs > 0 ==> forall raw :: Originate(View(), raw, false).1.Some? ==> |raw| <= payloadLimit
      ensures timeoutMs <= 0 ==> View() == old(View())
    {
      if timeoutMs > 0 { ackTimeout, maxPayload := timeoutMs, payloadLimit; }
    }

    method AckReceived(packetId: string) returns (closed: Option<Ticket>)
      modifies this`waiters
      ensures (View(), closed) == OnAck(old(View()), packetId)
      ensures closed.Some? <==> packetId in old(waiters)
      ensures closed.Some? ==> old(waiters) == waiters[packetId := closed.value]
      ensures OnAck(View(), packetId) == (View(), None)
    {
      closed := None;
      if packetId in waiters {
        closed := Some(waiters[packetId]);
        waiters := waiters - {packetId};
      }
    }

    method HandleReceive(p: TransmitPacket) returns (fwd: Option<TransmitPacket>)
      modifies this`seen
      ensures (View(), fwd) == Receive(old(View()), p)
      ensures fwd.Some? <==> p.packetId !in old(seen) && routed && parent != ""
      ensures fwd.Some? ==>
        && fwd.value.hopCount == p.hopCount + 1 && fwd.value.routingPath == p.routingPath + [id]
        && fwd.value.targetParent == parent
        && fwd.value.packetId == p.packetId && fwd.value.originNode == p.originNode && fwd.value.payload == p.payload
      ensures seen == old(seen) + {p.packetId} && forall q: TransmitPacket :: q.packetId == p.packetId ==>
        Receive(View(), q) == (View(), None)
    {
      fwd := None;
      if p.packetId in seen { return; }
      seen := seen + {p.packetId};
      if !routed || parent == "" { return; }
      fwd := Some(p.(targetParent := parent, hopCount := p.hopCount + 1, routingPath := p.routingPath + [id]));
    }

    method TransmitTelemetry(raw: seq<byte>, ignoreSF: bool) returns (frame: Option<TransmitPacket>)
      modifies this`pktSeq
      ensures (View(), frame) == Originate(old(View()), raw, ignoreSF)
      ensures frame.Some? <==> routed && parent != "" && (|raw| <= maxPayload || ignoreSF)
      ensures frame.Some? ==>
        && frame.value.hopCount == 1 && frame.value.routingPath == [id]
        && frame.value.originNode == id && frame.value.targetParent == parent
        && frame.value.payload == if raw == [] then NoText else Bytes(raw)
      ensures pktSeq == old(pktSeq) + 1
      ensures frame.Some? ==> forall ship, n: nat :: PacketId(ship, n) == frame.value.packetId ==>
        ship == id && n > old(pktSeq)
    {
      frame := None;
      pktSeq := pktSeq + 1;
      if !routed || parent == "" { return; }
      if |raw| > maxPayload && !ignoreSF { return; }
      forall ship, n: nat | PacketId(ship, n) == PacketId(id, pktSeq)
        ensures ship == id && n == pktSeq
      {
        PacketIdsUnique(ship, n, id, pktSeq);
      }
      frame := Some(TransmitPacket(PacketId(id, pktSeq), id, parent, 1, [id], if raw == [] then NoText
        else Bytes(raw)));
    }

    /** The retry loop: the same frame at most four times, stopping at the first attempt that does not time out. While
        it waits, the reader and the ship's other calls change the waiters at will: attempt n ends with found(n). */
    method TransmitWithRetry(p: TransmitPacket, call: nat, outcome: nat -> Outcome, found: nat -> map<string, Ticket>)
      returns (sent: seq<TransmitPacket>, dead: bool)
      modifies this`waiters
      ensures |sent| == Sends(outcome, 0) && forall i :: 0 <= i < |sent| ==> sent[i] == p
      ensures |sent| <= 4
      ensures dead <==> forall n: nat :: n <= 3 ==> outcome(n) == TimedOut
      ensures dead ==> p.packetId !in waiters
      ensures waiters == Waits(old(waiters), p.packetId, call, outcome, found, 0)
      ensures Undisturbed(old(waiters), p.packetId, outcome, found) ==>
        && waiters - {p.packetId} == old(waiters) - {p.packetId}
        && (p.packetId in waiters <==> LastOutcome(outcome, 0) in {WriteFailed, Cancelled})
    {
      hide Undisturbed, LastOutcome;
      if Undisturbed(waiters, p.packetId, outcome, found) { QuietWaits(waiters, p.packetId, call, outcome, found, 0); }
      sent, dead := [], false;
      var attempt := 0;
      while attempt <= MAX_RETRIES
        invariant attempt <= MAX_RETRIES + 1
        invariant |sent| == attempt && forall i :: 0 <= i < |sent| ==> sent[i] == p
        invariant forall n: nat :: n < attempt ==> outcome(n) == TimedOut
        invariant Sends(outcome, 0) == attempt + Sends(outcome, attempt)
        invariant attempt > 0 ==> p.packetId !in waiters
        invariant Waits(old(waiters), p.packetId, call, outcome, found, 0)
          == Waits(waiters, p.packetId, call, outcome, found, attempt)
      {
        waiters := waiters[p.packetId := Ticket(call, attempt)];
        if outcome(attempt) == WriteFailed { return; }
        sent := sent + [p];
        waiters := found(attempt);   // the reader and other calls, while this one waits
        if outcome(attempt) == Answered || outcome(attempt) == Cancelled { return; }
        waiters := waiters - {p.packetId};
        attempt := attempt + 1;
      }
      dead := true;
    }
  }

  // ---- Packet ids are unique across ships and sequence numbers --------------------------------

  /** The number in decimal, with at least four digits and no leading zero beyond the fourth. */
  lemma PaddedNumber(n: nat)
    ensures Number(Padded(n)) == n && '-' !in Padded(n)
    ensures |Padded(n)| >= 4 && (|Padded(n)| > 4 ==> Padded(n)[0] != '0')
  {
    DigitsNumber(n);
    if n > 0 { DigitsStart(n); }
    if |Digits(n)| < 4 { LeadingZeros(4 - |Digits(n)|, Digits(n)); }
  }

  lemma DigitsStart(n: nat)
    requires n > 0
    ensures |Digits(n)| > 0 && Digits(n)[0] != '0'
  {
    DigitsNumber(n);
  }

  lemma SplitAtDash(a: string, p: string, b: string, q: string)
    requires a + "-" + p == b + "-" + q && '-' !in p && '-' !in q
    ensures a == b && p == q
  {
    var y := a + "-" + p;
    assert y == b + "-" + q && y[|a|] == '-' && y[|b|] == '-';
    assert forall i :: |a| < i < |y| ==> y[i] == p[i - |a| - 1];
    assert forall i :: |b| < i < |y| ==> y[i] == q[i - |b| - 1];
    assert |a| == |b|;
    assert a == y[..|a|] && b == y[..|b|];
    assert p == y[|a| + 1..] && q == y[|b| + 1..];
  }

  /** Two packet ids are equal only for the same ship and the same sequence number. */
  lemma PacketIdsUnique(a: string, m: nat, b: string, n: nat)
    requires PacketId(a, m) == PacketId(b, n)
    ensures a == b && m == n
  {
    hide Padded, Number;
    PaddedNumber(m);
    PaddedNumber(n);
    assert PacketId(a, m)[4..] == a + "-" + Padded(m) && PacketId(b, n)[4..] == b + "-" + Padded(n);
    SplitAtDash(a, Padded(m), b, Padded(n));
  }
}
