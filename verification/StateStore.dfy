/** repository/state_repo.go: the TTL key store behind deduplication, ACK routing and the counters. */
module StateStore {
  import opened Protocol

  datatype Key = Key(packetId: string, receiver: string)
  datatype Lease = Lease(sender: string, expires: int)

  // One session's keys. A key with an expiry reads as absent from that instant on.
  datatype Store = Store(now: int, dedup: map<Key, int>, ackSender: map<Key, Lease>, stats: map<Stat, nat>)

  const EMPTY := Store(0, map[], map[], map[])

  function Count(s: Store, k: Stat): nat { if k in s.stats then s.stats[k] else 0 }

  function Incr(s: Store, k: Stat): Store { s.(stats := s.stats[k := Count(s, k) + 1]) }

  predicate Seen(s: Store, k: Key) { k in s.dedup && s.now < s.dedup[k] }

  // SETNX with a TTL: claims the key unless a live one is there.
  function MarkSeen(s: Store, k: Key): Store {
    if Seen(s, k) then s else s.(dedup := s.dedup[k := s.now + DEDUP_TTL])
  }

  function Remember(s: Store, k: Key, sender: string): Store {
    s.(ackSender := s.ackSender[k := Lease(sender, s.now + ACK_SENDER_TTL)])
  }

  function SenderOf(s: Store, k: Key): Option<string> {
    if k in s.ackSender && s.now < s.ackSender[k].expires then Some(s.ackSender[k].sender) else None
  }

  // GETDEL
  function Forget(s: Store, k: Key): Store { s.(ackSender := s.ackSender - {k}) }

  class StateRepository {
    var now: int
    var dedup: map<Key, int>
    var ackSender: map<Key, Lease>
    var stats: map<Stat, nat>

    function View(): Store
      reads this
    {
      Store(now, dedup, ackSender, stats)
    }

    constructor ()
      ensures View() == EMPTY
    {
      now, dedup, ackSender, stats := 0, map[], map[], map[];
    }

    method MarkPacketSeen(packetId: string, receiver: string) returns (firstTime: bool)
      modifies this`dedup
      ensures firstTime == !Seen(old(View()), Key(packetId, receiver))
      ensures View() == MarkSeen(old(View()), Key(packetId, receiver))
    {
      var k := Key(packetId, receiver);
      firstTime := !(k in dedup && now < dedup[k]);
      if firstTime { dedup := dedup[k := now + DEDUP_TTL]; }
    }

    method RememberAckSender(packetId: string, receiver: string, sender: string)
      modifies this`ackSender
      ensures View() == Remember(old(View()), Key(packetId, receiver), sender)
    {
      ackSender := ackSender[Key(packetId, receiver) := Lease(sender, now + ACK_SENDER_TTL)];
    }

    method TakeAckSender(packetId: string, receiver: string) returns (sender: Option<string>)
      modifies this`ackSender
      ensures sender == SenderOf(old(View()), Key(packetId, receiver))
      ensures View() == Forget(old(View()), Key(packetId, receiver))
    {
      var k := Key(packetId, receiver);
      sender := if k in ackSender && now < ackSender[k].expires then Some(ackSender[k].sender) else None;
      ackSender := ackSender - {k};
    }

    method IncrStat(k: Stat)
      modifies this`stats
      ensures View() == Incr(old(View()), k)
    {
      stats := stats[k := (if k in stats then stats[k] else 0) + 1];
    }
  }
}
