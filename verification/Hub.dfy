/** ws/hub.go: the connection registry and its handover on reconnect. */
module Hub {
  import opened Protocol
  import opened Order

  type Registry<C> = map<string, map<string, C>>

  function Lookup<C>(r: Registry<C>, session: string, node: string): Option<C> {
    if session in r && node in r[session] then Some(r[session][node]) else None
  }

  function Register<C>(r: Registry<C>, session: string, node: string, c: C): Registry<C> {
    r[session := (if session in r then r[session] else map[])[node := c]]
  }

  // Removes the entry only if it still is this very client; an emptied session map goes too.
  function Unregister<C(==)>(r: Registry<C>, session: string, node: string, c: C): Registry<C> {
    if Lookup(r, session, node) != Some(c) then r
    else if |r[session] - {node}| == 0 then r - {session} else r[session := r[session] - {node}]
  }

  ghost predicate NoEmptySession<C(!new)>(r: Registry<C>) { forall s :: s in r ==> |r[s]| > 0 }

  lemma RegisterLookup<C>(r: Registry<C>, s: string, n: string, c: C, s': string, n': string)
    ensures Lookup(Register(r, s, n, c), s', n') == if s' == s && n' == n then Some(c) else Lookup(r, s', n')
  {
  }

  lemma UnregisterLookup<C>(r: Registry<C>, s: string, n: string, c: C, s': string, n': string)
    ensures Lookup(Unregister(r, s, n, c), s', n')
      == if s' == s && n' == n && Lookup(r, s, n) == Some(c) then None else Lookup(r, s', n')
  {
    if Lookup(r, s, n) == Some(c) && s' == s && n' != n && n' in r[s] {
      assert n' in r[s] - {n};
      assert |r[s] - {n}| != 0;
    }
  }

  class Client {
    const session: string
    const node: string
    var closed: bool

    constructor (session: string, node: string)
      ensures this.session == session && this.node == node && !closed
    {
      this.session, this.node, closed := session, node, false;
    }

    method Close()
      modifies this
      ensures closed
    {
      closed := true;
    }
  }

  function Replaced(r: Registry<Client>, c: Client): set<Client> {
    var prior := Lookup(r, c.session, c.node);
    if prior.Some? then {prior.value} else {}
  }

  class Hub {
    var nodes: Registry<Client>
    var monitors: map<string, set<Client>>

    constructor ()
      ensures nodes == map[] && monitors == map[]
    {
      nodes, monitors := map[], map[];
    }

    method RegisterNode(c: Client)
      modifies this`nodes, Replaced(nodes, c)
      ensures nodes == Register(old(nodes), c.session, c.node, c)
      ensures forall o :: o in Replaced(old(nodes), c) ==> o.closed
    {
      if c.session !in nodes { nodes := nodes[c.session := map[]]; }
      var prior := Lookup(nodes, c.session, c.node);
      nodes := nodes[c.session := nodes[c.session][c.node := c]];
      if prior.Some? { prior.value.Close(); }
    }

    method UnregisterNode(c: Client) returns (removed: bool)
      modifies this`nodes
      ensures removed <==> Lookup(old(nodes), c.session, c.node) == Some(c)
      ensures nodes == Unregister(old(nodes), c.session, c.node, c)
    {
      if Lookup(nodes, c.session, c.node) != Some(c) { return false; }
      nodes := nodes[c.session := nodes[c.session] - {c.node}];
      if |nodes[c.session]| == 0 { nodes := nodes - {c.session}; }
      removed := true;
    }

    method RegisterMonitor(c: Client)
      modifies this`monitors
      ensures monitors
        == old(monitors)[c.session := (if c.session in old(monitors) then old(monitors)[c.session] else {}) + {c}]
    {
      if c.session !in monitors { monitors := monitors[c.session := {}]; }
      monitors := monitors[c.session := monitors[c.session] + {c}];
    }

    method UnregisterMonitor(c: Client)
      modifies this`monitors
      ensures forall s :: s != c.session ==>
        (s in monitors <==> s in old(monitors)) && (s in monitors ==> monitors[s] == old(monitors)[s])
      ensures c.session in monitors <==> c.session in old(monitors) && old(monitors)[c.session] - {c} != {}
      ensures c.session in monitors ==> monitors[c.session] == old(monitors)[c.session] - {c}
    {
      if c.session !in monitors { return; }
      monitors := monitors[c.session := monitors[c.session] - {c}];
      if |monitors[c.session]| == 0 { monitors := monitors - {c.session}; }
    }

    method OnlineNodes(session: string) returns (ids: seq<string>)
      ensures forall id :: id in ids <==> Lookup(nodes, session, id) != None
      ensures forall i, j :: 0 <= i < j < |ids| ==> Less(ids[i], ids[j])
    {
      ids := [];
      if session !in nodes { return; }
      var rest := nodes[session].Keys;
      while rest != {}
        invariant rest <= nodes[session].Keys
        invariant forall id :: id in ids <==> id in nodes[session] && id !in rest
        invariant forall i, j :: 0 <= i < j < |ids| ==> ids[i] != ids[j]
        decreases |rest|
      {
        var id :| id in rest;
        ids := ids + [id];
        rest := rest - {id};
      }
      ids := SortStrings(ids);
    }
  }

  function SortStrings(s: seq<string>): (r: seq<string>)
    requires forall i, j :: 0 <= i < j < |s| ==> s[i] != s[j]
    ensures forall x :: x in r <==> x in s
    ensures forall i, j :: 0 <= i < j < |r| ==> Less(r[i], r[j])
  {
    SortedStrictly(s);
    SortBy(s, Self)
  }

  function Self(s: string): string { s }

  lemma SortedStrictly(s: seq<string>)
    requires forall i, j :: 0 <= i < j < |s| ==> s[i] != s[j]
    ensures forall x :: x in SortBy(s, Self) <==> x in s
    ensures forall i, j :: 0 <= i < j < |s| ==> Less(SortBy(s, Self)[i], SortBy(s, Self)[j])
  {
    var r := SortBy(s, Self);
    SameMembers(s, Self);
    SortBySorted(s, Self);
    DistinctMultiset(s);
    assert multiset(r) == multiset(s);
    forall i, j | 0 <= i < j < |r| ensures Less(r[i], r[j]) {
      Trichotomy(r[i], r[j]);
      if r[i] == r[j] { CountedTwice(r, i, j); }
      assert !Less(Self(r[j]), Self(r[i]));
    }
  }

  lemma CountedTwice(r: seq<string>, i: nat, j: nat)
    requires i < j < |r| && r[i] == r[j]
    ensures multiset(r)[r[i]] >= 2
  {
    assert r == r[..j] + [r[j]] + r[j + 1..];
    assert r[i] in r[..j];
  }

  lemma {:induction false} DistinctMultiset(s: seq<string>)
    requires forall i, j :: 0 <= i < j < |s| ==> s[i] != s[j]
    ensures forall x :: multiset(s)[x] <= 1
  {
    if |s| > 0 {
      DistinctMultiset(s[1..]);
      assert s == [s[0]] + s[1..];
      assert s[0] !in multiset(s[1..]);
    }
  }

  // ---- Whole runs of the registry -----------------------------------------------------------

  // One socket; serial numbers tell a ship's successive sockets apart.
  datatype Conn = Conn(session: string, node: string, serial: nat)
  datatype Op = Open(c: Conn) | Shut(c: Conn)
  datatype Sockets = Sockets(nodes: Registry<Conn>, closed: set<Conn>)

  function Apply(s: Sockets, op: Op): Sockets {
    match op
    case Open(c) =>
      Sockets(Register(s.nodes, c.session, c.node, c),
            match Lookup(s.nodes, c.session, c.node) case None => s.closed case Some(o) => s.closed + {o})
    case Shut(c) => s.(nodes := Unregister(s.nodes, c.session, c.node, c))
  }

  function Run(ops: seq<Op>): Sockets {
    if |ops| == 0 then Sockets(map[], {}) else Apply(Run(ops[..|ops| - 1]), ops[|ops| - 1])
  }

  // ops[i] opened the latest socket of (session, node).
  ghost predicate Latest(ops: seq<Op>, session: string, node: string, i: int) {
    && 0 <= i < |ops| && ops[i].Open? && ops[i].c.session == session && ops[i].c.node == node
    && forall j :: i < j < |ops| && ops[j].Open? ==> ops[j].c.session != session || ops[j].c.node != node
  }

  ghost predicate ShutAfter(ops: seq<Op>, i: int, c: Conn) {
    exists j :: 0 <= j < |ops| && i < j && ops[j] == Shut(c)
  }

  ghost predicate Holds(ops: seq<Op>, session: string, node: string, c: Conn) {
    exists i :: Latest(ops, session, node, i) && ops[i].c == c && !ShutAfter(ops, i, c)
  }

  /** A socket is registered exactly when it is the latest of its ship and was not shut since. */
  lemma {:induction false} RegistryExact(ops: seq<Op>, session: string, node: string, c: Conn)
    ensures Lookup(Run(ops).nodes, session, node) == Some(c) <==> Holds(ops, session, node, c)
  {
    if |ops| > 0 {
      hide Holds, Run, Register, Unregister, Lookup;
      var n := |ops| - 1;
      var before := ops[..n];
      RegistryExact(before, session, node, c);
      RunLast(ops);
      match ops[n]
      case Open(d) =>
        RegisterLookup(Run(before).nodes, d.session, d.node, d, session, node);
        if d.session == session && d.node == node {
          OpenHolds(ops, session, node, c);
        } else {
          Carry(ops, session, node, c);
        }
      case Shut(d) =>
        UnregisterLookup(Run(before).nodes, d.session, d.node, d, session, node);
        RegistryExact(before, session, node, d);
        ShutElsewhere(before, session, node, d);
        Carry(ops, session, node, c);
    }
  }

  lemma RunLast(ops: seq<Op>)
    requires |ops| > 0
    ensures Run(ops) == Apply(Run(ops[..|ops| - 1]), ops[|ops| - 1])
  {
  }

  lemma OpenHolds(ops: seq<Op>, session: string, node: string, c: Conn)
    requires |ops| > 0 && ops[|ops| - 1].Open? && ops[|ops| - 1].c.session == session && ops[|ops| - 1].c.node == node
    ensures Holds(ops, session, node, c) <==> c == ops[|ops| - 1].c
  {
    if c == ops[|ops| - 1].c { assert Latest(ops, session, node, |ops| - 1); }
  }

  // A socket is held only for its own ship.
  lemma ShutElsewhere(ops: seq<Op>, session: string, node: string, d: Conn)
    ensures Holds(ops, session, node, d) ==> d.session == session && d.node == node
  {
  }

  // An operation that opens no socket of (session, node) keeps the holder unless it shuts it.
  lemma Carry(ops: seq<Op>, session: string, node: string, c: Conn)
    requires |ops| > 0
    requires var op := ops[|ops| - 1]; op.Open? ==> op.c.session != session || op.c.node != node
    ensures var op := ops[|ops| - 1];
      Holds(ops, session, node, c) <==> Holds(ops[..|ops| - 1], session, node, c) && op != Shut(c)
  {
    var before := ops[..|ops| - 1];
    if Holds(before, session, node, c) && ops[|ops| - 1] != Shut(c) {
      var i :| Latest(before, session, node, i) && before[i].c == c && !ShutAfter(before, i, c);
      ShutLater(ops, i, c);
      assert Latest(ops, session, node, i);
    }
    if Holds(ops, session, node, c) {
      var i :| Latest(ops, session, node, i) && ops[i].c == c && !ShutAfter(ops, i, c);
      ShutLater(ops, i, c);
      assert Latest(before, session, node, i);
    }
  }

  lemma ShutLater(ops: seq<Op>, i: int, c: Conn)
    requires 0 <= i < |ops| - 1
    ensures ShutAfter(ops, i, c) <==> ShutAfter(ops[..|ops| - 1], i, c) || ops[|ops| - 1] == Shut(c)
  {
    var before := ops[..|ops| - 1];
    if ShutAfter(before, i, c) {
      var j :| 0 <= j < |before| && i < j && before[j] == Shut(c);
      assert ops[j] == Shut(c);
    }
    if ShutAfter(ops, i, c) {
      var j :| 0 <= j < |ops| && i < j && ops[j] == Shut(c);
      assert j < |before| ==> before[j] == Shut(c);
    }
  }

  /** A socket that ever opened is registered, was shut after, or was closed by its successor; no session map is
      empty. */
  lemma {:induction false} NoSocketForgotten(ops: seq<Op>)
    ensures NoEmptySession(Run(ops).nodes)
    ensures forall i :: 0 <= i < |ops| && ops[i].Open? ==>
      var c := ops[i].c;
      Lookup(Run(ops).nodes, c.session, c.node) == Some(c) || c in Run(ops).closed || ShutAfter(ops, i, c)
  {
    if |ops| > 0 {
      var n := |ops| - 1;
      var before := ops[..n];
      var s := Run(before);
      NoSocketForgotten(before);
      forall i | 0 <= i < |ops| && ops[i].Open?
        ensures var c := ops[i].c;
          Lookup(Run(ops).nodes, c.session, c.node) == Some(c) || c in Run(ops).closed || ShutAfter(ops, i, c)
      {
        if i < n {
          var c := before[i].c;
          if Lookup(s.nodes, c.session, c.node) == Some(c) || c in s.closed { StaysAccounted(s, ops[n], c); }
          hide Run, Apply, ShutAfter;
          ShutLater(ops, i, c);
        }
      }
    }
  }

  lemma StaysAccounted(s: Sockets, op: Op, c: Conn)
    requires Lookup(s.nodes, c.session, c.node) == Some(c) || c in s.closed
    ensures Lookup(Apply(s, op).nodes, c.session, c.node) == Some(c) || c in Apply(s, op).closed || op == Shut(c)
  {
    match op
    case Open(d) => RegisterLookup(s.nodes, d.session, d.node, d, c.session, c.node);
    case Shut(d) => UnregisterLookup(s.nodes, d.session, d.node, d, c.session, c.node);
  }

  /** A replaced socket's late close changes nothing: no entry goes, and the gateway drops no position. */
  lemma LateCloseIsNoOp(ops: seq<Op>, c: Conn, i: int)
    requires Latest(ops, c.session, c.node, i) && ops[i].c != c
    ensures Run(ops + [Shut(c)]) == Run(ops)
    ensures Lookup(Run(ops).nodes, c.session, c.node) != Some(c)
  {
    RegistryExact(ops, c.session, c.node, c);
    assert (ops + [Shut(c)])[..|ops|] == ops;
    assert forall j :: Latest(ops, c.session, c.node, j) ==> i == j;
  }
}
