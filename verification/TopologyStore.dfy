/** frontend/src/stores/topologyStore.ts: the dashboard's ships, routes and link states. */
module TopologyStore {
  import opened MeshGraph
  import opened MeshTheorems
  import opened Protocol
  import opened Distribution

  // `at` is None until the first position (NaN in the source).
  datatype ShipNode = ShipNode(id: string, at: Option<Point>, online: bool, parent: Option<string>, parentIsEdge: bool,
                               distance: real, hop: int, status: Status, retrying: bool, lastEventAt: int)
  type Nodes = map<string, ShipNode>

  datatype ShipInfo = ShipInfo(id: string, at: Point, online: bool)

  function BlankNode(id: string, now: int): ShipNode {
    ShipNode(id, None, true, None, false, 0.0, 0, Isolated, false, now)
  }

  function KnownOrBlank(nodes: Nodes, id: string, now: int): ShipNode {
    if id in nodes then nodes[id] else BlankNode(id, now)
  }

  function ParentOf(r: RouteEntry): Option<string> { if r.parent == "" then None else Some(r.parent) }

  predicate RouteChanged(n: ShipNode, r: RouteEntry) {
    n.parent != ParentOf(r) || n.parentIsEdge != r.parentIsEdge || n.distance != r.distance
    || n.hop != r.hop || n.status != r.status || n.retrying
  }

  function WithRoute(n: ShipNode, r: RouteEntry): ShipNode {
    n.(parent := ParentOf(r), parentIsEdge := r.parentIsEdge, distance := r.distance, hop := r.hop, status := r.status,
      retrying := false)
  }

  // Overwrites the route of every listed row, in order.
  function Overwritten(nodes: Nodes, rows: seq<RouteEntry>, now: int): Nodes {
    if |rows| == 0 then nodes
    else
      var m := Overwritten(nodes, rows[..|rows| - 1], now);
      var r := rows[|rows| - 1];
      m[r.node := WithRoute(KnownOrBlank(m, r.node, now), r)]
  }

  function Moved(nodes: Nodes, ships: seq<ShipInfo>, now: int): Nodes {
    if |ships| == 0 then nodes
    else
      var m := Moved(nodes, ships[..|ships| - 1], now);
      var n := ships[|ships| - 1];
      m[n.id := KnownOrBlank(m, n.id, now).(at := Some(n.at), online := n.online)]
  }

  function WithEdges(edges: map<string, Edge>, listed: seq<Edge>): map<string, Edge> {
    if |listed| == 0 then edges else WithEdges(edges,
      listed[..|listed| - 1])[listed[|listed| - 1].code := listed[|listed| - 1]]
  }

  function Pinged(nodes: Nodes, id: string, at: Point, now: int): Nodes {
    nodes[id := KnownOrBlank(nodes, id, now).(at := Some(at), online := true, lastEventAt := now)]
  }

  function OnlineSet(nodes: Nodes, id: string, online: bool, now: int): Nodes {
    var prev := KnownOrBlank(nodes, id, now);
    nodes[id := if online then prev.(online := true, lastEventAt := now)
                else ShipNode(prev.id, prev.at, false, None, false, 0.0, 0, Isolated, false, now)]
  }

  // Whom a packet event concerns, and whether that ship is now waiting to retry.
  function Concerns(ev: PacketEvent): Option<(string, bool)> {
    match ev.kind
    case DropEvent => Some((ev.from, true)) case DuplicateEvent => Some((ev.from, true))
    case AckDropEvent => Some((ev.to, true))
    case ForwardEvent => Some((ev.from, false)) case DeliverEvent => Some((ev.from, false))
    case AckEvent => Some((ev.to, false))
    case _ => None
  }

  function Linked(nodes: Nodes, ev: PacketEvent, now: int): Nodes {
    match Concerns(ev)
    case None => nodes
    case Some((id, retrying)) =>
      if id == "" || id !in nodes || nodes[id].retrying == retrying then nodes
      else nodes[nodes[id].id := nodes[id].(retrying := retrying, lastEventAt := now)]
  }

  predicate SameRoute(a: ShipNode, b: ShipNode) {
    a.parent == b.parent && a.parentIsEdge == b.parentIsEdge && a.distance == b.distance && a.hop == b.hop
      && a.status == b.status
  }

  predicate NoRoute(n: ShipNode) {
    n.parent == None && !n.parentIsEdge && n.distance == 0.0 && n.hop == 0 && n.status == Isolated
  }

  class Store {
    var nodes: Nodes
    var edges: map<string, Edge>

    constructor ()
      ensures nodes == map[] && edges == map[]
    {
      nodes, edges := map[], map[];
    }

    /** applyRoutes: rows that change nothing are skipped, yet the result is that of overwriting every row. */
    method ApplyRoutes(start: Nodes, rows: seq<RouteEntry>, now: int) returns (result: Nodes)
      ensures result == Overwritten(start, rows, now)
    {
      result := start;
      for i := 0 to |rows|
        invariant result == Overwritten(start, rows[..i], now)
      {
        assert rows[..i + 1][..i] == rows[..i];
        var r := rows[i];
        var prev := if r.node in result then result[r.node] else BlankNode(r.node, now);
        if r.node in result && !RouteChanged(prev, r) {
          assert WithRoute(prev, r) == prev;
          assert result[r.node := prev] == result;
          continue;
        }
        result := result[r.node := prev.(parent := ParentOf(r), parentIsEdge := r.parentIsEdge, distance := r.distance,
                                         hop := r.hop, status := r.status, retrying := false)];
      }
      assert rows[..|rows|] == rows;
    }

    method ApplyRoutingTable(rows: seq<RouteEntry>, now: int)
      modifies this`nodes
      ensures nodes == Overwritten(old(nodes), rows, now)
    {
      nodes := ApplyRoutes(nodes, rows, now);
    }

    method ApplySnapshot(ships: seq<ShipInfo>, listed: seq<Edge>, rows: seq<RouteEntry>, now: int)
      modifies this
      ensures nodes == Overwritten(Moved(old(nodes), ships, now), rows, now)
      ensures edges == WithEdges(old(edges), listed)
    {
      var m := nodes;
      for i := 0 to |ships|
        invariant m == Moved(nodes, ships[..i], now) && nodes == old(nodes) && edges == old(edges)
      {
        assert ships[..i + 1][..i] == ships[..i];
        var prev := if ships[i].id in m then m[ships[i].id] else BlankNode(ships[i].id, now);
        m := m[ships[i].id := prev.(at := Some(ships[i].at), online := ships[i].online)];
      }
      assert ships[..|ships|] == ships;
      SetEdges(listed);
      nodes := ApplyRoutes(m, rows, now);
    }

    method SetEdges(listed: seq<Edge>)
      modifies this`edges
      ensures edges == WithEdges(old(edges), listed)
    {
      for i := 0 to |listed|
        invariant edges == WithEdges(old(edges), listed[..i])
      {
        assert listed[..i + 1][..i] == listed[..i];
        edges := edges[listed[i].code := listed[i]];
      }
      assert listed[..|listed|] == listed;
    }

    method ApplyPing(id: string, at: Point, now: int)
      modifies this`nodes
      ensures nodes == Pinged(old(nodes), id, at, now)
      ensures id in nodes && nodes[id].at == Some(at) && nodes[id].online && nodes[id].lastEventAt == now
      ensures nodes[id].retrying <==> id in old(nodes) && old(nodes)[id].retrying
      ensures nodes.Keys == old(nodes).Keys + {id} && forall o :: o in old(nodes) && o != id ==>
        nodes[o] == old(nodes)[o]
      ensures if id in old(nodes) then SameRoute(nodes[id], old(nodes)[id]) else NoRoute(nodes[id])
      ensures Coherent(old(nodes)) ==> Coherent(nodes)
    {
      var prev := if id in nodes then nodes[id] else BlankNode(id, now);
      nodes := nodes[id := prev.(at := Some(at), online := true, lastEventAt := now)];
    }

    method SetOnline(id: string, online: bool, now: int)
      modifies this`nodes
      ensures nodes == OnlineSet(old(nodes), id, online, now)
      ensures id in nodes && nodes[id].online == online && nodes[id].lastEventAt == now
      ensures nodes.Keys == old(nodes).Keys + {id} && forall o :: o in old(nodes) && o != id ==>
        nodes[o] == old(nodes)[o]
      ensures !online ==> NoRoute(nodes[id]) && !nodes[id].retrying
      ensures nodes[id].at == if id in old(nodes) then old(nodes)[id].at else None
      ensures online ==> if id in old(nodes) then SameRoute(nodes[id], old(nodes)[id]) else NoRoute(nodes[id])
      ensures online ==> (nodes[id].retrying <==> id in old(nodes) && old(nodes)[id].retrying)
      ensures Coherent(old(nodes)) ==> Coherent(nodes)
    {
      var prev := if id in nodes then nodes[id] else BlankNode(id, now);
      var next := if online then prev.(online := true, lastEventAt := now)
                  else prev.(online := false, status := Isolated, parent := None, parentIsEdge := false, hop := 0,
                             distance := 0.0, retrying := false, lastEventAt := now);
      nodes := nodes[id := next];
    }

    method ApplyPacketEvent(ev: PacketEvent, now: int)
      modifies this`nodes
      ensures nodes == Linked(old(nodes), ev, now)
      ensures Coherent(old(nodes)) ==> Coherent(nodes) && OnlyLinkChanges(old(nodes), nodes, ev)
    {
      if Coherent(nodes) { LinkedOnly(nodes, ev, now); }
      hide Coherent, OnlyLinkChanges;
      var target, retrying;
      match ev.kind {
        case DropEvent => target, retrying := ev.from, true;
        case DuplicateEvent => target, retrying := ev.from, true;
        case AckDropEvent => target, retrying := ev.to, true;
        case ForwardEvent => target, retrying := ev.from, false;
        case DeliverEvent => target, retrying := ev.from, false;
        case AckEvent => target, retrying := ev.to, false;
        case _ => return;
      }
      if target == "" || target !in nodes || nodes[target].retrying == retrying { return; }
      nodes := nodes[nodes[target].id := nodes[target].(retrying := retrying, lastEventAt := now)];
    }

    method Reset()
      modifies this
      ensures nodes == map[] && edges == map[]
    {
      nodes, edges := map[], map[];
    }
  }

  // ---- Every reachable store is coherent ----------------------------------------------------------

  predicate RowCoherent(r: RouteEntry) {
    (r.status == Routed <==> r.parent != "") && (r.status == Routed <==> r.hop >= 1)
  }

  ghost predicate Coherent(nodes: Nodes) {
    forall id :: id in nodes ==>
      && nodes[id].id == id
      && (nodes[id].status == Routed <==> nodes[id].parent.Some?)
        && (nodes[id].status == Routed <==> nodes[id].hop >= 1)
  }

  // The same ships with the same routes, positions and presence; only the one concerned may change its retry mark.
  ghost predicate OnlyLinkChanges(nodes: Nodes, nodes': Nodes, ev: PacketEvent) {
    && nodes'.Keys == nodes.Keys
    && forall o :: o in nodes ==>
      && SameRoute(nodes'[o], nodes[o]) && nodes'[o].at == nodes[o].at && nodes'[o].online == nodes[o].online
      && nodes'[o].retrying == if Concerns(ev).Some? && Concerns(ev).value.0 == o
        && o != "" then Concerns(ev).value.1 else nodes[o].retrying
  }

  lemma LinkedOnly(nodes: Nodes, ev: PacketEvent, now: int)
    requires Coherent(nodes)
    ensures Coherent(Linked(nodes, ev, now)) && OnlyLinkChanges(nodes, Linked(nodes, ev, now), ev)
  {
  }

  datatype Action =
    | Snapshot(ships: seq<ShipInfo>, rows: seq<RouteEntry>) | RoutingTable(rows: seq<RouteEntry>)
    | Position(id: string, at: Point) | Presence(id: string, online: bool) | Packet(ev: PacketEvent) | Clear

  ghost predicate FromServer(a: Action) {
    (a.Snapshot? || a.RoutingTable?) ==> forall r :: r in a.rows ==> RowCoherent(r)
  }

  function Apply(nodes: Nodes, a: Action, now: int): Nodes {
    match a
    case Snapshot(ships, rows) => Overwritten(Moved(nodes, ships, now), rows, now)
    case RoutingTable(rows) => Overwritten(nodes, rows, now)
    case Position(id, at) => Pinged(nodes, id, at, now)
    case Presence(id, online) => OnlineSet(nodes, id, online, now)
    case Packet(ev) => Linked(nodes, ev, now)
    case Clear => map[]
  }

  function Run(actions: seq<(Action, int)>): Nodes {
    if |actions| == 0 then map[]
    else Apply(Run(actions[..|actions| - 1]), actions[|actions| - 1].0, actions[|actions| - 1].1)
  }

  lemma {:induction false} OverwritingKeeps(nodes: Nodes, rows: seq<RouteEntry>, now: int)
    requires Coherent(nodes) && forall r :: r in rows ==> RowCoherent(r)
    ensures Coherent(Overwritten(nodes, rows, now))
  {
    if |rows| > 0 {
      OverwritingKeeps(nodes, rows[..|rows| - 1], now);
      assert RowCoherent(rows[|rows| - 1]);
    }
  }

  lemma {:induction false} MovingKeeps(nodes: Nodes, ships: seq<ShipInfo>, now: int)
    requires Coherent(nodes)
    ensures Coherent(Moved(nodes, ships, now))
  {
    if |ships| > 0 { MovingKeeps(nodes, ships[..|ships| - 1], now); }
  }

  /** Under server-built tables, a ship is routed iff it has a parent iff its level is at least 1, always. */
  lemma {:induction false} AlwaysCoherent(actions: seq<(Action, int)>)
    requires forall i :: 0 <= i < |actions| ==> FromServer(actions[i].0)
    ensures Coherent(Run(actions))
  {
    if |actions| > 0 {
      var before := actions[..|actions| - 1];
      assert forall i :: 0 <= i < |before| ==> before[i] == actions[i];
      AlwaysCoherent(before);
      var nodes, now := Run(before), actions[|actions| - 1].1;
      match actions[|actions| - 1].0
      case Snapshot(ships, rows) =>
        MovingKeeps(nodes, ships, now);
        OverwritingKeeps(Moved(nodes, ships, now), rows, now);
      case RoutingTable(rows) => OverwritingKeeps(nodes, rows, now);
      case Position(_, _) =>
      case Presence(_, _) =>
      case Packet(_) =>
      case Clear =>
    }
  }

  /** The rows a tick broadcasts are such rows. */
  lemma BroadcastRowsCoherent(net: Net, t: Table, rows: seq<RouteEntry>)
    requires IsTopology(net, t) && TableEvent(t, rows)
    requires (forall e :: e in net.edges ==> e.code != "") && (forall n :: n in net.nodes ==> n.id != "")
    ensures forall r :: r in rows ==> RowCoherent(r)
  {
    forall r | r in rows ensures RowCoherent(r) {
      var id :| id in t && r == RoundedRow(t[id]);
      RowShape(net, t, id);
    }
  }

  /** After a broadcast the dashboard shows every ship of the table with exactly its row, no longer retrying, where it
      was and as present as it was. */
  lemma {:induction false} RowsShown(nodes: Nodes, rows: seq<RouteEntry>, now: int, i: nat)
    requires i < |rows| && forall j, k :: 0 <= j < k < |rows| ==> rows[j].node != rows[k].node
    ensures var r := rows[i]; var m := Overwritten(nodes, rows, now);
      && r.node in m && m[r.node].parent == (if r.parent == "" then None else Some(r.parent))
      && m[r.node].parentIsEdge == r.parentIsEdge && m[r.node].distance == r.distance && m[r.node].hop == r.hop
      && m[r.node].status == r.status && !m[r.node].retrying
      && m[r.node].at == (if r.node in nodes then nodes[r.node].at else None)
      && m[r.node].online == (r.node in nodes ==> nodes[r.node].online)
  {
    if i == |rows| - 1 { Unlisted(nodes, rows[..i], now, rows[i].node); }
    if i < |rows| - 1 { RowsShown(nodes, rows[..|rows| - 1], now, i); }
  }

  lemma {:induction false} Unlisted(nodes: Nodes, rows: seq<RouteEntry>, now: int, id: string)
    requires forall r :: r in rows ==> r.node != id
    ensures id in Overwritten(nodes, rows, now) <==> id in nodes
    ensures id in nodes ==> Overwritten(nodes, rows, now)[id] == nodes[id]
  {
    if |rows| > 0 { Unlisted(nodes, rows[..|rows| - 1], now, id); }
  }

  /** Edges listed twice take their last listing; the others stay. */
  lemma {:induction false} EdgesShown(edges: map<string, Edge>, listed: seq<Edge>, code: string)
    ensures var m := WithEdges(edges, listed);
      && (forall i :: LastEdge(listed, i, code) ==> code in m && m[code] == listed[i])
      && ((forall i :: !LastEdge(listed, i, code)) ==>
            (code in m <==> code in edges) && (code in m ==> m[code] == edges[code]))
  {
    if |listed| > 0 {
      var n := |listed| - 1;
      EdgesShown(edges, listed[..n], code);
      if listed[n].code == code {
        assert LastEdge(listed, n, code);
      } else {
        forall i ensures LastEdge(listed, i, code) <==> LastEdge(listed[..n], i, code) { }
      }
    }
  }

  predicate LastEdge(listed: seq<Edge>, i: int, code: string) {
    0 <= i < |listed| && listed[i].code == code && forall j :: i < j < |listed| ==> listed[j].code != code
  }

  // Likewise when a ship is listed more than once, always with the same row.
  lemma {:induction false} ListedShown(nodes: Nodes, rows: seq<RouteEntry>, now: int, r: RouteEntry)
    requires forall x :: x in rows && x.node == r.node ==> x == r
    ensures r in rows ==>
      r.node in Overwritten(nodes, rows, now) && !RouteChanged(Overwritten(nodes, rows, now)[r.node], r)
    ensures r !in rows ==> (r.node in Overwritten(nodes, rows, now) <==> r.node in nodes)
    ensures r !in rows && r.node in nodes ==> Overwritten(nodes, rows, now)[r.node] == nodes[r.node]
  {
    if |rows| > 0 {
      var before := rows[..|rows| - 1];
      assert rows == before + [rows[|rows| - 1]];
      ListedShown(nodes, before, now, r);
    }
  }
}
