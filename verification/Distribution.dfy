/** service/mesh_topology.go and the connect-time push: who is told which route, and when. */
module Distribution {
  import opened Order
  import opened MeshGraph
  import opened Protocol
  import Mesh

  const JITTER: real := 0.05

  datatype RoutingUpdate = RoutingUpdate(parent: string, parentIsEdge: bool, distance: real, hop: int, status: Status)

  function Abs(x: real): real { if x < 0.0 then -x else x }

  // math.Round: half away from zero.
  function Round(x: real): int { if x >= 0.0 then (x + 0.5).Floor else -((-x + 0.5).Floor) }
  function Round3(v: real): real { Round(v * 1000.0) as real / 1000.0 }

  lemma Round3Error(v: real)
    ensures Abs(Round3(v) - v) <= 0.0005
  {
    var x := v * 1000.0;
    var n := Round(x) as real;
    assert Abs(n - x) <= 0.5;
    assert Round3(v) - v == (n - x) / 1000.0;
  }

  function UpdateOf(e: RouteEntry, distance: real): RoutingUpdate {
    RoutingUpdate(e.parent, e.parentIsEdge, distance, e.hop, e.status)
  }

  predicate RouteUnchanged(prev: Table, id: string, entry: RouteEntry) {
    && id in prev && prev[id].parent == entry.parent && prev[id].status == entry.status && prev[id].hop == entry.hop
    && Abs(prev[id].distance - entry.distance) <= JITTER
  }

  // One tick sends each changed row to its ship, with the distance rounded to metres.
  function Pushes(prev: Table, next: Table): map<string, RoutingUpdate> {
    map id | id in next && !RouteUnchanged(prev, id, next[id]) :: UpdateOf(next[id], Round3(next[id].distance))
  }

  predicate Broadcasts(prev: Table, next: Table) { |Pushes(prev, next)| > 0 || |next| != |prev| }

  function RoundedRow(e: RouteEntry): RouteEntry { e.(distance := Round3(e.distance)) }

  /** A row told to monitors is the stored one but for a distance in whole metres, at most half a metre off. */
  lemma RoundedRowIs(e: RouteEntry)
    ensures RoundedRow(e) == e.(distance := RoundedRow(e).distance)
    ensures Abs(RoundedRow(e).distance - e.distance) <= 0.0005
    ensures (RoundedRow(e).distance * 1000.0).Floor as real == RoundedRow(e).distance * 1000.0
  {
    Round3Error(e.distance);
    assert RoundedRow(e).distance == Round(e.distance * 1000.0) as real / 1000.0;
  }

  // The full table as monitors get it: rounded rows by ship id.
  ghost predicate TableEvent(t: Table, rows: seq<RouteEntry>) {
    && |rows| == |t|
    && (forall id :: id in t ==> RoundedRow(t[id]) in rows)
    && (forall r :: r in rows ==> exists id :: id in t && r == RoundedRow(t[id]))
    && Sorted(rows, NodeOf)
  }

  function NodeOf(e: RouteEntry): string { e.node }

  ghost predicate Live(positions: seq<NodePosition>, online: set<string>, nodes: seq<NodePosition>) {
    DistinctIds(nodes) && forall n :: n in nodes <==> n in positions && n.id in online
  }

  class MeshTopologyService {
    var table: Table                            // routes_full hash
    var sent: map<string, RoutingUpdate>        // mesh:routing_update of the last tick, by ship
    var broadcast: Option<seq<RouteEntry>>      // monitor table of the last tick

    constructor ()
      ensures table == map[] && sent == map[] && broadcast == None
    {
      table, sent, broadcast := map[], map[], None;
    }

    // Ships without a live socket take no part in routing.
    method LiveNodes(positions: seq<NodePosition>, online: set<string>) returns (nodes: seq<NodePosition>)
      requires DistinctIds(positions)
      ensures Live(positions, online, nodes) && DistinctIds(nodes)
    {
      nodes := [];
      for i := 0 to |positions|
        invariant forall n :: n in nodes <==> n in positions[..i] && n.id in online
        invariant DistinctIds(nodes)
      {
        assert positions[..i + 1] == positions[..i] + [positions[i]];
        if positions[i].id in online {
          forall n | n in nodes ensures n.id != positions[i].id {
            var j :| 0 <= j < i && positions[..i][j] == n;
          }
          nodes := nodes + [positions[i]];
        }
      }
      assert positions[..|positions|] == positions;
    }

    method MonitorTable(t: Table) returns (rows: seq<RouteEntry>)
      ensures TableEvent(t, rows)
    {
      rows := [];
      var rest := t.Keys;
      while rest != {}
        invariant rest <= t.Keys && |rows| + |rest| == |t|
        invariant forall id :: id in t && id !in rest ==> RoundedRow(t[id]) in rows
        invariant forall r :: r in rows ==> exists id :: id in t && r == RoundedRow(t[id])
        decreases |rest|
      {
        var id :| id in rest;
        rows := rows + [RoundedRow(t[id])];
        rest := rest - {id};
      }
      Order.SameMembers(rows, NodeOf);
      SortBySorted(rows, NodeOf);
      rows := SortBy(rows, NodeOf);
    }

    /** recompute: rebuild the table, store it, push the changed rows, and re-broadcast when anything changed. */
    method Recompute(positions: seq<NodePosition>, online: set<string>, edges: seq<Edge>, maxRange: real,
        dist: (Point, Point) -> real)
      returns (ghost live: seq<NodePosition>)
      requires DistinctIds(positions)
      modifies this
      ensures Live(positions, online, live) && IsTopology(Net(live, edges, maxRange, dist), table)
      ensures sent == Pushes(old(table), table)
      ensures broadcast.Some? <==> Broadcasts(old(table), table)
      ensures broadcast.Some? ==> TableEvent(table, broadcast.value)
    {
      hide IsTopology, Pushes, TableEvent, Live, DistinctIds;
      var nodes := LiveNodes(positions, online);
      live := nodes;
      var newTable := Mesh.BuildTopology(nodes, edges, maxRange, dist);
      var oldTable := table;
      table, sent, broadcast := newTable, map[], None;
      sent := ChangedRows(oldTable, newTable);
      if |sent| > 0 || |newTable| != |oldTable| {
        var rows := MonitorTable(newTable);
        broadcast := Some(rows);
      }
    }

    method ChangedRows(oldTable: Table, newTable: Table) returns (updates: map<string, RoutingUpdate>)
      ensures updates == Pushes(oldTable, newTable)
    {
      updates := map[];
      var rest := newTable.Keys;
      while rest != {}
        invariant rest <= newTable.Keys
        invariant updates == map id | id in Pushes(oldTable, newTable) && id !in rest :: Pushes(oldTable, newTable)[id]
        decreases |rest|
      {
        var id :| id in rest;
        rest := rest - {id};
        if !RouteUnchanged(oldTable, id, newTable[id]) {
          updates := updates[id := UpdateOf(newTable[id], Round3(newTable[id].distance))];
        }
      }
    }
  }
}
