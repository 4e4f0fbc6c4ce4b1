/** domain/mesh.go: the layered search itself, and what its table guarantees. */
module Mesh {
  import opened Order
  import opened MeshGraph

  // Scans the edge list for the nearest one in range; ties go to the smaller edge code.
  method NearestEdge(net: Net, n: NodePosition) returns (found: bool, best: Offer)
    ensures found <==> NearEdge(net, n)
    ensures found ==> Best(EdgeOffers(net, n), best)
  {
    best := Offer("", 0.0);
    found := false;
    ghost var seen: set<Offer> := {};
    for i := 0 to |net.edges|
      invariant seen == set j | 0 <= j < i && InRange(net, n.at, net.edges[j].at)
                        :: Offer(net.edges[j].code, net.dist(n.at, net.edges[j].at))
      invariant found <==> seen != {}
      invariant found ==> Best(seen, best)
    {
      var e := net.edges[i];
      var d := net.dist(n.at, e.at);
      if d > net.range { continue; }
      ghost var o := Offer(e.code, d);
      CloserOrder(seen, best, o);
      seen := seen + {o};
      if !found || d < best.distance || (d == best.distance && Less(e.code, best.id)) {
        best := Offer(e.code, d);
        found := true;
      }
    }
    assert seen == EdgeOffers(net, n);
    assert seen != {} <==> NearEdge(net, n) by {
      if NearEdge(net, n) {
        var e :| e in net.edges && InRange(net, n.at, e.at);
        assert Offer(e.code, net.dist(n.at, e.at)) in EdgeOffers(net, n);
      }
    }
  }

  // The id -> position index the search keeps.
  ghost predicate Index(net: Net, pos: map<string, NodePosition>) {
    && (forall n :: n in net.nodes ==> n.id in pos && pos[n.id] == n)
    && (forall id :: id in pos ==> pos[id] in net.nodes && pos[id].id == id)
  }

  ghost predicate Layer(net: Net, pos: map<string, NodePosition>, ids: seq<string>, k: nat)
    requires Index(net, pos)
  {
    forall id :: id in ids <==> (id in pos && HopDistance(net, pos[id], k))
  }

  // What the ships listed in ids offer to n.
  ghost function Heard(net: Net, n: NodePosition, pos: map<string, NodePosition>, ids: seq<string>): set<Offer>
    requires forall j :: 0 <= j < |ids| ==> ids[j] in pos
  {
    set j | 0 <= j < |ids| && InRange(net, n.at, pos[ids[j]].at) :: Offer(ids[j], net.dist(n.at, pos[ids[j]].at))
  }

  lemma HeardNext(net: Net, n: NodePosition, pos: map<string, NodePosition>, ids: seq<string>, i: nat)
    requires i < |ids| && forall j :: 0 <= j < |ids| ==> ids[j] in pos
    ensures Heard(net, n, pos, ids[..i + 1]) == Heard(net, n, pos, ids[..i])
      + if InRange(net, n.at, pos[ids[i]].at) then {Offer(ids[i], net.dist(n.at, pos[ids[i]].at))} else {}
  {
    assert ids[..i + 1] == ids[..i] + [ids[i]];
    var a, b := Heard(net, n, pos, ids[..i]), Heard(net, n, pos, ids[..i + 1]);
    forall o | o in a ensures o in b {
      var j :| 0 <= j < i && InRange(net, n.at, pos[ids[..i][j]].at)
        && o == Offer(ids[..i][j], net.dist(n.at, pos[ids[..i][j]].at));
      assert ids[..i + 1][j] == ids[..i][j];
    }
  }

  // Scans the previous level for the nearest ship in range; ties go to the smaller id.
  method NearestParent(net: Net, n: NodePosition, prevLevel: seq<string>, pos: map<string, NodePosition>,
      ghost level: nat)
    returns (found: bool, best: Offer)
    requires Index(net, pos) && Layer(net, pos, prevLevel, level)
    ensures found <==> ShipOffers(net, n, level) != {}
    ensures found ==> Best(ShipOffers(net, n, level), best)
  {
    best := Offer("", net.range);
    found := false;
    assert forall j :: 0 <= j < |prevLevel| ==> prevLevel[j] in prevLevel;
    SameOfferSets(net, n, prevLevel, pos, level);
    assert prevLevel[..|prevLevel|] == prevLevel;
    hide HopDistance, ShipOffers, Best, Layer;
    for i := 0 to |prevLevel|
      invariant found <==> Heard(net, n, pos, prevLevel[..i]) != {}
      invariant found ==> Best(Heard(net, n, pos, prevLevel[..i]), best)
    {
      var pid := prevLevel[i];
      var d := net.dist(n.at, pos[pid].at);
      HeardNext(net, n, pos, prevLevel, i);
      hide Heard;
      if d > net.range { continue; }
      CloserOrder(Heard(net, n, pos, prevLevel[..i]), best, Offer(pid, d));
      if !found || d < best.distance || (d == best.distance && Less(pid, best.id)) {
        best := Offer(pid, d);
        found := true;
      }
    }
  }

  lemma SameOfferSets(net: Net, n: NodePosition, ids: seq<string>, pos: map<string, NodePosition>, level: nat)
    requires Index(net, pos) && Layer(net, pos, ids, level)
    ensures forall j :: 0 <= j < |ids| ==> ids[j] in ids
    ensures Heard(net, n, pos, ids) == ShipOffers(net, n, level)
  {
    hide HopDistance;
    assert forall j :: 0 <= j < |ids| ==> ids[j] in ids;
    var seen := Heard(net, n, pos, ids);
    forall o | o in ShipOffers(net, n, level) ensures o in seen {
      var m :| m in net.nodes && HopDistance(net, m, level) && InRange(net, n.at, m.at)
        && o == Offer(m.id, net.dist(n.at, m.at));
      assert m.id in ids;
      var j :| 0 <= j < |ids| && ids[j] == m.id;
    }
    forall o | o in seen ensures o in ShipOffers(net, n, level) {
      var j :| 0 <= j < |ids| && InRange(net, n.at, pos[ids[j]].at)
        && o == Offer(ids[j], net.dist(n.at, pos[ids[j]].at));
      assert pos[ids[j]] in net.nodes;
    }
  }

  // What one comparison of the scan needs of the order on offers.
  lemma CloserOrder(seen: set<Offer>, best: Offer, o: Offer)
    ensures Best(seen, best) && Closer(o, best) ==> Best(seen + {o}, o)
    ensures Best(seen, best) && !Closer(o, best) ==> Best(seen + {o}, best)
    ensures seen == {} ==> Best(seen + {o}, o)
  {
    Trichotomy(o.id, o.id);
    if Best(seen, best) && Closer(o, best) {
      forall p | p in seen ensures !Closer(p, o) {
        if Closer(p, o) && p.distance == o.distance == best.distance {
          Transitive(p.id, o.id, best.id);
        }
      }
    }
  }

  // A ship is done at level k when it holds its final row, or is known to be farther than k.
  ghost predicate Done(net: Net, n: NodePosition, routes: Table, k: nat) {
    if n.id in routes then RoutedRow(net, n, routes[n.id]) && routes[n.id].hop <= k
    else forall j: nat :: j <= k ==> !Reaches(net, n, j)
  }

  ghost predicate LayersDone(net: Net, pos: map<string, NodePosition>, routes: Table, unrouted: set<string>, k: nat)
    requires Index(net, pos)
  {
    && routes.Keys <= pos.Keys && unrouted == pos.Keys - routes.Keys
    && forall id :: id in pos ==> Done(net, pos[id], routes, k)
  }

  // One ship against the edges.
  method AttachToEdge(net: Net, n: NodePosition) returns (found: bool, row: RouteEntry)
    requires n in net.nodes
    ensures found <==> HopDistance(net, n, 1)
    ensures if found then RoutedRow(net, n, row) && row.hop == 1
            else forall j: nat :: j <= 1 ==> !Reaches(net, n, j)
  {
    var best;
    found, best := NearestEdge(net, n);
    ReachesEdge(net, n);
    row := RouteEntry(n.id, best.id, true, best.distance, 1, Routed);
  }

  method FirstLayer(net: Net, sorted: seq<NodePosition>, ghost pos: map<string, NodePosition>)
    returns (routes: Table, unrouted: set<string>, prevLevel: seq<string>)
    requires Index(net, pos) && pos.Values == set n | n in sorted
    ensures LayersDone(net, pos, routes, unrouted, 1) && Layer(net, pos, prevLevel, 1)
  {
    hide Reaches, HopDistance, RoutedRow;
    routes, prevLevel := map[], [];
    unrouted := set n | n in sorted :: n.id;
    ghost var visited: set<string> := {};
    IndexKeys(net, pos, sorted);
    for i := 0 to |sorted|
      invariant visited == set j | 0 <= j < i :: sorted[j].id
      invariant routes.Keys <= visited <= pos.Keys && unrouted == pos.Keys - routes.Keys
      invariant forall id :: id in visited ==> Done(net, pos[id], routes, 1)
      invariant forall id :: id in prevLevel <==> id in visited && HopDistance(net, pos[id], 1)
    {
      var n := sorted[i];
      assert n in pos.Values && pos[n.id] == n;
      ghost var before := routes;
      var found, row := AttachToEdge(net, n);
      visited := visited + {n.id};
      if found {
        routes := routes[n.id := row];
        unrouted := unrouted - {n.id};
        prevLevel := prevLevel + [n.id];
      }
      forall id | id in visited && id != n.id ensures Done(net, pos[id], routes, 1) {
        assert Done(net, pos[id], before, 1);
      }
    }
    assert visited == pos.Keys;
  }

  lemma IndexKeys(net: Net, pos: map<string, NodePosition>, sorted: seq<NodePosition>)
    requires Index(net, pos) && pos.Values == set n | n in sorted
    ensures pos.Keys == set n | n in sorted :: n.id
    ensures pos.Keys == set j | 0 <= j < |sorted| :: sorted[j].id
  {
    forall id | id in pos ensures pos[id] in pos.Values && exists j :: 0 <= j < |sorted| && sorted[j] == pos[id] { }
    forall n | n in sorted ensures n.id in pos { assert n in pos.Values; }
  }

  // One still unrouted ship against the previous level.
  method Attach(net: Net, n: NodePosition, prevLevel: seq<string>, pos: map<string, NodePosition>, level: nat)
    returns (found: bool, row: RouteEntry)
    requires n in net.nodes && 2 <= level <= MAX_HOPS
    requires Index(net, pos) && Layer(net, pos, prevLevel, level - 1)
    requires forall j: nat :: j <= level - 1 ==> !Reaches(net, n, j)
    ensures found <==> HopDistance(net, n, level)
    ensures if found then RoutedRow(net, n, row) && row.hop == level
            else forall j: nat :: j <= level ==> !Reaches(net, n, j)
  {
    var best;
    found, best := NearestParent(net, n, prevLevel, pos, level - 1);
    NextLayer(net, n, level - 1);
    row := RouteEntry(n.id, best.id, false, best.distance, level, Routed);
  }

  // Before level k + 1 a ship is either finally routed, or unrouted and known to be farther than k.
  lemma DoneOrFarther(net: Net, pos: map<string, NodePosition>, routes: Table, unrouted: set<string>, k: nat,
      id: string)
    requires Index(net, pos) && LayersDone(net, pos, routes, unrouted, k) && id in pos
    ensures if id in unrouted then id !in routes && forall j: nat :: j <= k ==> !Reaches(net, pos[id], j)
            else id in routes && !HopDistance(net, pos[id], k + 1)
  {
    assert Done(net, pos[id], routes, k);
  }

  lemma LevelDone(net: Net, pos: map<string, NodePosition>, routes0: Table, unrouted0: set<string>, routes: Table,
      curr: set<string>, k: nat)
    requires Index(net, pos) && LayersDone(net, pos, routes0, unrouted0, k)
    requires routes.Keys == routes0.Keys + curr && forall id :: id in routes0 ==> routes[id] == routes0[id]
    requires forall id :: id in curr <==> id in pos && HopDistance(net, pos[id], k + 1)
    requires forall id :: id in curr ==>
      id !in routes0 && RoutedRow(net, pos[id], routes[id]) && routes[id].hop == k + 1
    ensures LayersDone(net, pos, routes, unrouted0 - curr, k + 1)
  {
    hide Reaches, RoutedRow;
    forall id | id in pos ensures Done(net, pos[id], routes, k + 1) {
      assert Done(net, pos[id], routes0, k);
      if id !in routes { StillFar(net, pos[id], k); }
    }
  }

  lemma StillFar(net: Net, n: NodePosition, k: nat)
    requires !HopDistance(net, n, k + 1) && forall j: nat :: j <= k ==> !Reaches(net, n, j)
    ensures forall j: nat :: j <= k + 1 ==> !Reaches(net, n, j)
  {
  }

  method NextLevel(net: Net, sorted: seq<NodePosition>, pos: map<string, NodePosition>,
                   routes0: Table, unrouted0: set<string>, prevLevel: seq<string>, level: nat)
    returns (routes: Table, unrouted: set<string>, currLevel: seq<string>)
    requires 2 <= level <= MAX_HOPS
    requires Index(net, pos) && pos.Values == set n | n in sorted
    requires LayersDone(net, pos, routes0, unrouted0, level - 1) && Layer(net, pos, prevLevel, level - 1)
    ensures LayersDone(net, pos, routes, unrouted, level) && Layer(net, pos, currLevel, level)
    ensures routes0.Keys <= routes.Keys && forall id :: id in routes0 ==> routes[id] == routes0[id]
  {
    hide Reaches, HopDistance, RoutedRow, LayersDone;
    routes, currLevel := routes0, [];
    ghost var visited: set<string> := {};
    IndexKeys(net, pos, sorted);
    for i := 0 to |sorted|
      invariant visited == set j | 0 <= j < i :: sorted[j].id
      invariant visited <= pos.Keys
      invariant routes.Keys == routes0.Keys + set id | id in currLevel
      invariant forall id :: id in routes0 ==> routes[id] == routes0[id]
      invariant forall id :: id in currLevel <==> id in visited && HopDistance(net, pos[id], level)
      invariant forall id :: id in currLevel ==>
        id !in routes0 && RoutedRow(net, pos[id], routes[id]) && routes[id].hop == level
    {
      var n := sorted[i];
      assert n in pos.Values && pos[n.id] == n;
      DoneOrFarther(net, pos, routes0, unrouted0, level - 1, n.id);
      visited := visited + {n.id};
      if n.id in unrouted0 {
        var found, row := Attach(net, n, prevLevel, pos, level);
        if found {
          routes := routes[n.id := row];
          currLevel := currLevel + [n.id];
        }
      }
    }
    ghost var curr := set id | id in currLevel;
    unrouted := unrouted0 - set id | id in currLevel;
    LevelDone(net, pos, routes0, unrouted0, routes, curr, level - 1);
  }

  /** BuildTopology: breadth-first layers from the edges outward, at most MAX_HOPS of them. */
  method BuildTopology(nodes: seq<NodePosition>, edges: seq<Edge>, maxRangeKm: real, dist: (Point, Point) -> real)
    returns (routes: Table)
    requires DistinctIds(nodes)
    ensures IsTopology(Net(nodes, edges, maxRangeKm, dist), routes)
  {
    hide DistinctIds, Index, LayersDone, Layer, IsTopology, SortBy, IsolatedRow;
    var net := Net(nodes, edges, maxRangeKm, dist);
    routes := map[];
    if |nodes| == 0 {
      EmptyFleet(net);
      return;
    }
    var sorted := SortBy(nodes, Id);
    SameMembers(nodes, Id);
    var positions := Positions(net, sorted);

    var unrouted, prevLevel;
    routes, unrouted, prevLevel := FirstLayer(net, sorted, positions);
    var level := 2;
    while level <= MAX_HOPS && |unrouted| > 0 && |prevLevel| > 0
      invariant 2 <= level <= MAX_HOPS + 1
      invariant LayersDone(net, positions, routes, unrouted, level - 1) && Layer(net, positions, prevLevel, level - 1)
      decreases MAX_HOPS - level
    {
      routes, unrouted, prevLevel := NextLevel(net, sorted, positions, routes, unrouted, prevLevel, level);
      level := level + 1;
    }
    SearchEnds(net, positions, routes, unrouted, prevLevel, level);
    routes := routes + map id | id in unrouted :: IsolatedRow(id);
  }

  // Whatever ended the level loop, the rows so far plus isolation for the rest form the table.
  lemma SearchEnds(net: Net, pos: map<string, NodePosition>, routes: Table, unrouted: set<string>,
      prevLevel: seq<string>, level: nat)
    requires Index(net, pos) && 2 <= level <= MAX_HOPS + 1
    requires LayersDone(net, pos, routes, unrouted, level - 1) && Layer(net, pos, prevLevel, level - 1)
    requires level <= MAX_HOPS ==> unrouted == {} || |prevLevel| == 0
    ensures IsTopology(net, routes + map id | id in unrouted :: IsolatedRow(id))
  {
    hide Reaches, HopDistance, RoutedRow, Unreachable;
    var t := routes + map id | id in unrouted :: IsolatedRow(id);
    forall n | n in net.nodes ensures n.id in t && RowFor(net, n, t[n.id]) {
      assert Done(net, pos[n.id], routes, level - 1);
      if n.id in unrouted {
        if level <= MAX_HOPS {
          assert forall m :: m in net.nodes && HopDistance(net, m, level - 1) ==> m.id in prevLevel;
          EmptyLayerEnds(net, n, level - 1);
        } else {
          AllLevelsSearched(net, n);
        }
      }
    }
    forall id | id in t ensures exists n :: n in net.nodes && n.id == id {
      assert id in pos && pos[id] in net.nodes && pos[id].id == id;
    }
  }

  lemma AllLevelsSearched(net: Net, n: NodePosition)
    requires forall j: nat :: j <= MAX_HOPS ==> !Reaches(net, n, j)
    ensures Unreachable(net, n)
  {
  }

  lemma EmptyFleet(net: Net)
    requires net.nodes == []
    ensures IsTopology(net, map[])
  {
  }

  method Positions(net: Net, sorted: seq<NodePosition>) returns (pos: map<string, NodePosition>)
    requires DistinctIds(net.nodes) && forall n :: n in sorted <==> n in net.nodes
    ensures Index(net, pos) && pos.Values == set n | n in sorted
  {
    pos := map[];
    for i := 0 to |sorted|
      invariant forall j :: 0 <= j < i ==> sorted[j].id in pos
      invariant forall id :: id in pos ==> pos[id] in net.nodes && pos[id].id == id
    {
      pos := pos[sorted[i].id := sorted[i]];
    }
    forall n | n in net.nodes ensures n.id in pos && pos[n.id] == n {
      assert n in sorted;
      SameId(net, n, pos[n.id]);
    }
    forall n | n in sorted ensures n in pos.Values { assert pos[n.id] == n; }
  }

  lemma SameId(net: Net, a: NodePosition, b: NodePosition)
    requires DistinctIds(net.nodes) && a in net.nodes && b in net.nodes && a.id == b.id
    ensures a == b
  {
    var i :| 0 <= i < |net.nodes| && net.nodes[i] == a;
    var j :| 0 <= j < |net.nodes| && net.nodes[j] == b;
    assert i == j;
  }
}
