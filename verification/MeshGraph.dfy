/** The radio graph behind domain/mesh.go: what a routing table has to mean. */
module MeshGraph {
  import opened Order

  const MAX_HOPS := 5

  datatype Point = Point(lat: real, lng: real)
  datatype NodePosition = NodePosition(id: string, at: Point)
  datatype Edge = Edge(code: string, at: Point)
  datatype Status = Routed | Isolated
  datatype RouteEntry = RouteEntry(node: string, parent: string, parentIsEdge: bool,
                                   distance: real, hop: int, status: Status)
  type Table = map<string, RouteEntry>

  // One topology input: ships, edges, radio range, and any distance function.
  datatype Net = Net(nodes: seq<NodePosition>, edges: seq<Edge>, range: real, dist: (Point, Point) -> real)

  function Id(n: NodePosition): string { n.id }

  // Ship ids come from a Redis sorted set, so a listing never repeats one.
  ghost predicate DistinctIds(nodes: seq<NodePosition>) {
    forall i, j :: 0 <= i < j < |nodes| ==> nodes[i].id != nodes[j].id
  }

  ghost predicate InRange(net: Net, a: Point, b: Point) { net.dist(a, b) <= net.range }

  ghost predicate NearEdge(net: Net, n: NodePosition) {
    exists e :: e in net.edges && InRange(net, n.at, e.at)
  }

  // A chain of |p| radio links: ship to ship along p, then from the last ship to some edge.
  ghost predicate Path(net: Net, p: seq<NodePosition>) {
    && |p| > 0
    && (forall i :: 0 <= i < |p| ==> p[i] in net.nodes)
    && (forall i :: 0 <= i < |p| - 1 ==> InRange(net, p[i].at, p[i + 1].at))
    && NearEdge(net, p[|p| - 1])
  }

  ghost predicate Reaches(net: Net, n: NodePosition, k: nat) {
    exists p :: Path(net, p) && |p| == k && p[0] == n
  }

  // k is the length of a shortest path from n to any edge.
  ghost predicate HopDistance(net: Net, n: NodePosition, k: nat) {
    Reaches(net, n, k) && forall j: nat :: j < k ==> !Reaches(net, n, j)
  }

  // A candidate parent and its distance, compared by distance and then by name.
  datatype Offer = Offer(id: string, distance: real)

  predicate Closer(a: Offer, b: Offer) {
    a.distance < b.distance || (a.distance == b.distance && Less(a.id, b.id))
  }

  ghost predicate Best(offers: set<Offer>, o: Offer) {
    o in offers && forall p :: p in offers ==> !Closer(p, o)
  }

  ghost function EdgeOffers(net: Net, n: NodePosition): set<Offer> {
    set e | e in net.edges && InRange(net, n.at, e.at) :: Offer(e.code, net.dist(n.at, e.at))
  }

  ghost function ShipOffers(net: Net, n: NodePosition, level: nat): set<Offer> {
    set m | m in net.nodes && HopDistance(net, m, level) && InRange(net, n.at, m.at)
      :: Offer(m.id, net.dist(n.at, m.at))
  }

  ghost function Offers(net: Net, n: NodePosition, hop: int): set<Offer> {
    if hop <= 1 then EdgeOffers(net, n) else ShipOffers(net, n, hop - 1)
  }

  function IsolatedRow(id: string): RouteEntry { RouteEntry(id, "", false, 0.0, 0, Isolated) }

  ghost predicate RoutedRow(net: Net, n: NodePosition, row: RouteEntry) {
    && 1 <= row.hop <= MAX_HOPS && HopDistance(net, n, row.hop)
    && row.node == n.id && row.status == Routed && row.parentIsEdge == (row.hop == 1)
    && Best(Offers(net, n, row.hop), Offer(row.parent, row.distance))
  }

  ghost predicate Unreachable(net: Net, n: NodePosition) {
    forall k: nat :: k <= MAX_HOPS ==> !Reaches(net, n, k)
  }

  ghost predicate RowFor(net: Net, n: NodePosition, row: RouteEntry) {
    RoutedRow(net, n, row) || (Unreachable(net, n) && row == IsolatedRow(n.id))
  }

  // The declarative routing table: no layers, no iteration order.
  ghost predicate IsTopology(net: Net, t: Table) {
    && (forall id :: id in t ==> exists n :: n in net.nodes && n.id == id)
    && (forall n :: n in net.nodes ==> n.id in t)
    && (forall n {:trigger RowFor(net, n, t[n.id])} :: n in net.nodes ==> RowFor(net, n, t[n.id]))
  }

  lemma ReachesEdge(net: Net, n: NodePosition)
    requires n in net.nodes
    ensures !Reaches(net, n, 0)
    ensures Reaches(net, n, 1) <==> NearEdge(net, n)
  {
    if NearEdge(net, n) { assert Path(net, [n]); }
  }

  lemma ReachesVia(net: Net, n: NodePosition, k: nat)
    requires n in net.nodes && k >= 1
    ensures Reaches(net, n, k + 1) <==> exists m :: m in net.nodes && InRange(net, n.at, m.at) && Reaches(net, m, k)
  {
    if Reaches(net, n, k + 1) {
      var p: seq<NodePosition> :| Path(net, p) && |p| == k + 1 && p[0] == n;
      assert InRange(net, p[0].at, p[1].at);
      assert Path(net, p[1..]);
      assert p[1..][0] == p[1];
      assert Reaches(net, p[1], k);
    }
    if m :| m in net.nodes && InRange(net, n.at, m.at) && Reaches(net, m, k) {
      var p: seq<NodePosition> :| Path(net, p) && |p| == k && p[0] == m;
      var q := [n] + p;
      forall i | 0 <= i < |q| - 1 ensures InRange(net, q[i].at, q[i + 1].at) {
        if i > 0 { assert q[i] == p[i - 1] && q[i + 1] == p[i]; }
      }
      assert q[|q| - 1] == p[|p| - 1];
      assert Path(net, q);
    }
  }

  // A ship that is farther than k sits at distance k+1 exactly when it hears a ship at distance k.
  lemma NextLayer(net: Net, n: NodePosition, k: nat)
    requires n in net.nodes && k >= 1
    requires forall j: nat :: j <= k ==> !Reaches(net, n, j)
    ensures HopDistance(net, n, k + 1) <==> Reaches(net, n, k + 1)
    ensures HopDistance(net, n, k + 1) <==> ShipOffers(net, n, k) != {}
  {
    ReachesVia(net, n, k);
    if Reaches(net, n, k + 1) {
      var m :| m in net.nodes && InRange(net, n.at, m.at) && Reaches(net, m, k);
      forall j: nat | j < k ensures !Reaches(net, m, j) {
        if j >= 1 { ReachesVia(net, n, j); } else { ReachesEdge(net, m); }
      }
      assert Offer(m.id, net.dist(n.at, m.at)) in ShipOffers(net, n, k);
    }
    if ShipOffers(net, n, k) != {} {
      var o :| o in ShipOffers(net, n, k);
      var m :| m in net.nodes && HopDistance(net, m, k) && InRange(net, n.at, m.at)
        && o == Offer(m.id, net.dist(n.at, m.at));
      assert Reaches(net, n, k + 1);
    }
  }

  // Every shorter distance occurs too, so an empty layer ends the search.
  lemma {:induction false} NoGap(net: Net, n: NodePosition, j: nat, k: nat)
    requires n in net.nodes && HopDistance(net, n, j) && 1 <= k <= j
    ensures exists m :: m in net.nodes && HopDistance(net, m, k)
    decreases j
  {
    if k < j {
      NextLayer(net, n, j - 1);
      var o :| o in ShipOffers(net, n, j - 1);
      var m :| m in net.nodes && HopDistance(net, m, j - 1) && InRange(net, n.at, m.at)
        && o == Offer(m.id, net.dist(n.at, m.at));
      NoGap(net, m, j - 1, k);
    }
  }

  lemma {:induction false} ShortestExists(net: Net, n: NodePosition, k: nat)
    requires Reaches(net, n, k)
    ensures exists j: nat :: j <= k && HopDistance(net, n, j)
  {
    if j: nat :| j < k && Reaches(net, n, j) {
      ShortestExists(net, n, j);
    } else {
      assert HopDistance(net, n, k);
    }
  }

  lemma HopDistanceUnique(net: Net, n: NodePosition, j: nat, k: nat)
    requires HopDistance(net, n, j) && HopDistance(net, n, k)
    ensures j == k
  {
  }

  lemma BestUnique(offers: set<Offer>, a: Offer, b: Offer)
    requires Best(offers, a) && Best(offers, b)
    ensures a == b
  {
    Trichotomy(a.id, b.id);
  }

  // An empty layer k: every ship not reached below k is never reached at all.
  lemma EmptyLayerEnds(net: Net, n: NodePosition, k: nat)
    requires n in net.nodes && k >= 1
    requires forall m :: m in net.nodes ==> !HopDistance(net, m, k)
    requires forall j: nat :: j < k ==> !Reaches(net, n, j)
    ensures Unreachable(net, n) && forall j: nat :: !Reaches(net, n, j)
  {
    forall j: nat ensures !Reaches(net, n, j) {
      if Reaches(net, n, j) {
        ShortestExists(net, n, j);
        var i: nat :| i <= j && HopDistance(net, n, i);
        assert i >= k;
        NoGap(net, n, i, k);
      }
    }
  }
}
