/** What every routing table that BuildTopology can return guarantees. */
module MeshTheorems {
  import opened Order
  import opened MeshGraph

  // Hop level k is exactly shortest-path length k; isolation is exactly "no path of at most five links".
  lemma HopLevelIsShortestPath(net: Net, t: Table, n: NodePosition)
    requires IsTopology(net, t) && n in net.nodes
    ensures forall k: nat :: 1 <= k <= 5 ==> (t[n.id].hop == k <==> HopDistance(net, n, k))
    ensures t[n.id].status == Isolated <==> forall p :: Path(net, p) && p[0] == n ==> |p| > 5
    ensures t[n.id].status == Isolated ==> t[n.id] == IsolatedRow(n.id)
  {
    var row := t[n.id];
    assert RowFor(net, n, row);
    forall k: nat | 1 <= k <= MAX_HOPS ensures row.hop == k <==> HopDistance(net, n, k) {
      if HopDistance(net, n, k) && row.status == Routed { HopDistanceUnique(net, n, k, row.hop); }
    }
    if row.status == Isolated {
      forall p | Path(net, p) && p[0] == n ensures |p| > MAX_HOPS {
        assert Reaches(net, n, |p|);
      }
    } else {
      var p :| Path(net, p) && |p| == row.hop && p[0] == n;
    }
  }

  // The coupling the incremental route push relies on, and what the dashboard sees of a row.
  lemma RowShape(net: Net, t: Table, id: string)
    requires IsTopology(net, t) && id in t
    requires forall e :: e in net.edges ==> e.code != ""
    requires forall n :: n in net.nodes ==> n.id != ""
    ensures t[id].node == id
    ensures t[id].parentIsEdge <==> t[id].hop == 1
    ensures (t[id].status == Routed <==> t[id].hop >= 1) && (t[id].status == Routed <==> t[id].parent != "")
    ensures 0 <= t[id].hop <= MAX_HOPS
  {
    var n :| n in net.nodes && n.id == id;
    hide HopDistance;
    assert RowFor(net, n, t[id]);
  }

  ghost predicate SameMembers<T(!new)>(a: seq<T>, b: seq<T>) { forall x :: x in a <==> x in b }

  // Two inputs that list the same ships and edges, in any order and multiplicity, have one table.
  lemma TableUnique(net: Net, net': Net, t: Table, t': Table)
    requires SameMembers(net.nodes, net'.nodes) && SameMembers(net.edges, net'.edges)
    requires net.range == net'.range && net.dist == net'.dist
    requires IsTopology(net, t) && IsTopology(net', t')
    ensures t == t'
  {
    hide RowFor;
    forall id | id in t || id in t' ensures id in t && id in t' { }
    forall id | id in t ensures t[id] == t'[id] {
      var n :| n in net.nodes && n.id == id;
      assert RowFor(net, n, t[n.id]) && RowFor(net', n, t'[n.id]);
      SameRow(net, net', n, t[id], t'[id]);
    }
  }

  lemma SameRow(net: Net, net': Net, n: NodePosition, a: RouteEntry, b: RouteEntry)
    requires SameMembers(net.nodes, net'.nodes) && SameMembers(net.edges, net'.edges)
    requires net.range == net'.range && net.dist == net'.dist
    requires n in net.nodes && RowFor(net, n, a) && RowFor(net', n, b)
    ensures a == b
  {
    SameDistances(net, net');
    if a.status == Routed && b.status == Routed {
      HopDistanceUnique(net, n, a.hop, b.hop);
      SameOffers(net, net', n, a.hop);
      BestUnique(Offers(net, n, a.hop), Offer(a.parent, a.distance), Offer(b.parent, b.distance));
    }
  }

  lemma SameDistances(net: Net, net': Net)
    requires SameMembers(net.nodes, net'.nodes) && SameMembers(net.edges, net'.edges)
    requires net.range == net'.range && net.dist == net'.dist
    ensures forall n, k: nat :: Reaches(net, n, k) <==> Reaches(net', n, k)
    ensures forall n, k: nat :: HopDistance(net, n, k) <==> HopDistance(net', n, k)
  {
    forall p ensures Path(net, p) <==> Path(net', p) { }
    assert forall n, k: nat :: Reaches(net, n, k) <==> Reaches(net', n, k);
  }

  lemma SameOffers(net: Net, net': Net, n: NodePosition, hop: nat)
    requires SameMembers(net.nodes, net'.nodes) && SameMembers(net.edges, net'.edges)
    requires net.range == net'.range && net.dist == net'.dist
    requires hop >= 1
    ensures Offers(net, n, hop) == Offers(net', n, hop)
  {
    SameDistances(net, net');
    hide Reaches, HopDistance;
    if hop == 1 {
      assert EdgeOffers(net, n) == EdgeOffers(net', n);
    } else {
      assert ShipOffers(net, n, hop - 1) == ShipOffers(net', n, hop - 1);
    }
  }

  // net' has at least the ships, edges and range of net.
  ghost predicate Grows(net: Net, net': Net) {
    && (forall n :: n in net.nodes ==> n in net'.nodes) && (forall e :: e in net.edges ==> e in net'.edges)
    && net.range <= net'.range && net.dist == net'.dist
  }

  // More range, edges or ships never isolate a routed ship and never raise its level;
  // read from net' to net, losing them never lowers one.
  lemma GrowthNeverRaises(net: Net, net': Net, t: Table, t': Table, n: NodePosition)
    requires Grows(net, net') && IsTopology(net, t) && IsTopology(net', t') && n in net.nodes
    ensures t[n.id].status == Routed ==> t'[n.id].status == Routed && t'[n.id].hop <= t[n.id].hop
    ensures t'[n.id].status == Isolated ==> t[n.id].status == Isolated
  {
    assert n.id in t && n.id in t';
    hide IsTopology, Path;
    if t[n.id].status == Routed {
      var p := WitnessPath(net, t, n);
      PathGrows(net, net', p);
      NoLongerThan(net', t', n, p);
    }
  }

  lemma PathGrows(net: Net, net': Net, p: seq<NodePosition>)
    requires Grows(net, net') && Path(net, p)
    ensures Path(net', p)
  {
    assert NearEdge(net', p[|p| - 1]);
  }

  lemma WitnessPath(net: Net, t: Table, n: NodePosition) returns (p: seq<NodePosition>)
    requires IsTopology(net, t) && n in net.nodes && t[n.id].status == Routed
    ensures Path(net, p) && p[0] == n && |p| == t[n.id].hop <= MAX_HOPS
  {
    assert RowFor(net, n, t[n.id]);
    p :| Path(net, p) && |p| == t[n.id].hop && p[0] == n;
  }

  lemma NoLongerThan(net: Net, t: Table, n: NodePosition, p: seq<NodePosition>)
    requires IsTopology(net, t) && n in net.nodes
    requires Path(net, p) && p[0] == n && |p| <= MAX_HOPS
    ensures t[n.id].status == Routed && t[n.id].hop <= |p|
  {
    assert RowFor(net, n, t[n.id]);
    assert Reaches(net, n, |p|);
  }

  // The ships a routed frame passes: id, its parent, the parent's parent, ... down to level 1.
  function ParentChain(t: Table, id: string): (c: seq<string>)
    requires id in t
    ensures |c| > 0 && c[0] == id && forall i :: 0 <= i < |c| ==> c[i] in t
    decreases if t[id].hop > 0 then t[id].hop else 0
  {
    if t[id].hop <= 1 || t[id].parent !in t || t[t[id].parent].hop >= t[id].hop then [id]
    else [id] + ParentChain(t, t[id].parent)
  }

  // The edge those parents lead to.
  function FinalEdge(t: Table, id: string): string
    requires id in t
  {
    var c := ParentChain(t, id);
    t[c[|c| - 1]].parent
  }

  ghost predicate Link(net: Net, a: string, b: string) {
    exists m, n :: m in net.nodes && n in net.nodes && m.id == a && n.id == b && InRange(net, m.at, n.at)
  }

  // c is a chain of in-range links from id to an edge, one hop level down at a time.
  ghost predicate Descends(net: Net, t: Table, id: string, c: seq<string>) {
    && id in t && |c| == t[id].hop && |c| > 0 && c[0] == id
    && (forall i :: 0 <= i < |c| ==> c[i] in t && t[c[i]].hop == |c| - i && t[c[i]].status == Routed)
    && (forall i :: 0 <= i < |c| - 1 ==> t[c[i]].parent == c[i + 1] && Link(net, c[i], c[i + 1]))
    && EdgeLink(net, c[|c| - 1], t[c[|c| - 1]].parent) && t[c[|c| - 1]].parentIsEdge
  }

  ghost predicate EdgeLink(net: Net, a: string, code: string) {
    exists n, e :: n in net.nodes && e in net.edges && n.id == a && e.code == code && InRange(net, n.at, e.at)
  }

  // Parent pointers from level k form exactly k in-range links ending at an edge: no cycles.
  lemma {:induction false} ParentChainDescends(net: Net, t: Table, id: string)
    requires IsTopology(net, t) && id in t && t[id].status == Routed
    ensures Descends(net, t, id, ParentChain(t, id))
    decreases t[id].hop
  {
    hide IsTopology, Descends, Link, EdgeLink;
    var n := Member(net, t, id);
    if t[id].hop <= 1 {
      EdgeRow(net, t, n);
    } else {
      var m := ParentRow(net, t, n);
      ParentChainDescends(net, t, m.id);
      ExtendChain(net, t, id, m.id, ParentChain(t, m.id));
    }
  }

  lemma ExtendChain(net: Net, t: Table, id: string, m: string, c': seq<string>)
    requires Descends(net, t, m, c') && id in t && t[id].hop == t[m].hop + 1
    requires t[id].status == Routed && t[id].parent == m && Link(net, id, m)
    ensures Descends(net, t, id, [id] + c')
  {
    var c := [id] + c';
    assert c[|c| - 1] == c'[|c'| - 1];
    hide Link, EdgeLink;
    forall i | 0 <= i < |c| - 1 ensures t[c[i]].parent == c[i + 1] && Link(net, c[i], c[i + 1]) {
      if i > 0 { assert c[i] == c'[i - 1] && c[i + 1] == c'[i]; }
    }
  }

  lemma Member(net: Net, t: Table, id: string) returns (n: NodePosition)
    requires IsTopology(net, t) && id in t
    ensures n in net.nodes && n.id == id
  {
    n :| n in net.nodes && n.id == id;
  }

  lemma EdgeRow(net: Net, t: Table, n: NodePosition)
    requires IsTopology(net, t) && n in net.nodes && t[n.id].status == Routed && t[n.id].hop <= 1
    ensures Descends(net, t, n.id, [n.id])
  {
    var row := t[n.id];
    assert RowFor(net, n, t[n.id]);
    var o := Offer(row.parent, row.distance);
    assert o in EdgeOffers(net, n);
    var e :| e in net.edges && InRange(net, n.at, e.at) && o == Offer(e.code, net.dist(n.at, e.at));
  }

  lemma ParentRow(net: Net, t: Table, n: NodePosition) returns (m: NodePosition)
    requires IsTopology(net, t) && n in net.nodes && t[n.id].hop >= 2
    ensures m in net.nodes && m.id == t[n.id].parent && m.id in t
    ensures t[m.id].hop == t[n.id].hop - 1 && t[m.id].status == Routed && Link(net, n.id, m.id)
  {
    var row := t[n.id];
    assert RowFor(net, n, t[n.id]);
    var o := Offer(row.parent, row.distance);
    assert o in ShipOffers(net, n, row.hop - 1);
    m :| m in net.nodes && HopDistance(net, m, row.hop - 1) && InRange(net, n.at, m.at)
      && o == Offer(m.id, net.dist(n.at, m.at));
    HopLevelIsShortestPath(net, t, m);
  }

  // a is the candidate chosen over b: nearer, or as near and first by name.
  ghost predicate Chosen(a: string, da: real, b: string, db: real) {
    da < db || (da == db && (a == b || exists k: nat :: SplitsAt(a, b, k)))
  }

  lemma BestChosen(offers: set<Offer>, a: Offer, b: Offer)
    requires Best(offers, a) && b in offers
    ensures Chosen(a.id, a.distance, b.id, b.distance)
  {
    hide Less;
    Trichotomy(a.id, b.id);
    LessIs(a.id, b.id);
  }

  /** A ship that hears an edge takes as its parent, at level 1, the nearest edge, ties going to the first code. */
  lemma NearestEdgeWins(net: Net, t: Table, n: NodePosition, e: Edge)
    requires IsTopology(net, t) && n in net.nodes && e in net.edges && net.dist(n.at, e.at) <= net.range
    ensures n.id in t && t[n.id].hop == 1 && t[n.id].status == Routed
    ensures Chosen(t[n.id].parent, t[n.id].distance, e.code, net.dist(n.at, e.at))
  {
    hide Reaches, Chosen, Best, Less;
    assert InRange(net, n.at, e.at);
    ReachesEdge(net, n);
    forall j: nat | j < 1 ensures !Reaches(net, n, j) { }
    assert HopDistance(net, n, 1);
    HopLevelIsShortestPath(net, t, n);
    assert RowFor(net, n, t[n.id]);
    BestChosen(Offers(net, n, 1), Offer(t[n.id].parent, t[n.id].distance), Offer(e.code, net.dist(n.at, e.at)));
  }

  /** A ship further out takes the nearest of the ships it hears one level closer in, ties going to the first id. */
  lemma NearestShipWins(net: Net, t: Table, n: NodePosition, m: NodePosition)
    requires IsTopology(net, t) && n in net.nodes && m in net.nodes && t[n.id].hop == t[m.id].hop + 1 >= 2
    requires net.dist(n.at, m.at) <= net.range
    ensures Chosen(t[n.id].parent, t[n.id].distance, m.id, net.dist(n.at, m.at))
  {
    hide Reaches, Chosen, Best, Less;
    HopLevelIsShortestPath(net, t, n);
    HopLevelIsShortestPath(net, t, m);
    assert RowFor(net, n, t[n.id]) && RowFor(net, m, t[m.id]);
    assert InRange(net, n.at, m.at);
    var o := Offer(m.id, net.dist(n.at, m.at));
    assert o in ShipOffers(net, n, t[m.id].hop);
    BestChosen(Offers(net, n, t[n.id].hop), Offer(t[n.id].parent, t[n.id].distance), o);
  }

  // ---- A line of ships, each hearing only its neighbours -------------------------------------------

  function Named(k: nat): string { seq(k, _ => 'A') }
  function ShipAt(k: nat): NodePosition { NodePosition(Named(k), Point(k as real, 0.0)) }
  function AlongLine(): (Point, Point) -> real {
    (a: Point, b: Point) => if a.lat < b.lat then b.lat - a.lat else a.lat - b.lat
  }

  // The edge E at 0 and ships at 1, 2, ..., n, with range 1.
  function Line(n: nat): Net {
    Net(seq(n, i requires 0 <= i < n => ShipAt(i + 1)), [Edge("E", Point(0.0, 0.0))], 1.0, AlongLine())
  }

  lemma OnLine(n: nat, m: NodePosition)
    ensures m in Line(n).nodes <==> exists k: nat :: 1 <= k <= n && m == ShipAt(k)
  {
    var nodes := Line(n).nodes;
    if m in nodes {
      var i :| 0 <= i < |nodes| && nodes[i] == m;
      assert m == ShipAt(i + 1);
    }
    if k: nat :| 1 <= k <= n && m == ShipAt(k) { assert nodes[k - 1] == ShipAt(k); }
  }

  lemma {:induction false} LineDistance(n: nat, k: nat, j: nat)
    requires 1 <= k <= n
    ensures j < k ==> !Reaches(Line(n), ShipAt(k), j)
    ensures j == k ==> Reaches(Line(n), ShipAt(k), j)
    decreases j
  {
    var net := Line(n);
    OnLine(n, ShipAt(k));
    ReachesEdge(net, ShipAt(k));
    if j == 1 {
      if k == 1 { assert net.edges[0] in net.edges && InRange(net, ShipAt(1).at, net.edges[0].at); }
    } else if j > 1 {
      hide Reaches;
      ReachesVia(net, ShipAt(k), j - 1);
      if j < k {
        forall m | m in net.nodes && InRange(net, ShipAt(k).at, m.at) ensures !Reaches(net, m, j - 1) {
          OnLine(n, m);
          var i: nat :| 1 <= i <= n && m == ShipAt(i);
          LineDistance(n, i, j - 1);
        }
      } else if j == k {
        OnLine(n, ShipAt(k - 1));
        LineDistance(n, k - 1, j - 1);
      }
    }
  }

  lemma LineHops(n: nat, k: nat)
    requires 1 <= k <= n
    ensures HopDistance(Line(n), ShipAt(k), k)
  {
    hide Reaches, Line;
    LineDistance(n, k, k);
    forall j: nat | j < k ensures !Reaches(Line(n), ShipAt(k), j) { LineDistance(n, k, j); }
  }

  lemma LineParent(n: nat, k: nat, o: Offer)
    requires 1 <= k <= n && Best(Offers(Line(n), ShipAt(k), k), o)
    ensures o == Offer(if k == 1 then "E" else Named(k - 1), 1.0)
  {
    var net := Line(n);
    if k > 1 {
      hide HopDistance;
      var m :| m in net.nodes && HopDistance(net, m, k - 1) && InRange(net, ShipAt(k).at, m.at)
        && o == Offer(m.id, net.dist(ShipAt(k).at, m.at));
      OnLine(n, m);
      var i: nat :| 1 <= i <= n && m == ShipAt(i);
      LineHops(n, i);
      HopDistanceUnique(net, m, i, k - 1);
    }
  }

  /** On a line the first five ships are routed, each by its neighbour towards the edge, and all others are isolated. */
  lemma FiveHopsOnALine(n: nat, t: Table, k: nat)
    requires IsTopology(Line(n), t) && 1 <= k <= n
    ensures Named(k) in t
    ensures k <= 5 ==>
      t[Named(k)] == RouteEntry(Named(k), if k == 1 then "E" else Named(k - 1), k == 1, 1.0, k, Routed)
    ensures k >= 6 ==> t[Named(k)] == RouteEntry(Named(k), "", false, 0.0, 0, Isolated)
  {
    var net, ship := Line(n), ShipAt(k);
    OnLine(n, ship);
    LineHops(n, k);
    hide Line, Reaches, Best, Offers;
    HopLevelIsShortestPath(net, t, ship);
    assert RowFor(net, ship, t[ship.id]);
    if k <= 5 {
      LineParent(n, k, Offer(t[ship.id].parent, t[ship.id].distance));
    }
  }
}
