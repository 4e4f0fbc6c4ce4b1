/** Over any run of connects, reconnects, closes, pings and ticks, ships and monitors agree with the stored table. */
module DistributionTheorems {
  import opened Order
  import opened MeshGraph
  import opened Protocol
  import opened Distribution
  import opened Hub
  import HubRuns = Hub

  const SESSION := "session"

  // What a socket's ship last received, and how many ticks have sent it nothing since.
  datatype Held = Held(update: RoutingUpdate, quiet: nat)
  datatype State = State(registry: Registry<Conn>, positions: map<string, Point>, table: Table,
                         held: map<Conn, Held>, view: Option<Table>)

  const START := State(map[], map[], map[], map[], None)

  // A tick carries the table it computed; Watch is a monitor connecting.
  datatype Step = Connect(c: Conn) | Close(c: Conn) | Ping(node: string, at: Point) | Watch
                | Tick(live: seq<NodePosition>, edges: seq<Edge>, range: real, table: Table)

  function Online(r: Registry<Conn>, node: string): Option<Conn> { Lookup(r, SESSION, node) }

  ghost predicate Enabled(s: State, step: Step, dist: (Point, Point) -> real) {
    match step
    case Connect(c) => c.session == SESSION
    case Tick(live, edges, range, table) =>
      && DistinctIds(live) && IsTopology(Net(live, edges, range, dist), table)
      && forall n :: n in live <==> n.id in s.positions && s.positions[n.id] == n.at && Online(s.registry, n.id) != None
    case _ => true
  }

  // NodeConnected: a stored row is pushed as it is, unrounded.
  function OnConnect(s: State, c: Conn): State {
    s.(registry := Register(s.registry, c.session, c.node, c),
       held := if c.node in s.table then s.held[c := Held(UpdateOf(s.table[c.node], s.table[c.node].distance), 0)]
         else s.held - {c})
  }

  // The close callback: only the registered socket takes the ship's position with it.
  function OnClose(s: State, c: Conn): State {
    if Lookup(s.registry, c.session, c.node) == Some(c)
    then s.(registry := Unregister(s.registry, c.session, c.node, c), positions := s.positions - {c.node})
    else s
  }

  function OnTick(s: State, table: Table): State {
    var pushes := Pushes(s.table, table);
    s.(table := table,
       held := map c | c in s.held.Keys + Addressees(s, pushes.Keys) ::
         if c.node in pushes && Online(s.registry, c.node) == Some(c) then Held(pushes[c.node], 0)
         else s.held[c].(quiet := s.held[c].quiet + 1),
       view := if s.view.Some? && Broadcasts(s.table, table) then Some(table) else s.view)
  }

  function Addressees(s: State, ids: set<string>): set<Conn> {
    set id | id in ids && Online(s.registry, id).Some? && Online(s.registry, id).value.node == id ::
      Online(s.registry, id).value
  }

  ghost function Next(s: State, step: Step, dist: (Point, Point) -> real): State {
    if !Enabled(s, step, dist) then s
    else match step
      case Connect(c) => OnConnect(s, c)
      case Close(c) => OnClose(s, c)
      case Ping(node, at) => s.(positions := s.positions[node := at])
      case Watch => s.(view := Some(s.table))
      case Tick(_, _, _, table) => OnTick(s, table)
  }

  ghost function Run(steps: seq<Step>, dist: (Point, Point) -> real): State {
    if |steps| == 0 then START else Next(Run(steps[..|steps| - 1], dist), steps[|steps| - 1], dist)
  }

  // ---- Invariants ------------------------------------------------------------------------------

  ghost predicate Matches(u: RoutingUpdate, e: RouteEntry) {
    u.parent == e.parent && u.parentIsEdge == e.parentIsEdge && u.hop == e.hop && u.status == e.status
  }

  ghost predicate InSync(s: State, id: string, c: Conn)
    requires id in s.table
  {
    && c in s.held && Matches(s.held[c].update, s.table[id])
    && Abs(s.held[c].update.distance - s.table[id].distance) <= 0.0005 + 0.05 * s.held[c].quiet as real
  }

  ghost predicate OwnEntries(s: State) {
    forall id :: Online(s.registry, id).Some? ==>
      Online(s.registry, id).value.node == id && Online(s.registry, id).value.session == SESSION
  }

  ghost predicate EdgeMeansLevelOne(t: Table) { forall id :: id in t ==> (t[id].parentIsEdge <==> t[id].hop == 1) }

  ghost predicate SameRoutes(a: Table, b: Table) {
    a.Keys == b.Keys && forall id :: id in a ==>
      a[id].parent == b[id].parent && a[id].parentIsEdge == b[id].parentIsEdge && a[id].hop == b[id].hop
        && a[id].status == b[id].status
  }

  ghost predicate Agreement(s: State) {
    && OwnEntries(s) && EdgeMeansLevelOne(s.table)
    && (forall id :: id in s.table && Online(s.registry, id).Some? ==> InSync(s, id, Online(s.registry, id).value))
    && (s.view.Some? ==> SameRoutes(s.view.value, s.table))
  }

  lemma RowsOfTick(net: Net, t: Table)
    requires IsTopology(net, t)
    ensures EdgeMeansLevelOne(t)
  {
    forall id | id in t ensures t[id].parentIsEdge <==> t[id].hop == 1 {
      var n :| n in net.nodes && n.id == id;
      assert RowFor(net, n, t[n.id]);
      hide HopDistance, Best, Unreachable;
    }
  }

  lemma ConnectKeeps(s: State, c: Conn)
    requires Agreement(s) && c.session == SESSION
    ensures Agreement(OnConnect(s, c))
  {
    var s' := OnConnect(s, c);
    forall id ensures Online(s'.registry, id) == if id == c.node then Some(c) else Online(s.registry, id) {
      RegisterLookup(s.registry, c.session, c.node, c, SESSION, id);
    }
    hide Lookup, Register, Online;
    forall id | id in s'.table && Online(s'.registry, id).Some? ensures InSync(s', id, Online(s'.registry, id).value) {
      if id != c.node { assert InSync(s, id, Online(s.registry, id).value); }
    }
  }

  lemma CloseKeeps(s: State, c: Conn)
    requires Agreement(s)
    ensures Agreement(OnClose(s, c))
  {
    var s' := OnClose(s, c);
    forall id ensures Online(s'.registry, id) == Online(s.registry, id) || Online(s'.registry, id) == None {
      UnregisterLookup(s.registry, c.session, c.node, c, SESSION, id);
    }
    hide Lookup, Unregister, Online;
    forall id | id in s'.table && Online(s'.registry, id).Some? ensures InSync(s', id, Online(s'.registry, id).value) {
      assert InSync(s, id, Online(s.registry, id).value);
    }
  }

  // An online ship that stays in the table is told, or may keep what it has.
  lemma TickInSync(s: State, table: Table, id: string, c: Conn)
    requires Agreement(s) && EdgeMeansLevelOne(table)
    requires id in table && Online(s.registry, id) == Some(c)
    ensures InSync(OnTick(s, table), id, c)
  {
    var s' := OnTick(s, table);
    var pushes := Pushes(s.table, table);
    hide Lookup, Online;
    if id in pushes {
      assert c in Addressees(s, pushes.Keys);
      Round3Error(table[id].distance);
    } else {
      assert RouteUnchanged(s.table, id, table[id]);
      assert InSync(s, id, c);
      var q := s.held[c].quiet;
      assert s'.held[c] == s.held[c].(quiet := q + 1);
      assert JITTER * (q + 1) as real == JITTER * q as real + JITTER;
    }
  }

  /** A tick that tells the monitors nothing changed no key, parent, level or status. */
  lemma SilentTick(prev: Table, next: Table)
    requires EdgeMeansLevelOne(prev) && EdgeMeansLevelOne(next) && !Broadcasts(prev, next)
    ensures SameRoutes(prev, next)
  {
    assert Pushes(prev, next) == map[];
    forall id | id in next ensures RouteUnchanged(prev, id, next[id]) {
      if !RouteUnchanged(prev, id, next[id]) { Pushed(prev, next, id); }
    }
    SubsetSameSize(next.Keys, prev.Keys);
  }

  lemma Pushed(prev: Table, next: Table, id: string)
    requires id in next && !RouteUnchanged(prev, id, next[id])
    ensures Pushes(prev, next) != map[]
  {
    assert id in Pushes(prev, next);
  }

  lemma SubsetSameSize(a: set<string>, b: set<string>)
    requires a <= b && |a| == |b|
    ensures a == b
  {
    assert |b - a| == 0;
  }

  lemma TickView(s: State, table: Table)
    requires EdgeMeansLevelOne(s.table) && EdgeMeansLevelOne(table)
    requires s.view.Some? && SameRoutes(s.view.value, s.table)
    ensures SameRoutes(OnTick(s, table).view.value, table)
  {
    assert OnTick(s, table).view == if Broadcasts(s.table, table) then Some(table) else s.view;
    hide OnTick, Pushes, Broadcasts;
    if !Broadcasts(s.table, table) { SilentTick(s.table, table); }
  }

  lemma TickKeeps(s: State, table: Table)
    requires Agreement(s) && EdgeMeansLevelOne(table)
    ensures Agreement(OnTick(s, table))
  {
    var s' := OnTick(s, table);
    if s.view.Some? { TickView(s, table); }
    assert s'.table == table && s'.registry == s.registry && s'.view.Some? == s.view.Some?;
    assert forall id :: Online(s'.registry, id) == Online(s.registry, id);
    hide OnTick, SameRoutes, Lookup, InSync;
    forall id | id in table && Online(s'.registry, id).Some? ensures InSync(s', id, Online(s'.registry, id).value) {
      TickInSync(s, table, id, Online(s.registry, id).value);
    }
  }

  lemma QuietKeeps(s: State, positions: map<string, Point>)
    requires Agreement(s)
    ensures Agreement(s.(positions := positions)) && Agreement(s.(view := Some(s.table)))
  {
    forall id | id in s.table && Online(s.registry, id).Some?
      ensures InSync(s.(positions := positions), id, Online(s.registry, id).value)
      ensures InSync(s.(view := Some(s.table)), id, Online(s.registry, id).value)
    {
      assert InSync(s, id, Online(s.registry, id).value);
    }
  }

  lemma StepAgrees(s: State, step: Step, dist: (Point, Point) -> real)
    requires Agreement(s)
    ensures Agreement(Next(s, step, dist))
  {
    hide Agreement, EdgeMeansLevelOne, IsTopology;
    if Enabled(s, step, dist) {
      match step
      case Connect(c) => ConnectKeeps(s, c);
      case Close(c) => CloseKeeps(s, c);
      case Ping(node, at) => QuietKeeps(s, s.positions[node := at]);
      case Watch => QuietKeeps(s, s.positions);
      case Tick(live, edges, range, table) =>
        RowsOfTick(Net(live, edges, range, dist), table);
        TickKeeps(s, table);
    }
  }

  lemma {:induction false} AlwaysAgree(steps: seq<Step>, dist: (Point, Point) -> real)
    ensures Agreement(Run(steps, dist))
  {
    if |steps| > 0 {
      hide Agreement, Next;
      AlwaysAgree(steps[..|steps| - 1], dist);
      StepAgrees(Run(steps[..|steps| - 1], dist), steps[|steps| - 1], dist);
    } else {
      NobodyYet();
    }
  }

  lemma NobodyYet()
    ensures Agreement(START)
  {
  }

  /** Every online ship in the stored table holds exactly its parent, parent kind, hop and status, and a distance
      at most 0.0005 + 0.05 k km off after k ticks without a send. */
  lemma ShipsAgree(steps: seq<Step>, dist: (Point, Point) -> real, id: string)
    requires id in Run(steps, dist).table && Online(Run(steps, dist).registry, id).Some?
    ensures InSync(Run(steps, dist), id, Online(Run(steps, dist).registry, id).value)
  {
    AlwaysAgree(steps, dist);
  }

  /** A monitor that keeps the last full table it got is never wrong about keys, parents, levels or statuses. */
  lemma MonitorsAgree(steps: seq<Step>, dist: (Point, Point) -> real)
    requires Run(steps, dist).view.Some?
    ensures SameRoutes(Run(steps, dist).view.value, Run(steps, dist).table)
  {
    AlwaysAgree(steps, dist);
  }

  // ---- Positions -------------------------------------------------------------------------------------

  // Step j takes the ship's position away: its registered socket closes.
  ghost predicate Forgets(steps: seq<Step>, j: int, dist: (Point, Point) -> real, id: string) {
    && 0 <= j < |steps| && steps[j].Close? && steps[j].c.node == id
    && Lookup(Run(steps[..j], dist).registry, steps[j].c.session, id) == Some(steps[j].c)
  }

  ghost predicate LastPing(steps: seq<Step>, i: int, dist: (Point, Point) -> real, id: string, at: Point) {
    && 0 <= i < |steps| && steps[i] == Ping(id, at)
    && forall j :: i < j < |steps| ==> !(steps[j].Ping? && steps[j].node == id) && !Forgets(steps, j, dist, id)
  }

  lemma PositionsStep(s: State, step: Step, dist: (Point, Point) -> real)
    ensures Next(s, step, dist).positions ==
      match step
      case Ping(node, at) => s.positions[node := at]
      case Close(c) => if Lookup(s.registry, c.session, c.node) == Some(c) then s.positions - {c.node} else s.positions
      case _ => s.positions
  {
    hide IsTopology, Pushes, Addressees, Register, Unregister, Lookup;
  }

  /** The stored position of a ship is that of its last ping since which its registered socket has not closed. */
  lemma {:induction false} PositionIsLastPing(steps: seq<Step>, dist: (Point, Point) -> real, id: string, at: Point)
    ensures id in Run(steps, dist).positions && Run(steps, dist).positions[id] == at
      <==> exists i :: LastPing(steps, i, dist, id, at)
  {
    if |steps| > 0 {
      hide Next, Lookup;
      var n := |steps| - 1;
      var before, step := steps[..n], steps[n];
      PositionIsLastPing(before, dist, id, at);
      PositionsStep(Run(before, dist), step, dist);
      assert Forgets(steps, n, dist, id) <==>
        step.Close? && step.c.node == id && Lookup(Run(before, dist).registry, step.c.session, id) == Some(step.c);
      forall j | 0 <= j < n ensures Forgets(steps, j, dist, id) <==> Forgets(before, j, dist, id) {
        assert before[..j] == steps[..j];
      }
      hide Forgets, Run;
      assert LastPing(steps, n, dist, id, at) <==> step == Ping(id, at);
      if (step.Ping? && step.node == id) || Forgets(steps, n, dist, id) {
        assert forall i | 0 <= i < n :: !LastPing(steps, i, dist, id, at);
      } else {
        forall i | 0 <= i < n ensures LastPing(steps, i, dist, id, at) <==> LastPing(before, i, dist, id, at) {
          SamePing(steps, i, dist, id, at);
        }
      }
    }
  }

  lemma SamePing(steps: seq<Step>, i: nat, dist: (Point, Point) -> real, id: string, at: Point)
    requires i < |steps| - 1 && !(steps[|steps| - 1].Ping? && steps[|steps| - 1].node == id)
    requires !Forgets(steps, |steps| - 1, dist, id)
    requires forall j :: 0 <= j < |steps| - 1 ==>
      (Forgets(steps, j, dist, id) <==> Forgets(steps[..|steps| - 1], j, dist, id))
    ensures LastPing(steps, i, dist, id, at) <==> LastPing(steps[..|steps| - 1], i, dist, id, at)
  {
    hide Forgets;
    var before := steps[..|steps| - 1];
    assert forall j :: 0 <= j < |before| ==> before[j] == steps[j];
    if LastPing(before, i, dist, id, at) {
      forall j | i < j < |steps| ensures !(steps[j].Ping? && steps[j].node == id) && !Forgets(steps, j, dist, id) {
        if j < |before| { assert !(before[j].Ping? && before[j].node == id) && !Forgets(before, j, dist, id); }
      }
    }
  }

  // ---- Late closes ---------------------------------------------------------------------------------

  // The registry operations of a run.
  function OpOf(step: Step): seq<Op> {
    match step
    case Connect(c) => if c.session == SESSION then [Open(c)] else []
    case Close(c) => [Shut(c)]
    case _ => []
  }

  function Ops(steps: seq<Step>): seq<Op> {
    if |steps| == 0 then [] else Ops(steps[..|steps| - 1]) + OpOf(steps[|steps| - 1])
  }

  lemma RegistryStep(s: State, step: Step, dist: (Point, Point) -> real)
    ensures Next(s, step, dist).registry ==
      match step
      case Connect(c) => if c.session == SESSION then Register(s.registry, c.session, c.node, c) else s.registry
      case Close(c) => Unregister(s.registry, c.session, c.node, c)
      case _ => s.registry
  {
    hide IsTopology, Pushes, Addressees, Register;
  }

  /** The scheduler's registry is the hub's. */
  lemma {:induction false} RegistryIsHub(steps: seq<Step>, dist: (Point, Point) -> real)
    ensures Run(steps, dist).registry == HubRuns.Run(Ops(steps)).nodes
  {
    if |steps| > 0 {
      hide Next, Register, Unregister, Lookup;
      var before, step := steps[..|steps| - 1], steps[|steps| - 1];
      RegistryIsHub(before, dist);
      RegistryStep(Run(before, dist), step, dist);
      if OpOf(step) == [] {
        assert Ops(steps) == Ops(before);
      } else {
        assert Ops(steps)[..|Ops(before)|] == Ops(before);
      }
    }
  }

  ghost predicate Superseded(ops: seq<Op>, c: Conn) {
    exists i :: Latest(ops, c.session, c.node, i) && ops[i].c != c
  }

  lemma SupersededStays(ops: seq<Op>, op: Op, c: Conn)
    requires if op.Open? && op.c.session == c.session && op.c.node == c.node then op.c != c else Superseded(ops, c)
    ensures Superseded(ops + [op], c)
  {
    var next := ops + [op];
    if op.Open? && op.c.session == c.session && op.c.node == c.node {
      assert Latest(next, c.session, c.node, |ops|);
    } else {
      var i :| Latest(ops, c.session, c.node, i) && ops[i].c != c;
      assert Latest(next, c.session, c.node, i);
    }
  }

  lemma {:induction false} ReconnectSupersedes(steps: seq<Step>, j: nat, c: Conn, d: Conn)
    requires j < |steps| && steps[j] == Connect(d) && d != c && d.node == c.node && d.session == c.session == SESSION
    requires forall k :: j < k < |steps| ==> steps[k] != Connect(c)
    ensures Superseded(Ops(steps), c)
  {
    hide Superseded;
    var n := |steps| - 1;
    if j < n {
      ReconnectSupersedes(steps[..n], j, c, d);
      if OpOf(steps[n]) == [] { assert Ops(steps) == Ops(steps[..n]); }
    }
    if OpOf(steps[n]) != [] { SupersededStays(Ops(steps[..n]), OpOf(steps[n])[0], c); }
  }

  /** A ship reconnects and its old socket is closed only afterwards: the ship's position, registration, held route and
      everything else stay as they are. */
  lemma LateCloseKeepsPosition(steps: seq<Step>, dist: (Point, Point) -> real, i: nat, j: nat, c: Conn, d: Conn)
    requires i < j < |steps| && steps[i] == Connect(c) && steps[j] == Connect(d)
    requires d != c && d.node == c.node && d.session == c.session == SESSION
    requires forall k :: j < k < |steps| ==> steps[k] != Connect(c)
    ensures Run(steps + [Close(c)], dist) == Run(steps, dist)
  {
    ReconnectSupersedes(steps, j, c, d);
    var x :| Latest(Ops(steps), c.session, c.node, x) && Ops(steps)[x].c != c;
    LateCloseIsNoOp(Ops(steps), c, x);
    RegistryIsHub(steps, dist);
    hide Lookup, Ops, HubRuns.Run;
    assert (steps + [Close(c)])[..|steps|] == steps;
  }

  // ---- With the range of one session ------------------------------------------------------------------

  ghost predicate ConstantRange(steps: seq<Step>, range: real) {
    forall i :: 0 <= i < |steps| && steps[i].Tick? ==> steps[i].range == range
  }

  function Reach(range: real): real { if range < 0.0 then 0.0 else range }

  // Stored distances lie within the range, told ones within it up to rounding.
  ghost predicate Ranged(s: State, range: real) {
    && (forall id :: id in s.table ==> 0.0 <= s.table[id].distance <= Reach(range))
    && (forall c :: c in s.held ==> 0.0 <= s.held[c].update.distance <= Reach(range) + 0.0005)
  }

  lemma RowsInRange(net: Net, t: Table)
    requires IsTopology(net, t) && forall a, b :: net.dist(a, b) >= 0.0
    ensures forall id :: id in t ==> 0.0 <= t[id].distance <= Reach(net.range)
  {
    forall id | id in t ensures 0.0 <= t[id].distance <= Reach(net.range) {
      var n :| n in net.nodes && n.id == id;
      assert RowFor(net, n, t[n.id]);
      hide HopDistance, Unreachable;
      if t[id].status == Routed { assert Offer(t[id].parent, t[id].distance) in Offers(net, n, t[id].hop); }
    }
  }

  lemma RoundedInRange(v: real, limit: real)
    requires 0.0 <= v <= limit
    ensures 0.0 <= Round3(v) <= limit + 0.0005
  {
    Round3Error(v);
  }

  // What is held after a tick was just pushed, or held before.
  lemma HeldAfterTick(s: State, table: Table, c: Conn)
    requires c in OnTick(s, table).held
    ensures var u := OnTick(s, table).held[c].update;
      (c.node in table && u.distance == Round3(table[c.node].distance)) || (c in s.held && u == s.held[c].update)
  {
    hide Lookup, Round3, RouteUnchanged;
  }

  lemma TickStores(s: State, table: Table)
    ensures OnTick(s, table).table == table
  {
  }

  lemma TickRanged(s: State, table: Table, range: real)
    requires Ranged(s, range) && forall id :: id in table ==> 0.0 <= table[id].distance <= Reach(range)
    ensures Ranged(OnTick(s, table), range)
  {
    hide OnTick, Lookup, Round3, Reach;
    TickStores(s, table);
    forall c | c in OnTick(s, table).held
      ensures 0.0 <= OnTick(s, table).held[c].update.distance <= Reach(range) + 0.0005
    {
      HeldAfterTick(s, table, c);
      if c.node in table { RoundedInRange(table[c.node].distance, Reach(range)); }
    }
  }

  lemma StepRanged(s: State, step: Step, dist: (Point, Point) -> real, range: real)
    requires Ranged(s, range) && (step.Tick? ==> step.range == range) && forall a, b :: dist(a, b) >= 0.0
    ensures Ranged(Next(s, step, dist), range)
  {
    hide IsTopology, Pushes, Addressees, Lookup, Register, Unregister;
    if step.Tick? && Enabled(s, step, dist) {
      RowsInRange(Net(step.live, step.edges, step.range, dist), step.table);
      hide OnTick;
      TickRanged(s, step.table, range);
    }
  }

  lemma {:induction false} AlwaysRanged(steps: seq<Step>, dist: (Point, Point) -> real, range: real)
    requires ConstantRange(steps, range) && forall a, b :: dist(a, b) >= 0.0
    ensures Ranged(Run(steps, dist), range)
  {
    hide Next, Ranged;
    if |steps| == 0 {
      NothingRanged(range);
    } else {
      AlwaysRanged(steps[..|steps| - 1], dist, range);
      StepRanged(Run(steps[..|steps| - 1], dist), steps[|steps| - 1], dist, range);
    }
  }

  lemma NothingRanged(range: real)
    ensures Ranged(START, range)
  {
  }

  /** While a session keeps its radio range R, a ship's distance is at most 0.0005 + min(0.05 k, R) km wrong after k
      ticks without a send. */
  lemma DriftBounded(steps: seq<Step>, dist: (Point, Point) -> real, range: real, id: string)
    requires ConstantRange(steps, range) && forall a, b :: dist(a, b) >= 0.0
    requires id in Run(steps, dist).table && Online(Run(steps, dist).registry, id).Some?
    ensures var s := Run(steps, dist); var c := Online(s.registry, id).value;
      && c in s.held
      && Abs(s.held[c].update.distance - s.table[id].distance) <= 0.0005 + 0.05 * s.held[c].quiet as real
      && Abs(s.held[c].update.distance - s.table[id].distance) <= 0.0005 + Reach(range)
  {
    hide Run, Online;
    ShipsAgree(steps, dist, id);
    AlwaysRanged(steps, dist, range);
  }

  // ---- The distance bound is tight: changes are measured from the last tick, not from the last send ---------

  const SHIP := Conn(SESSION, "A", 0)
  const PORT := Edge("E", Point(0.0, 0.0))

  function Along(a: Point, b: Point): real { Abs(a.lat - b.lat) }
  function ShipAt(x: real): NodePosition { NodePosition("A", Point(x, 0.0)) }
  function RowAt(x: real): Table { map["A" := RouteEntry("A", "E", true, x, 1, Routed)] }
  function TickAt(x: real, range: real): Step { Tick([ShipAt(x)], [PORT], range, RowAt(x)) }

  // Half a metre more than 50 m for each of the k ticks, less those already made.
  function Distance(k: nat, j: nat): real { JITTER * (k as real - j as real) + 0.0005 }

  // A lone ship nearing the port by 50 m between ticks, all at the same range.
  function Nearing(k: nat, j: nat, range: real): seq<Step> {
    (if j == 0 then [Connect(SHIP)] else Nearing(k, j - 1, range))
    + [Ping("A", Point(Distance(k, j), 0.0)), TickAt(Distance(k, j), range)]
  }

  lemma {:induction false} NearingKeepsRange(k: nat, j: nat, range: real)
    ensures ConstantRange(Nearing(k, j, range), range)
  {
    if j > 0 { NearingKeepsRange(k, j - 1, range); }
  }

  lemma LoneShipTable(x: real, range: real)
    requires 0.0 <= x <= range
    ensures IsTopology(Net([ShipAt(x)], [PORT], range, Along), RowAt(x))
  {
    var net := Net([ShipAt(x)], [PORT], range, Along);
    var n := ShipAt(x);
    assert n in net.nodes && PORT in net.edges && InRange(net, n.at, PORT.at);
    ReachesEdge(net, n);
    var o := Offer("E", x);
    assert EdgeOffers(net, n) == {o};
    Trichotomy("E", "E");
    assert RoutedRow(net, n, RowAt(x)["A"]);
  }

  // What the ship was told at first: half a metre rounded up.
  function FirstTold(k: nat): RoutingUpdate { RoutingUpdate("E", true, JITTER * k as real + 0.001, 1, Routed) }

  ghost predicate Alone(s: State) {
    && s.positions.Keys <= {"A"} && Online(s.registry, "A") == Some(SHIP)
    && forall id :: Online(s.registry, id).Some? ==> id == "A"
  }

  // j ticks after the first the ship still holds what it was told then.
  ghost predicate Drifted(s: State, k: nat, j: nat) {
    Alone(s) && s.table == RowAt(Distance(k, j)) && s.held == map[SHIP := Held(FirstTold(k), j)]
  }

  /** For every range R and every k the range has room for, a run within that range exists after which a ship's distance
      is exactly 0.0005 + 0.05 k km wrong, k ticks after it was told. */
  lemma DriftAttained(k: nat, range: real)
    requires JITTER * k as real + 0.0005 <= range
    ensures var steps := Nearing(k, k, range);
      var s := Run(steps, Along);
      && ConstantRange(steps, range) && "A" in s.table && Online(s.registry, "A") == Some(SHIP)
      && SHIP in s.held && s.held[SHIP].quiet == k
      && Abs(s.held[SHIP].update.distance - s.table["A"].distance) == 0.0005 + 0.05 * k as real
  {
    hide Run, Lookup;
    NearingKeepsRange(k, k, range);
    Drifting(k, k, range);
  }

  lemma {:induction false} Drifting(k: nat, j: nat, range: real)
    requires j <= k && JITTER * k as real + 0.0005 <= range
    ensures Drifted(Run(Nearing(k, j, range), Along), k, j)
  {
    hide Run, Drifted;
    if j == 0 {
      Aboard();
      DriftOn([Connect(SHIP)], k, 0, range);
    } else {
      Drifting(k, j - 1, range);
      DriftOn(Nearing(k, j - 1, range), k, j, range);
    }
  }

  lemma DriftOn(before: seq<Step>, k: nat, j: nat, range: real)
    requires j <= k && JITTER * k as real + 0.0005 <= range
    requires var s := Run(before, Along);
      if j == 0 then Alone(s) && s.table == map[] && s.held == map[] else Drifted(s, k, j - 1)
    ensures var x := Distance(k, j);
      Drifted(Run(before + [Ping("A", Point(x, 0.0)), TickAt(x, range)], Along), k, j)
  {
    hide Run, Pushes, Addressees, Enabled, Lookup;
    PingAndTick(before, Distance(k, j), range);
    OneTick(Run(before, Along), k, j);
  }

  lemma Aboard()
    ensures var s := Run([Connect(SHIP)], Along); Alone(s) && s.table == map[] && s.held == map[]
  {
    assert [Connect(SHIP)][..0] == [];
    assert Run([], Along) == START;
    assert Run([Connect(SHIP)], Along) == OnConnect(START, SHIP);
    forall id ensures Online(OnConnect(START, SHIP).registry, id) == if id == "A" then Some(SHIP) else None { }
  }

  lemma PingAndTick(before: seq<Step>, x: real, range: real)
    requires 0.0 <= x <= range && Alone(Run(before, Along))
    ensures var s := Run(before, Along);
      Run(before + [Ping("A", Point(x, 0.0)), TickAt(x, range)], Along)
      == OnTick(s, RowAt(x)).(positions := map["A" := Point(x, 0.0)])
  {
    var s := Run(before, Along);
    var ping, tick := Ping("A", Point(x, 0.0)), TickAt(x, range);
    var s1 := s.(positions := map["A" := Point(x, 0.0)]);
    assert s.positions["A" := Point(x, 0.0)] == map["A" := Point(x, 0.0)];
    TickEnabled(s1, x, range);
    hide IsTopology, Lookup, Pushes, Addressees, RowAt;
    assert Next(s, ping, Along) == s1;
    hide Enabled;
    assert Next(s1, tick, Along) == OnTick(s1, RowAt(x));
    hide OnTick, Next;
    RunTwo(before, ping, tick);
  }

  lemma RunTwo(before: seq<Step>, first: Step, second: Step)
    ensures Run(before + [first, second], Along) == Next(Next(Run(before, Along), first, Along), second, Along)
  {
    hide Next;
    assert (before + [first])[..|before|] == before;
    assert (before + [first, second])[..|before| + 1] == before + [first];
  }

  lemma TickEnabled(s: State, x: real, range: real)
    requires 0.0 <= x <= range && s.positions == map["A" := Point(x, 0.0)] && Online(s.registry, "A").Some?
    ensures Enabled(s, TickAt(x, range), Along)
  {
    LoneShipTable(x, range);
    hide IsTopology, Lookup, RowAt;
  }

  lemma FirstRounding(k: nat)
    ensures Round3(Distance(k, 0)) == JITTER * k as real + 0.001
  {
    var x := Distance(k, 0) * 1000.0;
    assert x == (50 * k) as real + 0.5;
    assert Round(x) == 50 * k + 1;
  }

  lemma OneTick(s: State, k: nat, j: nat)
    requires j <= k && Alone(s)
    requires if j == 0 then s.table == map[] && s.held == map[] else Drifted(s, k, j - 1)
    ensures OnTick(s, RowAt(Distance(k, j))).held == map[SHIP := Held(FirstTold(k), j)]
  {
    hide Round3, Lookup;
    var x := Distance(k, j);
    var pushes := Pushes(s.table, RowAt(x));
    if j == 0 {
      FirstRounding(k);
      assert pushes == map["A" := FirstTold(k)];
      assert Addressees(s, pushes.Keys) == {SHIP};
    } else {
      assert Distance(k, j - 1) - x == JITTER;
      assert pushes == map[];
      assert Addressees(s, pushes.Keys) == {};
    }
  }
}
