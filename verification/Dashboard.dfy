/** Scheduler, hub and dashboard together: which routes the dashboard shows, against the stored table. */
module Dashboard {
  import opened MeshGraph
  import opened Protocol
  import opened Distribution
  import opened DistributionTheorems
  import Hub
  import T = TopologyStore

  // The server with one dashboard; `marked` are the ships it saw go offline since the last table it took.
  datatype Watched = Watched(server: State, nodes: T.Nodes, marked: set<string>)

  // A server step with the rows of the table it sends, if any; a hydration over REST; a packet event.
  datatype Event = On(step: Step, rows: seq<RouteEntry>) | Hydrate(ships: seq<T.ShipInfo>, rows: seq<RouteEntry>)
                 | Packet(ev: PacketEvent)

  const DARK := Watched(START, map[], {})

  ghost predicate Possible(d: Watched, e: Event, dist: (Point, Point) -> real) {
    match e
    case On(Tick(live, edges, range, table), rows) => Enabled(d.server, e.step, dist) && TableEvent(table, rows)
    case On(Watch, rows) => TableEvent(d.server.table, rows)
    case On(step, rows) => Enabled(d.server, step, dist)
    case Hydrate(ships, rows) => SnapshotOf(d.server, ships) && TableEvent(d.server.table, rows)
    case Packet(_) => true
  }

  // The ships of a topology snapshot: every stored position, with whether its ship is registered.
  ghost predicate SnapshotOf(s: State, ships: seq<T.ShipInfo>) {
    forall x :: x in ships <==>
      x.id in s.positions && x.at == s.positions[x.id] && x.online == Online(s.registry, x.id).Some?
  }

  function Take(d: Watched, server: State, nodes: T.Nodes, rows: seq<RouteEntry>, now: int): Watched {
    Watched(server, T.Overwritten(nodes, rows, now), {})
  }

  // What the dashboard does on the messages of a step; before it connects it gets none.
  ghost function Next(d: Watched, e: Event, now: int, dist: (Point, Point) -> real): Watched {
    if !Possible(d, e, dist) then d
    else match e
      case Packet(ev) => if d.server.view.None? then d else d.(nodes := T.Linked(d.nodes, ev, now))
      case Hydrate(ships, rows) => if d.server.view.None? then d
        else Take(d, d.server, T.Moved(d.nodes, ships, now), rows, now)
      case On(step, rows) =>
        var server := DistributionTheorems.Next(d.server, step, dist);
        var watching := d.server.view.Some?;
        match step
        case Watch => Take(d, server, d.nodes, rows, now)
        case Tick(_, _, _, table) =>
          if watching && Broadcasts(d.server.table, table) then Take(d, server, d.nodes, rows, now)
            else d.(server := server)
        case Connect(c) =>
          if watching then Watched(server, T.OnlineSet(d.nodes, c.node, true, now), d.marked) else d.(server := server)
        case Close(c) =>
          if watching && Hub.Lookup(d.server.registry, c.session, c.node) == Some(c)
          then Watched(server, T.OnlineSet(d.nodes, c.node, false, now), d.marked + {c.node}) else d.(server := server)
        case Ping(node, at) =>
          if watching then Watched(server, T.Pinged(d.nodes, node, at, now), d.marked) else d.(server := server)
  }

  ghost function Run(events: seq<(Event, int)>, dist: (Point, Point) -> real): Watched {
    if |events| == 0 then DARK
    else Next(Run(events[..|events| - 1], dist), events[|events| - 1].0, events[|events| - 1].1, dist)
  }

  // The dashboard's idea of a ship's parent, parent kind, hop and status is the stored one.
  predicate Agrees(n: T.ShipNode, e: RouteEntry) {
    n.parent == T.ParentOf(e) && n.parentIsEdge == e.parentIsEdge && n.hop == e.hop && n.status == e.status
  }

  // ---- Invariant ---------------------------------------------------------------------------------

  ghost predicate Shaped(t: Table) {
    forall id :: id in t ==> t[id].node == id && (t[id].status == Isolated ==> t[id] == IsolatedRow(id))
  }

  ghost predicate ShowsAll(t: Table, nodes: T.Nodes, marked: set<string>) {
    forall id :: id in t ==> id in nodes && if id in marked then T.NoRoute(nodes[id]) else Agrees(nodes[id], t[id])
  }

  ghost predicate Faithful(d: Watched) {
    && Agreement(d.server) && Shaped(d.server.table) && (forall id :: id in d.nodes ==> d.nodes[id].id == id)
    && (d.server.view.Some? ==> ShowsAll(d.server.table, d.nodes, d.marked))
  }

  lemma TickShapes(net: Net, t: Table)
    requires IsTopology(net, t)
    ensures Shaped(t)
  {
    forall id | id in t ensures t[id].node == id && (t[id].status == Isolated ==> t[id] == IsolatedRow(id)) {
      var n :| n in net.nodes && n.id == id;
      assert RowFor(net, n, t[n.id]);
      hide HopDistance, Best, Unreachable;
    }
  }

  // A table taken in whole is shown in whole.
  lemma TakenShows(t: Table, rows: seq<RouteEntry>, nodes: T.Nodes, now: int)
    requires TableEvent(t, rows) && Shaped(t)
    ensures ShowsAll(t, T.Overwritten(nodes, rows, now), {})
  {
    var m := T.Overwritten(nodes, rows, now);
    forall id | id in t ensures id in m && Agrees(m[id], t[id]) {
      var r := RoundedRow(t[id]);
      assert r in rows;
      forall x | x in rows && x.node == r.node ensures x == r { }
      T.ListedShown(nodes, rows, now, r);
      hide T.Overwritten;
    }
  }

  lemma {:induction false} OwnIds(nodes: T.Nodes, rows: seq<RouteEntry>, now: int)
    requires forall id :: id in nodes ==> nodes[id].id == id
    ensures forall id :: id in T.Overwritten(nodes, rows, now) ==> T.Overwritten(nodes, rows, now)[id].id == id
  {
    if |rows| > 0 { OwnIds(nodes, rows[..|rows| - 1], now); }
  }

  lemma {:induction false} MovedIds(nodes: T.Nodes, ships: seq<T.ShipInfo>, now: int)
    requires forall id :: id in nodes ==> nodes[id].id == id
    ensures forall id :: id in T.Moved(nodes, ships, now) ==> T.Moved(nodes, ships, now)[id].id == id
  {
    if |ships| > 0 { MovedIds(nodes, ships[..|ships| - 1], now); }
  }

  lemma TakeKeeps(d: Watched, server: State, nodes: T.Nodes, rows: seq<RouteEntry>, now: int)
    requires Agreement(server) && Shaped(server.table) && TableEvent(server.table, rows)
    requires forall id :: id in nodes ==> nodes[id].id == id
    ensures Faithful(Take(d, server, nodes, rows, now))
  {
    hide Agreement, TableEvent, ShowsAll, Shaped, T.Overwritten;
    OwnIds(nodes, rows, now);
    TakenShows(server.table, rows, nodes, now);
  }

  // A tick without a broadcast leaves what is shown right.
  lemma SilenceKeeps(prev: Table, next: Table, nodes: T.Nodes, marked: set<string>)
    requires SameRoutes(prev, next) && ShowsAll(prev, nodes, marked)
    ensures ShowsAll(next, nodes, marked)
  {
    forall id | id in next
      ensures id in nodes && if id in marked then T.NoRoute(nodes[id]) else Agrees(nodes[id], next[id])
    {
      assert id in prev;
    }
  }

  lemma StepKeeps(d: Watched, step: Step, rows: seq<RouteEntry>, now: int, dist: (Point, Point) -> real)
    requires Faithful(d) && Possible(d, On(step, rows), dist)
    ensures Faithful(Next(d, On(step, rows), now, dist))
  {
    hide Agreement, IsTopology, TableEvent, Hub.Lookup, Pushes, Broadcasts, ShowsAll, Shaped, T.Overwritten, SameRoutes,
         OnConnect, OnClose;
    var s, s' := d.server, DistributionTheorems.Next(d.server, step, dist);
    StepAgrees(s, step, dist);
    match step
    case Connect(c) =>
      ConnectTable(s, c);
      PresenceKeeps(s.table, d.nodes, d.marked, c.node, true, now);
    case Close(c) =>
      CloseTable(s, c);
      PresenceKeeps(s.table, d.nodes, d.marked, c.node, false, now);
    case Ping(node, at) => PingKeeps(s.table, d.nodes, d.marked, node, at, now);
    case Watch => TakeKeeps(d, s', d.nodes, rows, now);
    case Tick(live, edges, range, table) =>
      TickShapes(Net(live, edges, range, dist), table);
      assert s'.table == table && (s'.view.Some? <==> s.view.Some?);
      if s.view.Some? {
        if Broadcasts(s.table, table) { TakeKeeps(d, s', d.nodes, rows, now); }
        else { QuietTick(s, s', table); SilenceKeeps(s.table, table, d.nodes, d.marked); }
      }
  }

  lemma QuietTick(s: State, s': State, table: Table)
    requires Agreement(s) && Agreement(s') && s'.table == table && !Broadcasts(s.table, table)
    ensures SameRoutes(s.table, table)
  {
    hide InSync, OwnEntries;
    SilentTick(s.table, table);
  }

  lemma ConnectTable(s: State, c: Hub.Conn)
    ensures OnConnect(s, c).table == s.table && OnConnect(s, c).view == s.view
  {
  }

  lemma CloseTable(s: State, c: Hub.Conn)
    ensures OnClose(s, c).table == s.table && OnClose(s, c).view == s.view
  {
  }

  lemma PresenceKeeps(t: Table, nodes: T.Nodes, marked: set<string>, id: string, online: bool, now: int)
    requires forall o :: o in nodes ==> nodes[o].id == o
    ensures var m := T.OnlineSet(nodes, id, online, now);
      (forall o :: o in m ==> m[o].id == o)
        && (ShowsAll(t, nodes, marked) ==> ShowsAll(t, m, if online then marked else marked + {id}))
  {
  }

  lemma PingKeeps(t: Table, nodes: T.Nodes, marked: set<string>, id: string, at: Point, now: int)
    requires forall o :: o in nodes ==> nodes[o].id == o
    ensures var m := T.Pinged(nodes, id, at, now);
      (forall o :: o in m ==> m[o].id == o) && (ShowsAll(t, nodes, marked) ==> ShowsAll(t, m, marked))
  {
  }

  lemma LinkKeeps(t: Table, nodes: T.Nodes, marked: set<string>, ev: PacketEvent, now: int)
    requires forall o :: o in nodes ==> nodes[o].id == o
    ensures var m := T.Linked(nodes, ev, now);
      (forall o :: o in m ==> m[o].id == o) && (ShowsAll(t, nodes, marked) ==> ShowsAll(t, m, marked))
  {
    hide T.Concerns;
  }

  lemma {:induction false} AlwaysFaithful(events: seq<(Event, int)>, dist: (Point, Point) -> real)
    ensures Faithful(Run(events, dist))
  {
    hide Faithful, Next;
    if |events| == 0 {
      NothingShown();
    } else {
      AlwaysFaithful(events[..|events| - 1], dist);
      EventKeeps(Run(events[..|events| - 1], dist), events[|events| - 1].0, events[|events| - 1].1, dist);
    }
  }

  lemma NothingShown()
    ensures Faithful(DARK)
  {
    NobodyYet();
  }

  lemma EventKeeps(d: Watched, e: Event, now: int, dist: (Point, Point) -> real)
    requires Faithful(d)
    ensures Faithful(Next(d, e, now, dist))
  {
    if Possible(d, e, dist) {
      match e
      case On(step, rows) => hide Faithful, Next, Possible; StepKeeps(d, step, rows, now, dist);
      case Hydrate(ships, rows) =>
        hide Agreement, TableEvent, ShowsAll, Shaped, T.Overwritten, T.Moved;
        MovedIds(d.nodes, ships, now);
        TakeKeeps(d, d.server, T.Moved(d.nodes, ships, now), rows, now);
      case Packet(ev) =>
        hide Agreement, ShowsAll, Shaped, T.Linked;
        LinkKeeps(d.server.table, d.nodes, d.marked, ev, now);
    }
  }

  /** A connected dashboard shows the stored route of a ship iff it did not see the ship go offline since the last table
      it took, or the ship is isolated anyway. */
  lemma ShownIff(events: seq<(Event, int)>, dist: (Point, Point) -> real, id: string)
    requires Run(events, dist).server.view.Some? && id in Run(events, dist).server.table
    ensures var d := Run(events, dist);
      && id in d.nodes
      && (Agrees(d.nodes[id], d.server.table[id]) <==> id !in d.marked || d.server.table[id].status == Isolated)
  {
    hide Run, Agreement;
    AlwaysFaithful(events, dist);
  }

  // ---- A ship shown isolated while it is routed -------------------------------------------------------

  const AGAIN := Hub.Conn.Conn(SESSION, "A", 1)
  const ROW := RouteEntry("A", "E", true, 0.0, 1, Routed)

  function Pinging(): Step { Ping("A", Point(0.0, 0.0)) }
  const RANGE := 5.0       // MaxRangeKm lies between 1.25 and 10 km

  function Ticking(): Step { TickAt(0.0, RANGE) }

  lemma RunOn(events: seq<(Event, int)>, e: Event)
    ensures Run(events + [(e, 0)], Along) == Next(Run(events, Along), e, 0, Along)
  {
    assert (events + [(e, 0)])[..|events|] == events;
  }

  // Ship A alone, registered as c, with its routed row stored.
  ghost predicate Aboard(d: Watched, c: Hub.Conn, positioned: bool) {
    && d.server.positions == (if positioned then map["A" := Point(0.0, 0.0)] else map[])
    && Online(d.server.registry, "A") == Some(c) && c.session == SESSION && c.node == "A"
  }

  lemma TableSent()
    ensures TableEvent(RowAt(0.0), [ROW])
  {
    assert RoundedRow(ROW) == ROW by { assert Round3(0.0) == 0.0; }
    assert RowAt(0.0)["A"] == ROW;
  }

  lemma TickAboard(d: Watched, c: Hub.Conn)
    requires Aboard(d, c, true)
    ensures Possible(d, On(Ticking(), [ROW]), Along)
  {
    hide Hub.Lookup;
    TickEnabled(d.server, 0.0, RANGE);
    TableSent();
  }

  lemma TickRepeats()
    ensures !Broadcasts(RowAt(0.0), RowAt(0.0))
  {
    assert Pushes(RowAt(0.0), RowAt(0.0)) == map[];
  }

  // Joins, pings, gets its route, is watched, drops, comes back, pings, and is routed again by the next tick.
  function Outage(): seq<(Event, int)> {
    [(On(Connect(SHIP), []), 0)] + [(On(Pinging(), []), 0)] + [(On(Ticking(), [ROW]), 0)] + [(On(Watch, [ROW]), 0)]
    + [(On(Close(SHIP), []), 0)] + [(On(Connect(AGAIN), []), 0)] + [(On(Pinging(), []), 0)]
      + [(On(Ticking(), [ROW]), 0)]
  }

  lemma Joined(d: Watched)
    requires d == DARK
    ensures var d3 := Next(Next(Next(d, On(Connect(SHIP), []), 0, Along), On(Pinging(), []), 0, Along),
      On(Ticking(), [ROW]), 0, Along);
      Aboard(d3, SHIP, true) && d3.server.table == RowAt(0.0) && d3.server.view == None && d3.marked == {}
  {
    hide Pushes, Addressees, IsTopology, TableEvent;
    var d1 := Next(d, On(Connect(SHIP), []), 0, Along);
    assert d1.server.positions == map[] && Online(d1.server.registry, "A") == Some(SHIP);
    hide OnConnect;
    var d2 := Next(d1, On(Pinging(), []), 0, Along);
    assert d2.server.positions == map["A" := Point(0.0, 0.0)];
    TickAboard(d2, SHIP);
  }

  lemma SeenDropping(d: Watched)
    requires Aboard(d, SHIP, true) && d.server.table == RowAt(0.0) && d.marked == {}
    ensures var d5 := Next(Next(d, On(Watch, [ROW]), 0, Along), On(Close(SHIP), []), 0, Along);
      d5.server.positions == map[] && d5.server.table == RowAt(0.0) && d5.server.view.Some? && d5.marked == {"A"}
  {
    hide Pushes, Addressees, IsTopology, TableEvent, Hub.Unregister, T.Overwritten, T.OnlineSet;
    TableSent();
    var d4 := Next(d, On(Watch, [ROW]), 0, Along);
    assert Possible(d, On(Watch, [ROW]), Along);
    assert d4.server == d.server.(view := Some(d.server.table)) && d4.marked == {};
  }

  lemma Returned(d: Watched)
    requires d.server.positions == map[] && d.server.table == RowAt(0.0) && d.server.view.Some? && d.marked == {"A"}
    ensures var d8 := Next(Next(Next(d, On(Connect(AGAIN), []), 0, Along), On(Pinging(), []), 0, Along),
      On(Ticking(), [ROW]), 0, Along);
      && d8.server.table == RowAt(0.0) && d8.server.view.Some? && d8.marked == {"A"}
      && Online(d8.server.registry, "A") == Some(AGAIN) && d8.server.positions == map["A" := Point(0.0, 0.0)]
  {
    hide Pushes, Addressees, IsTopology, TableEvent, T.Overwritten, T.OnlineSet, T.Pinged, Broadcasts;
    var d6 := Next(d, On(Connect(AGAIN), []), 0, Along);
    assert d6.server == OnConnect(d.server, AGAIN) && d6.marked == {"A"};
    assert Online(d6.server.registry, "A") == Some(AGAIN);
    var d7 := Next(d6, On(Pinging(), []), 0, Along);
    assert d7.server.positions == map["A" := Point(0.0, 0.0)] && d7.marked == {"A"};
    TickAboard(d7, AGAIN);
    TickRepeats();
  }

  /** A run after which the dashboard shows a ship isolated that is online, positioned and routed in the stored table:
      the last tick found every row unchanged and broadcast nothing. */
  lemma OutageHidesRoute()
    ensures var d := Run(Outage(), Along);
      && Online(d.server.registry, "A").Some? && "A" in d.server.positions && d.server.view.Some?
      && "A" in d.server.table && d.server.table["A"].status == Routed && "A" in d.nodes
        && !Agrees(d.nodes["A"], d.server.table["A"])
  {
    hide Run, Next, Online, Agrees;
    var e := Outage();
    var e1 := [(On(Connect(SHIP), []), 0)];
    var e2 := e1 + [(On(Pinging(), []), 0)];
    var e3 := e2 + [(On(Ticking(), [ROW]), 0)];
    var e4 := e3 + [(On(Watch, [ROW]), 0)];
    var e5 := e4 + [(On(Close(SHIP), []), 0)];
    var e6 := e5 + [(On(Connect(AGAIN), []), 0)];
    var e7 := e6 + [(On(Pinging(), []), 0)];
    assert [] + e1 == e1;
    Darkness();
    RunOn([], On(Connect(SHIP), []));
    RunOn(e1, On(Pinging(), []));
    RunOn(e2, On(Ticking(), [ROW]));
    RunOn(e3, On(Watch, [ROW]));
    RunOn(e4, On(Close(SHIP), []));
    RunOn(e5, On(Connect(AGAIN), []));
    RunOn(e6, On(Pinging(), []));
    RunOn(e7, On(Ticking(), [ROW]));
    Joined(DARK);
    SeenDropping(Run(e3, Along));
    Returned(Run(e5, Along));
    ShownIff(e, Along, "A");
  }

  lemma Darkness()
    ensures Run([], Along) == DARK
  {
  }
}
