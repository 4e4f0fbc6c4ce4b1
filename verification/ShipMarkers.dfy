/** Server and dashboard together: where the dashboard shows a ship and whether it shows it present. */
module ShipMarkers {
  import opened MeshGraph
  import opened Protocol
  import opened Distribution
  import opened DistributionTheorems
  import Hub
  import T = TopologyStore
  import Runs = TopologyRuns
  import opened Dashboard

  // ---- What the dashboard was told ---------------------------------------------------------------------

  // The event tells it where the ship is, or that it is nowhere: a ping of the ship or a snapshot.
  ghost predicate Locates(d: Watched, e: Event, dist: (Point, Point) -> real, id: string) {
    && Possible(d, e, dist) && d.server.view.Some?
    && (e.Hydrate? || (e.On? && e.step.Ping? && e.step.node == id))
  }

  ghost predicate Located(events: seq<(Event, int)>, dist: (Point, Point) -> real, id: string) {
    exists i :: 0 <= i < |events| && Locates(Dashboard.Run(events[..i], dist), events[i].0, dist, id)
  }

  // The event tells it whether the ship is there: its socket opens or closes, it pings, or a snapshot lists it.
  ghost predicate Speaks(d: Watched, e: Event, dist: (Point, Point) -> real, id: string) {
    && Possible(d, e, dist) && d.server.view.Some?
    && match e
       case Packet(_) => false
       case Hydrate(_, _) => id in d.server.positions
       case On(step, _) =>
         match step
         case Connect(c) => c.node == id
         case Close(c) => c.node == id && Hub.Lookup(d.server.registry, c.session, id) == Some(c)
         case Ping(node, _) => node == id
         case _ => false
  }

  // Only a ping whose socket has closed meanwhile misleads.
  ghost predicate Truly(d: Watched, e: Event, id: string) {
    e.On? && e.step.Ping? ==> Online(d.server.registry, id).Some?
  }

  // The last it heard of the ship's presence was true.
  ghost predicate ToldTruly(events: seq<(Event, int)>, dist: (Point, Point) -> real, id: string) {
    exists i ::
      && 0 <= i < |events| && SpeaksAt(events, i, dist, id) && Truly(Dashboard.Run(events[..i], dist), events[i].0, id)
      && forall j :: i < j < |events| ==> !SpeaksAt(events, j, dist, id)
  }

  ghost predicate SpeaksAt(events: seq<(Event, int)>, i: int, dist: (Point, Point) -> real, id: string) {
    0 <= i < |events| && Speaks(Dashboard.Run(events[..i], dist), events[i].0, dist, id)
  }

  lemma LocatedStep(events: seq<(Event, int)>, dist: (Point, Point) -> real, id: string)
    requires |events| > 0
    ensures var n := |events| - 1;
      Located(events, dist, id)
      <==> Located(events[..n], dist, id) || Locates(Dashboard.Run(events[..n], dist), events[n].0, dist, id)
  {
    hide Locates, Dashboard.Run;
    var n := |events| - 1;
    var before := events[..n];
    forall i | 0 <= i < n ensures before[..i] == events[..i] && before[i] == events[i] { }
    if i :| 0 <= i < n && Locates(Dashboard.Run(before[..i], dist), before[i].0, dist, id) {
      assert Locates(Dashboard.Run(events[..i], dist), events[i].0, dist, id);
    }
  }

  lemma ToldStep(events: seq<(Event, int)>, dist: (Point, Point) -> real, id: string)
    requires |events| > 0
    ensures var n := |events| - 1;
      var d, e := Dashboard.Run(events[..n], dist), events[n].0;
      var told := ToldTruly(events[..n], dist, id);
      ToldTruly(events, dist, id) <==> if Speaks(d, e, dist, id) then Truly(d, e, id) else told
  {
    hide Speaks, Truly, Dashboard.Run;
    var n := |events| - 1;
    var before := events[..n];
    forall i | 0 <= i < n ensures before[..i] == events[..i] && before[i] == events[i] { }
    forall i | 0 <= i < n ensures SpeaksAt(events, i, dist, id) <==> SpeaksAt(before, i, dist, id) { }
    assert SpeaksAt(events, n, dist, id) <==> Speaks(Dashboard.Run(before, dist), events[n].0, dist, id);
    hide SpeaksAt;
  }

  // ---- Invariant -----------------------------------------------------------------------------------------

  ghost predicate Right(d: Watched, id: string, located: bool, told: bool) {
    && (d.server.view.None? ==> d.nodes == map[] && !located && !told)
    && if id in d.nodes
       then PlaceRight(d, id, located) && (d.nodes[id].online <==> Online(d.server.registry, id).Some? || !told)
       else !told && (located ==> id !in d.server.positions)
  }

  ghost predicate PlaceRight(d: Watched, id: string, located: bool)
    requires id in d.nodes
  {
    if located then id in d.server.positions ==> d.nodes[id].at == Some(d.server.positions[id])
    else d.nodes[id].at == None
  }

  // Nobody is registered under another session.
  ghost predicate OneSession(r: Hub.Registry<Hub.Conn>) {
    forall session, node :: Hub.Lookup(r, session, node).Some? ==> session == SESSION
  }

  lemma JoinedRegistry(s: State, c: Hub.Conn, id: string)
    requires OneSession(s.registry) && c.session == SESSION
    ensures OneSession(OnConnect(s, c).registry)
    ensures Online(OnConnect(s, c).registry, id) == if c.node == id then Some(c) else Online(s.registry, id)
    ensures OnConnect(s, c).positions == s.positions && OnConnect(s, c).view == s.view
  {
    var r := OnConnect(s, c).registry;
    forall session, node | Hub.Lookup(r, session, node).Some? ensures session == SESSION {
      Hub.RegisterLookup(s.registry, c.session, c.node, c, session, node);
    }
    Hub.RegisterLookup(s.registry, c.session, c.node, c, SESSION, id);
    hide Hub.Register, Hub.Lookup;
  }

  lemma LeftRegistry(s: State, c: Hub.Conn, id: string)
    requires OneSession(s.registry) && Hub.Lookup(s.registry, c.session, c.node) == Some(c)
    ensures OneSession(OnClose(s, c).registry)
    ensures Online(OnClose(s, c).registry, id) == if c.node == id then None else Online(s.registry, id)
    ensures OnClose(s, c).positions == s.positions - {c.node} && OnClose(s, c).view == s.view
  {
    var r := OnClose(s, c).registry;
    forall session, node | Hub.Lookup(r, session, node).Some? ensures session == SESSION {
      Hub.UnregisterLookup(s.registry, c.session, c.node, c, session, node);
    }
    Hub.UnregisterLookup(s.registry, c.session, c.node, c, SESSION, id);
    hide Hub.Unregister, Hub.Lookup;
  }

  lemma LateClose(s: State, c: Hub.Conn)
    requires Hub.Lookup(s.registry, c.session, c.node) != Some(c)
    ensures OnClose(s, c) == s
  {
  }

  // Rows leave places and presences alone; a ship they introduce is shown present, nowhere.
  lemma TakenRight(d: Watched, s: State, rows: seq<RouteEntry>, now: int, id: string, located: bool, told: bool)
    requires Right(d, id, located, told)
    requires s.registry == d.server.registry && s.positions == d.server.positions && s.view.Some?
    ensures Right(Take(d, s, d.nodes, rows, now), id, located, told)
  {
    hide T.Overwritten, Online, OneSession;
    Runs.OverwrittenShows(d.nodes, rows, now, id);
    if i :| Runs.LastRow(rows, i, id) { }
  }

  lemma HydrateRight(d: Watched, ships: seq<T.ShipInfo>, rows: seq<RouteEntry>, now: int, id: string, located: bool,
      told: bool)
    requires Right(d, id, located, told) && d.server.view.Some? && SnapshotOf(d.server, ships)
    ensures var d' := Take(d, d.server, T.Moved(d.nodes, ships, now), rows, now);
      Right(d', id, true, told || id in d.server.positions)
  {
    hide T.Overwritten, T.Moved, Online;
    Runs.MovedShows(d.nodes, ships, now, id);
    Listed(d.server, ships, id);
    var d1 := d.(nodes := T.Moved(d.nodes, ships, now));
    assert Right(d1, id, true, told || id in d.server.positions) by {
      if i :| Runs.LastShip(ships, i, id) { assert ships[i] in ships; }
    }
    hide Right;
    TakenRight(d1, d.server, rows, now, id, true, told || id in d.server.positions);
  }

  lemma Listed(s: State, ships: seq<T.ShipInfo>, id: string)
    requires SnapshotOf(s, ships)
    ensures id in s.positions <==> exists i :: Runs.LastShip(ships, i, id)
  {
    hide Online;
    if id in s.positions {
      var x := T.ShipInfo(id, s.positions[id], Online(s.registry, id).Some?);
      assert x in ships;
      var i :| 0 <= i < |ships| && ships[i] == x;
      LastListed(ships, i, id);
    }
    if i :| Runs.LastShip(ships, i, id) { assert ships[i] in ships; }
  }

  lemma {:induction false} LastListed(ships: seq<T.ShipInfo>, i: nat, id: string)
    requires i < |ships| && ships[i].id == id
    ensures exists j :: Runs.LastShip(ships, j, id)
    decreases |ships| - i
  {
    if j :| i < j < |ships| && ships[j].id == id {
      LastListed(ships, j, id);
    } else {
      assert Runs.LastShip(ships, i, id);
    }
  }

  ghost predicate Steady(d: Watched) { OneSession(d.server.registry) && Runs.OwnIds(d.nodes) }

  lemma EventRight(d: Watched, e: Event, now: int, dist: (Point, Point) -> real, id: string, located: bool, told: bool)
    requires Steady(d) && Right(d, id, located, told)
    ensures var d' := Dashboard.Next(d, e, now, dist);
      && OneSession(d'.server.registry)
      && Right(d', id, located || Locates(d, e, dist, id), if Speaks(d, e, dist, id) then Truly(d, e, id) else told)
  {
    hide T.Overwritten, T.Moved, Online, OneSession, Hub.Lookup, IsTopology, TableEvent, SnapshotOf, Pushes, Addressees,
         Broadcasts, Hub.Register, Hub.Unregister, OnConnect, OnClose;
    if Possible(d, e, dist) {
      match e
      case Packet(ev) =>
      case Hydrate(ships, rows) => if d.server.view.Some? { HydrateRight(d, ships, rows, now, id, located, told); }
      case On(step, rows) =>
        match step
        case Connect(c) => JoinedRegistry(d.server, c, id);
        case Close(c) =>
          if Hub.Lookup(d.server.registry, c.session, c.node) == Some(c) {
            LeftRegistry(d.server, c, id);
          } else {
            LateClose(d.server, c);
          }
        case Ping(node, at) =>
        case Watch => TakenRight(d, DistributionTheorems.Next(d.server, step, dist), rows, now, id, located, told);
        case Tick(live, edges, range, table) =>
          if d.server.view.Some? {
            TakenRight(d, DistributionTheorems.Next(d.server, step, dist), rows, now, id, located, told);
          }
    }
  }

  lemma {:induction false} AlwaysRight(events: seq<(Event, int)>, dist: (Point, Point) -> real, id: string)
    ensures Right(Dashboard.Run(events, dist), id, Located(events, dist, id), ToldTruly(events, dist, id))
    ensures OneSession(Dashboard.Run(events, dist).server.registry)
  {
    if |events| > 0 {
      hide Right, OneSession, Located, ToldTruly, Locates, Speaks, Truly, Dashboard.Next;
      var n := |events| - 1;
      AlwaysRight(events[..n], dist, id);
      OwnNodes(events[..n], dist);
      LocatedStep(events, dist, id);
      ToldStep(events, dist, id);
      var d := Dashboard.Run(events[..n], dist);
      EventRight(d, events[n].0, events[n].1, dist, id, Located(events[..n], dist, id),
        ToldTruly(events[..n], dist, id));
    }
  }

  lemma OwnNodes(events: seq<(Event, int)>, dist: (Point, Point) -> real)
    ensures Runs.OwnIds(Dashboard.Run(events, dist).nodes)
  {
    hide Dashboard.Run, Agreement, Shaped, ShowsAll;
    AlwaysFaithful(events, dist);
  }

  /** A connected dashboard shows a ship where the server has it exactly if a ping of that ship or a snapshot ever
      reached it; otherwise it shows the ship nowhere. */
  lemma PlaceShownIff(events: seq<(Event, int)>, dist: (Point, Point) -> real, id: string)
    requires var d := Dashboard.Run(events, dist); d.server.view.Some? && id in d.server.positions
    ensures var d := Dashboard.Run(events, dist);
      && (Located(events, dist, id) <==> id in d.nodes && d.nodes[id].at == Some(d.server.positions[id]))
      && (!Located(events, dist, id) && id in d.nodes ==> d.nodes[id].at == None)
  {
    hide Dashboard.Run, Located, ToldTruly, Online;
    AlwaysRight(events, dist, id);
  }

  /** It shows a ship present exactly if the ship is registered or the last it heard of its presence, if anything, was
      not true; so a ship it shows gone is not registered. */
  lemma PresenceShownIff(events: seq<(Event, int)>, dist: (Point, Point) -> real, id: string)
    requires var d := Dashboard.Run(events, dist); d.server.view.Some? && id in d.nodes
    ensures var d := Dashboard.Run(events, dist);
      d.nodes[id].online <==> Online(d.server.registry, id).Some? || !ToldTruly(events, dist, id)
  {
    hide Dashboard.Run, Located, ToldTruly, Online;
    AlwaysRight(events, dist, id);
  }

  // ---- A ship shown present that is gone ----------------------------------------------------------------

  // Ship A joins, pings, gets its route and leaves; the dashboard connects before the next tick.
  function Departure(): seq<(Event, int)> {
    [(On(Connect(SHIP), []), 0)] + [(On(Pinging(), []), 0)] + [(On(Ticking(), [ROW]), 0)] + [(On(Close(SHIP), []), 0)]
      + [(On(Watch, [ROW]), 0)]
  }

  lemma Departed(d: Watched)
    requires Dashboard.Aboard(d, SHIP, true) && d.server.table == RowAt(0.0) && d.server.view.None?
    ensures var d5 := Dashboard.Next(Dashboard.Next(d, On(Close(SHIP), []), 0, Along), On(Watch, [ROW]), 0, Along);
      && Online(d5.server.registry, "A") == None && d5.server.view.Some?
      && d5.nodes == T.Overwritten(d.nodes, [ROW], 0)
  {
    hide Pushes, Addressees, IsTopology, TableEvent, Hub.Unregister, Hub.Lookup, T.Overwritten;
    TableSent();
    var d4 := Dashboard.Next(d, On(Close(SHIP), []), 0, Along);
    Hub.UnregisterLookup(d.server.registry, SESSION, "A", SHIP, SESSION, "A");
    assert d4.server == OnClose(d.server, SHIP) && d4.nodes == d.nodes;
    assert Possible(d4, On(Watch, [ROW]), Along);
  }

  /** A run after which the dashboard shows a ship present, at no place, whose only socket has closed: the stored table
      it got on connecting still lists the ship. */
  lemma GoneShipShown()
    ensures var d := Dashboard.Run(Departure(), Along);
      && d.server.view.Some? && Online(d.server.registry, "A") == None
      && "A" in d.nodes && d.nodes["A"].online && d.nodes["A"].at == None
  {
    hide Dashboard.Run, Dashboard.Next, Online, Located, ToldTruly, PlaceRight;
    var e1 := [(On(Connect(SHIP), []), 0)];
    var e2 := e1 + [(On(Pinging(), []), 0)];
    var e3 := e2 + [(On(Ticking(), [ROW]), 0)];
    var e4 := e3 + [(On(Close(SHIP), []), 0)];
    assert [] + e1 == e1;
    Darkness();
    RunOn([], On(Connect(SHIP), []));
    RunOn(e1, On(Pinging(), []));
    RunOn(e2, On(Ticking(), [ROW]));
    RunOn(e3, On(Close(SHIP), []));
    RunOn(e4, On(Watch, [ROW]));
    Joined(DARK);
    AlwaysRight(e3, Along, "A");
    Departed(Dashboard.Run(e3, Along));
    assert Runs.LastRow([ROW], 0, "A");
    Runs.OverwrittenShows(map[], [ROW], 0, "A");
  }
}
