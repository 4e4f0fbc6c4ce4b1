/** What the dashboard shows of a ship after any run of messages: on each matter, the last word it had. */
module TopologyRuns {
  import opened MeshGraph
  import opened Protocol
  import opened TopologyStore

  // ---- Words -----------------------------------------------------------------------------------------

  datatype Matter = Place | Presence | Route | Mark

  datatype Fact = Nowhere | IsAt(at: Point) | IsOnline(online: bool) | IsRetrying(retrying: bool)
                | HasRoute(parent: Option<string>, parentIsEdge: bool, distance: real, hop: int, status: Status)

  function MatterOf(f: Fact): Matter {
    match f
    case Nowhere => Place case IsAt(_) => Place case IsOnline(_) => Matter.Presence case IsRetrying(_) => Mark
    case HasRoute(_, _, _, _, _) => Route
  }

  // What a ship's node shows.
  function Shown(n: ShipNode, m: Matter): Fact {
    match m
    case Place => (match n.at case None => Nowhere case Some(p) => IsAt(p))
    case Presence => IsOnline(n.online)
    case Route => HasRoute(n.parent, n.parentIsEdge, n.distance, n.hop, n.status)
    case Mark => IsRetrying(n.retrying)
  }

  // A ship nothing was said of on the matter.
  function Blank(m: Matter): Fact {
    match m
    case Place => Nowhere case Presence => IsOnline(true) case Mark => IsRetrying(false)
    case Route => HasRoute(None, false, 0.0, 0, Isolated)
  }

  // Whom a packet event marks: the ship still waiting for an ACK, or the one whose wait is over.
  predicate Marks(ev: PacketEvent, id: string, retrying: bool) {
    && id != ""
    && match ev.kind
       case DropEvent => ev.from == id && retrying case DuplicateEvent => ev.from == id && retrying
       case AckDropEvent => ev.to == id && retrying
       case ForwardEvent => ev.from == id && !retrying case DeliverEvent => ev.from == id && !retrying
       case AckEvent => ev.to == id && !retrying
       case _ => false
  }

  predicate LastShip(ships: seq<ShipInfo>, i: int, id: string) {
    0 <= i < |ships| && ships[i].id == id && forall j :: i < j < |ships| ==> ships[j].id != id
  }

  predicate LastRow(rows: seq<RouteEntry>, i: int, id: string) {
    0 <= i < |rows| && rows[i].node == id && forall j :: i < j < |rows| ==> rows[j].node != id
  }

  function RouteIn(r: RouteEntry): Fact {
    HasRoute(if r.parent == "" then None else Some(r.parent), r.parentIsEdge, r.distance, r.hop, r.status)
  }

  ghost predicate ShipsSay(ships: seq<ShipInfo>, id: string, f: Fact) {
    exists i :: LastShip(ships, i, id) && (f == IsAt(ships[i].at) || f == IsOnline(ships[i].online))
  }

  ghost predicate RowsSay(rows: seq<RouteEntry>, id: string, f: Fact) {
    exists i :: LastRow(rows, i, id) && (f == RouteIn(rows[i]) || f == IsRetrying(false))
  }

  // What an action says of a ship: a ping its place and that it is there, a presence message that it is there or gone
  // with its route and its wait, a snapshot its place and presence, a row its route, a packet event its wait.
  ghost predicate Says(a: Action, id: string, f: Fact) {
    match a
    case Position(i, at) => i == id && (f == IsAt(at) || f == IsOnline(true))
    case Presence(i, online) =>
      i == id && (f == IsOnline(online) || (!online && (f == Blank(Route) || f == IsRetrying(false))))
    case Snapshot(ships, rows) => ShipsSay(ships, id, f) || RowsSay(rows, id, f)
    case RoutingTable(rows) => RowsSay(rows, id, f)
    case Packet(ev) => f.IsRetrying? && Marks(ev, id, f.retrying)
    case Clear => false
  }

  // Packet events about a ship the dashboard does not know go unheard.
  ghost predicate Heard(actions: seq<(Action, int)>, i: int, id: string, f: Fact) {
    && 0 <= i < |actions| && Says(actions[i].0, id, f)
    && (actions[i].0.Packet? ==> id in Run(actions[..i]))
  }

  ghost predicate Spoken(actions: seq<(Action, int)>, i: int, id: string, m: Matter) {
    exists f :: MatterOf(f) == m && Heard(actions, i, id, f)
  }

  ghost predicate LastWord(actions: seq<(Action, int)>, i: int, id: string, f: Fact) {
    && Heard(actions, i, id, f)
    && forall j :: i < j < |actions| ==> !actions[j].0.Clear? && !Spoken(actions, j, id, MatterOf(f))
  }

  // ---- One action --------------------------------------------------------------------------------------

  ghost predicate OwnIds(nodes: Nodes) { forall id :: id in nodes ==> nodes[id].id == id }

  lemma {:induction false} MovedShows(nodes: Nodes, ships: seq<ShipInfo>, now: int, id: string)
    ensures var m := Moved(nodes, ships, now);
      && (forall i :: LastShip(ships, i, id) ==>
            id in m && m[id] == KnownOrBlank(nodes, id, now).(at := Some(ships[i].at), online := ships[i].online))
      && ((forall i :: !LastShip(ships, i, id)) ==> (id in m <==> id in nodes) && (id in m ==> m[id] == nodes[id]))
  {
    if |ships| > 0 {
      var n := |ships| - 1;
      MovedShows(nodes, ships[..n], now, id);
      if ships[n].id == id {
        assert LastShip(ships, n, id);
      } else {
        forall i ensures LastShip(ships, i, id) <==> LastShip(ships[..n], i, id) { }
      }
    }
  }

  lemma {:induction false} OverwrittenShows(nodes: Nodes, rows: seq<RouteEntry>, now: int, id: string)
    ensures var m := Overwritten(nodes, rows, now);
      && (forall i :: LastRow(rows, i, id) ==> id in m && m[id] == WithRoute(KnownOrBlank(nodes, id, now), rows[i]))
      && ((forall i :: !LastRow(rows, i, id)) ==> (id in m <==> id in nodes) && (id in m ==> m[id] == nodes[id]))
  {
    if |rows| > 0 {
      var n := |rows| - 1;
      OverwrittenShows(nodes, rows[..n], now, id);
      if rows[n].node == id {
        assert LastRow(rows, n, id);
      } else {
        forall i ensures LastRow(rows, i, id) <==> LastRow(rows[..n], i, id) { }
      }
    }
  }

  ghost predicate Knows(nodes: Nodes, id: string, f: Fact) { id in nodes && Shown(nodes[id], MatterOf(f)) == f }

  // What a list of ships or rows leaves shown of one of them.
  lemma MovedSays(nodes: Nodes, ships: seq<ShipInfo>, now: int, id: string, f: Fact)
    ensures var m := Moved(nodes, ships, now);
      && (ShipsSay(ships, id, f) ==> Knows(m, id, f))
      && ((forall g :: MatterOf(g) == MatterOf(f) ==> !ShipsSay(ships, id, g)) ==>
            Kept(nodes, m, id, MatterOf(f)))
  {
    hide Moved;
    MovedShows(nodes, ships, now, id);
    if i :| LastShip(ships, i, id) {
      assert ShipsSay(ships, id, IsAt(ships[i].at)) && ShipsSay(ships, id, IsOnline(ships[i].online));
      forall j | LastShip(ships, j, id) ensures j == i { }
    }
  }

  lemma OverwrittenSays(nodes: Nodes, rows: seq<RouteEntry>, now: int, id: string, f: Fact)
    ensures var m := Overwritten(nodes, rows, now);
      && (RowsSay(rows, id, f) ==> Knows(m, id, f))
      && ((forall g :: MatterOf(g) == MatterOf(f) ==> !RowsSay(rows, id, g)) ==>
            Kept(nodes, m, id, MatterOf(f)))
  {
    hide Overwritten;
    OverwrittenShows(nodes, rows, now, id);
    if i :| LastRow(rows, i, id) {
      assert RowsSay(rows, id, RouteIn(rows[i])) && RowsSay(rows, id, IsRetrying(false));
      forall j | LastRow(rows, j, id) ensures j == i { }
    }
  }

  // On the matter a known ship shows the same as before, and one that is new is blank.
  ghost predicate Kept(nodes: Nodes, nodes': Nodes, id: string, m: Matter) {
    && (id in nodes ==> id in nodes')
    && (id in nodes' ==> Shown(nodes'[id], m) == if id in nodes then Shown(nodes[id], m) else Blank(m))
  }

  ghost predicate SaysAny(a: Action, id: string, m: Matter) { exists f :: MatterOf(f) == m && Says(a, id, f) }

  lemma SnapshotSays(nodes: Nodes, ships: seq<ShipInfo>, rows: seq<RouteEntry>, now: int, id: string, f: Fact)
    ensures var m := Overwritten(Moved(nodes, ships, now), rows, now);
      && (ShipsSay(ships, id, f) || RowsSay(rows, id, f) ==> Knows(m, id, f))
      && ((forall g :: MatterOf(g) == MatterOf(f) ==> !ShipsSay(ships, id, g) && !RowsSay(rows, id, g)) ==>
            Kept(nodes, m, id, MatterOf(f)))
  {
    hide Moved, Overwritten, Shown, Blank;
    MovedSays(nodes, ships, now, id, f);
    OverwrittenSays(Moved(nodes, ships, now), rows, now, id, f);
    SeparateMatters(ships, rows, id, f);
  }

  lemma SeparateMatters(ships: seq<ShipInfo>, rows: seq<RouteEntry>, id: string, f: Fact)
    ensures ShipsSay(ships, id, f) ==> MatterOf(f) in {Place, Matter.Presence}
    ensures RowsSay(rows, id, f) ==> MatterOf(f) in {Route, Mark}
    ensures MatterOf(f) in {Place, Matter.Presence} ==> forall g :: MatterOf(g) == MatterOf(f) ==> !RowsSay(rows, id, g)
    ensures MatterOf(f) in {Route, Mark} ==> forall g :: MatterOf(g) == MatterOf(f) ==> !ShipsSay(ships, id, g)
  {
  }

  lemma PingSays(nodes: Nodes, i: string, at: Point, now: int, id: string, f: Fact)
    ensures var m := Pinged(nodes, i, at, now);
      && (Says(Position(i, at), id, f) ==> Knows(m, id, f))
      && (!SaysAny(Position(i, at), id, MatterOf(f)) ==> Kept(nodes, m, id, MatterOf(f)))
  {
    assert Says(Position(i, at), i, IsAt(at)) && Says(Position(i, at), i, IsOnline(true));
    hide SaysAny;
    Unsaid(Position(i, at), i, IsAt(at));
    Unsaid(Position(i, at), i, IsOnline(true));
  }

  lemma Unsaid(a: Action, id: string, g: Fact)
    requires Says(a, id, g)
    ensures SaysAny(a, id, MatterOf(g))
  {
  }

  lemma PresenceSays(nodes: Nodes, i: string, online: bool, now: int, id: string, f: Fact)
    ensures var m := OnlineSet(nodes, i, online, now);
      && (Says(Action.Presence(i, online), id, f) ==> Knows(m, id, f))
      && (!SaysAny(Action.Presence(i, online), id, MatterOf(f)) ==> Kept(nodes, m, id, MatterOf(f)))
  {
    var a := Action.Presence(i, online);
    Unsaid(a, i, IsOnline(online));
    if !online {
      Unsaid(a, i, Blank(Route));
      Unsaid(a, i, IsRetrying(false));
    }
    hide SaysAny;
  }

  lemma PacketSays(nodes: Nodes, ev: PacketEvent, now: int, id: string, f: Fact)
    requires OwnIds(nodes)
    ensures var m := Linked(nodes, ev, now);
      && (Says(Packet(ev), id, f) && id in nodes ==> Knows(m, id, f))
      && (!SaysAny(Packet(ev), id, MatterOf(f)) || id !in nodes ==> Kept(nodes, m, id, MatterOf(f)))
  {
    var c := Concerns(ev);
    if c.Some? && c.value.0 == id && id != "" {
      assert Marks(ev, id, c.value.1);
      Unsaid(Packet(ev), id, IsRetrying(c.value.1));
    }
    hide SaysAny;
  }

  lemma ActionSays(nodes: Nodes, a: Action, now: int, id: string, f: Fact)
    requires OwnIds(nodes)
    ensures Says(a, id, f) && (a.Packet? ==> id in nodes) ==> Knows(Apply(nodes, a, now), id, f)
    ensures !a.Clear? && (!SaysAny(a, id, MatterOf(f)) || (a.Packet? && id !in nodes)) ==>
      Kept(nodes, Apply(nodes, a, now), id, MatterOf(f))
  {
    hide OwnIds, Knows, Kept, Pinged, OnlineSet, Linked, Moved, Overwritten;
    match a
    case Position(i, at) => PingSays(nodes, i, at, now, id, f); hide Says, SaysAny;
    case Presence(i, online) => PresenceSays(nodes, i, online, now, id, f); hide Says, SaysAny;
    case Packet(ev) => PacketSays(nodes, ev, now, id, f); hide Says, SaysAny;
    case Snapshot(ships, rows) =>
      SnapshotSays(nodes, ships, rows, now, id, f);
      SaidInSnapshot(ships, rows, id, MatterOf(f));
    case RoutingTable(rows) => OverwrittenSays(nodes, rows, now, id, f); SaidInTable(rows, id, MatterOf(f));
    case Clear =>
  }

  lemma SaidInSnapshot(ships: seq<ShipInfo>, rows: seq<RouteEntry>, id: string, m: Matter)
    ensures !SaysAny(Snapshot(ships, rows), id, m) ==>
      forall g :: MatterOf(g) == m ==> !ShipsSay(ships, id, g) && !RowsSay(rows, id, g)
  {
    hide ShipsSay, RowsSay;
    forall g | MatterOf(g) == m && (ShipsSay(ships, id, g) || RowsSay(rows, id, g))
      ensures SaysAny(Snapshot(ships, rows), id, m)
    {
      assert Says(Snapshot(ships, rows), id, g);
    }
  }

  lemma SaidInTable(rows: seq<RouteEntry>, id: string, m: Matter)
    ensures !SaysAny(RoutingTable(rows), id, m) ==> forall g :: MatterOf(g) == m ==> !RowsSay(rows, id, g)
  {
    hide RowsSay;
    forall g | MatterOf(g) == m && RowsSay(rows, id, g) ensures SaysAny(RoutingTable(rows), id, m) {
      assert Says(RoutingTable(rows), id, g);
    }
  }

  lemma {:induction false} MovedOwn(nodes: Nodes, ships: seq<ShipInfo>, now: int)
    requires OwnIds(nodes)
    ensures OwnIds(Moved(nodes, ships, now))
  {
    if |ships| > 0 { MovedOwn(nodes, ships[..|ships| - 1], now); }
  }

  lemma {:induction false} OverwrittenOwn(nodes: Nodes, rows: seq<RouteEntry>, now: int)
    requires OwnIds(nodes)
    ensures OwnIds(Overwritten(nodes, rows, now))
  {
    if |rows| > 0 { OverwrittenOwn(nodes, rows[..|rows| - 1], now); }
  }

  lemma {:induction false} AlwaysOwnIds(actions: seq<(Action, int)>)
    ensures OwnIds(Run(actions))
  {
    if |actions| > 0 {
      var nodes, now := Run(actions[..|actions| - 1]), actions[|actions| - 1].1;
      AlwaysOwnIds(actions[..|actions| - 1]);
      match actions[|actions| - 1].0
      case Snapshot(ships, rows) => MovedOwn(nodes, ships, now); OverwrittenOwn(Moved(nodes, ships, now), rows, now);
      case RoutingTable(rows) => OverwrittenOwn(nodes, rows, now);
      case _ =>
    }
  }

  // ---- Whole runs ----------------------------------------------------------------------------------------

  lemma LastStep(actions: seq<(Action, int)>, id: string, f: Fact)
    requires |actions| > 0
    ensures var n := |actions| - 1;
      && (Heard(actions, n, id, f) ==> Knows(Run(actions), id, f))
      && (!actions[n].0.Clear? && !Spoken(actions, n, id, MatterOf(f)) ==>
            Kept(Run(actions[..n]), Run(actions), id, MatterOf(f)))
  {
    hide OwnIds, Knows, Kept, Says, Apply;
    var n := |actions| - 1;
    AlwaysOwnIds(actions[..n]);
    ActionSays(Run(actions[..n]), actions[n].0, actions[n].1, id, f);
    if SaysAny(actions[n].0, id, MatterOf(f)) && (actions[n].0.Packet? ==> id in Run(actions[..n])) {
      var g :| MatterOf(g) == MatterOf(f) && Says(actions[n].0, id, g);
      assert Heard(actions, n, id, g);
    }
  }

  lemma Earlier(actions: seq<(Action, int)>, i: int, id: string, f: Fact)
    requires |actions| > 0
    ensures var n := |actions| - 1;
      i < n ==> (Heard(actions, i, id, f) <==> Heard(actions[..n], i, id, f))
  {
    hide Says, Run;
    var n := |actions| - 1;
    if 0 <= i < n { assert actions[..n][..i] == actions[..i]; }
  }

  lemma EarlierWord(actions: seq<(Action, int)>, i: int, id: string, f: Fact)
    requires 0 <= i < |actions| - 1
    requires !actions[|actions| - 1].0.Clear? && !Spoken(actions, |actions| - 1, id, MatterOf(f))
    ensures LastWord(actions, i, id, f) <==> LastWord(actions[..|actions| - 1], i, id, f)
  {
    hide Heard;
    var n := |actions| - 1;
    forall j, g | j < n
      ensures Heard(actions, j, id, g) <==> Heard(actions[..n], j, id, g)
    {
      Earlier(actions, j, id, g);
    }
    Earlier(actions, i, id, f);
    forall j | j < n ensures Spoken(actions, j, id, MatterOf(f)) <==> Spoken(actions[..n], j, id, MatterOf(f)) {
      if g :| MatterOf(g) == MatterOf(f) && Heard(actions, j, id, g) { assert Heard(actions[..n], j, id, g); }
      if g :| MatterOf(g) == MatterOf(f) && Heard(actions[..n], j, id, g) { assert Heard(actions, j, id, g); }
    }
    hide Spoken;
    if LastWord(actions, i, id, f) {
      forall j | i < j < n ensures !actions[..n][j].0.Clear? && !Spoken(actions[..n], j, id, MatterOf(f)) {
        assert !actions[j].0.Clear? && !Spoken(actions, j, id, MatterOf(f));
      }
    }
    if LastWord(actions[..n], i, id, f) {
      forall j | i < j < n ensures !actions[j].0.Clear? && !Spoken(actions, j, id, MatterOf(f)) {
        assert !actions[..n][j].0.Clear? && !Spoken(actions[..n], j, id, MatterOf(f));
      }
    }
  }

  /** On every matter a ship shows the last word heard of it. */
  lemma {:induction false} LastWordShown(actions: seq<(Action, int)>, i: int, id: string, f: Fact)
    requires LastWord(actions, i, id, f)
    ensures id in Run(actions) && Shown(Run(actions)[id], MatterOf(f)) == f
  {
    hide Heard, Spoken, Run, Shown, Blank;
    InRun(actions, i, id, f);
    var n := |actions| - 1;
    LastStep(actions, id, f);
    if i < n {
      EarlierWord(actions, i, id, f);
      LastWordShown(actions[..n], i, id, f);
    }
  }

  lemma InRun(actions: seq<(Action, int)>, i: int, id: string, f: Fact)
    requires LastWord(actions, i, id, f)
    ensures 0 <= i < |actions|
  {
    hide Says, Run;
  }

  /** And where none was heard since the last reset it shows a blank: no place, no route, present, not waiting. */
  lemma {:induction false} NoWordNoFact(actions: seq<(Action, int)>, id: string, m: Matter)
    requires id in Run(actions)
    requires forall i, f :: MatterOf(f) == m ==> !LastWord(actions, i, id, f)
    ensures Shown(Run(actions)[id], m) == Blank(m)
  {
    if |actions| > 0 {
      hide Heard, Shown, Blank, Apply;
      var n := |actions| - 1;
      if actions[n].0.Clear? { ClearEmpties(actions); }
      hide Run;
      if Spoken(actions, n, id, m) {
        var f :| MatterOf(f) == m && Heard(actions, n, id, f);
        FinalWord(actions, id, f);
      }
      forall f | MatterOf(f) == m ensures Kept(Run(actions[..n]), Run(actions), id, m) { LastStep(actions, id, f); }
      assert MatterOf(Blank(m)) == m by { BlankIs(m); }
      if id in Run(actions[..n]) {
        forall i, f | MatterOf(f) == m ensures !LastWord(actions[..n], i, id, f) {
          if LastWord(actions[..n], i, id, f) {
            InRun(actions[..n], i, id, f);
            EarlierWord(actions, i, id, f);
          }
        }
        NoWordNoFact(actions[..n], id, m);
      }
    }
  }

  lemma FinalWord(actions: seq<(Action, int)>, id: string, f: Fact)
    requires Heard(actions, |actions| - 1, id, f)
    ensures LastWord(actions, |actions| - 1, id, f)
  {
    hide Heard, Spoken;
  }

  lemma BlankIs(m: Matter)
    ensures MatterOf(Blank(m)) == m
  {
  }

  lemma ClearEmpties(actions: seq<(Action, int)>)
    requires |actions| > 0 && actions[|actions| - 1].0.Clear?
    ensures Run(actions) == map[]
  {
  }
}
