/** The six-router layout the fixed tie-off block of `test1_script.py` was
    written for: ids 0..5 placed row by row on a 2 x 3 grid, router `i` at
    `(i mod 2, i div 2)`. Node lists are left arbitrary. */
module Scenario {
  import opened Fabric
  import opened CoordLookup
  import opened Adjacency
  import opened Wiring
  import opened Grid
  import opened Termination
  import Test1Script

  /** The layout's top-left corner. */
  const Origin: Coord := Coord(0, 0)

  /** Position of each router, row by row. */
  const Positions: seq<Coord> := [Coord(0, 0), Coord(1, 0), Coord(0, 1), Coord(1, 1), Coord(0, 2), Coord(1, 2)]

  /** The router index of a grid position. */
  function Slot(c: Coord): int
  {
    2 * c.y + c.x
  }

  predicate IsLayout(routers: seq<Router>)
  {
    |routers| == 6 && forall i :: 0 <= i < 6 ==> routers[i].id == i && routers[i].coords == Positions[i]
  }

  /** `Slot` and `Positions` are inverse between `0..5` and the grid
      `0 <= x < 2, 0 <= y < 3`. */
  lemma SlotOfPosition(i: int)
    requires 0 <= i < 6
    ensures Slot(Positions[i]) == i
    ensures Positions[i] in Rect(Origin, 2, 3)
  {
    RectMember(Origin, 2, 3, Positions[i]);
    assert i == 0 || i == 1 || i == 2 || i == 3 || i == 4 || i == 5;
  }

  lemma PositionOfSlot(c: Coord)
    requires c in Rect(Origin, 2, 3)
    ensures 0 <= Slot(c) < 6 && Positions[Slot(c)] == c
  {
    RectMember(Origin, 2, 3, c);
    GridSlot(c.x, c.y);
  }

  lemma GridSlot(x: int, y: int)
    requires 0 <= x < 2 && 0 <= y < 3
    ensures 0 <= 2 * y + x < 6 && Positions[2 * y + x] == Coord(x, y)
  {
    if y == 0 {
      if x == 0 {} else {}
    } else if y == 1 {
      if x == 0 {} else {}
    } else {
      if x == 0 {} else {}
    }
  }

  lemma LayoutDistinct(routers: seq<Router>)
    requires IsLayout(routers)
    ensures DistinctPlacements(routers)
  {
    forall i, j | 0 <= i < j < |routers| ensures routers[i].coords != routers[j].coords {
      SlotOfPosition(i);
      SlotOfPosition(j);
    }
  }

  lemma GridCovered(routers: seq<Router>, c: Coord)
    requires IsLayout(routers)
    requires c in Rect(Origin, 2, 3)
    ensures c in Placements(routers)
  {
    PositionOfSlot(c);
    var i := Slot(c);
    assert routers[i] in routers && routers[i].coords == c;
  }

  lemma OnGrid(routers: seq<Router>, c: Coord)
    requires IsLayout(routers)
    requires c in Placements(routers)
    ensures c in Rect(Origin, 2, 3)
  {
    var r :| r in routers && r.coords == c;
    var i :| 0 <= i < 6 && routers[i] == r;
    SlotOfPosition(i);
  }

  lemma LayoutPlacements(routers: seq<Router>)
    requires IsLayout(routers)
    ensures DistinctPlacements(routers)
    ensures Placements(routers) == Rect(Origin, 2, 3)
  {
    LayoutDistinct(routers);
    forall c ensures c in Placements(routers) <==> c in Rect(Origin, 2, 3) {
      if c in Rect(Origin, 2, 3) { GridCovered(routers, c); }
      if c in Placements(routers) { OnGrid(routers, c); }
    }
  }

  /** The position `c` of the layout's lookup holds router `Slot(c)`, whose
      id is `Slot(c)`. */
  lemma LayoutAt(routers: seq<Router>, c: Coord)
    requires IsLayout(routers)
    requires c in Build(routers).table
    ensures c in Rect(Origin, 2, 3) && 0 <= Slot(c) < 6
    ensures Build(routers).table[c] == routers[Slot(c)]
    ensures Build(routers).table[c].id == Slot(c)
  {
    LayoutPlacements(routers);
    DistinctPlacementLookup(routers);
    PositionOfSlot(c);
    assert routers[Slot(c)].coords == c;
  }

  /** The lookup of the layout: the full 2 x 3 grid, router `i` at
      `Positions[i]`, ids unique. */
  lemma LayoutLookup(routers: seq<Router>)
    requires IsLayout(routers)
    ensures Build(routers).table.Keys == Rect(Origin, 2, 3)
    ensures forall c :: c in Build(routers).table ==> Build(routers).table[c].id == Slot(c)
    ensures UniqueIds(Build(routers))
  {
    var lk := Build(routers);
    LayoutPlacements(routers);
    forall c | c in lk.table ensures lk.table[c].id == Slot(c) {
      LayoutAt(routers, c);
    }
    forall c, c' | c in lk.table && c' in lk.table && lk.table[c].id == lk.table[c'].id ensures c == c' {
      PositionOfSlot(c);
      PositionOfSlot(c');
    }
  }

  /** Seven mesh links: `2 * (3 - 1) + 3 * (2 - 1)`. */
  lemma LayoutLinkCount(routers: seq<Router>)
    requires IsLayout(routers)
    ensures |Links(Build(routers), "mesh")| == 7
  {
    LayoutLookup(routers);
    FullGridLinkCount(routers, Origin, 2, 3);
  }

  /** The port groups of the layout with no neighbour: the eight groups of
      the tie-off block plus the west group of router 2 and the east group
      of router 3. */
  lemma OpenGroupsOfLayout(i: int, d: Dir)
    requires 0 <= i < 6
    ensures Step(Positions[i], d) !in Rect(Origin, 2, 3) <==>
              (i, d) in Test1Script.TiedGroups || (i, d) == (2, West) || (i, d) == (3, East)
  {
    RectMember(Origin, 2, 3, Step(Positions[i], d));
    assert Test1Script.TiedGroups ==
      [(0, North), (0, West), (1, North), (1, East), (4, South), (4, West), (5, South), (5, East)];
    if i == 0 {
    } else if i == 1 {
    } else if i == 2 {
    } else if i == 3 {
    } else if i == 4 {
    } else {
    }
  }

  /** An open group of the layout: router `i` has no neighbour in direction
      `d`. */
  predicate OpenOnLayout(i: int, d: Dir)
  {
    (i, d) in Test1Script.TiedGroups || (i, d) == (2, West) || (i, d) == (3, East)
  }

  lemma IntendedTieIsOpen(routers: seq<Router>, s: Signal)
    requires IsLayout(routers)
    requires s in IntendedTieOffs(Build(routers))
    ensures s.pol == In && OpenOnLayout(s.router, s.dir)
  {
    var lk := Build(routers);
    var c :| c in lk.table && lk.table[c].id == s.router && Step(c, s.dir) !in lk.table;
    LayoutLookup(routers);
    LayoutAt(routers, c);
    PositionOfSlot(c);
    OpenGroupsOfLayout(Slot(c), s.dir);
  }

  lemma OpenIsIntendedTie(routers: seq<Router>, s: Signal)
    requires IsLayout(routers)
    requires s.pol == In && OpenOnLayout(s.router, s.dir)
    ensures s in IntendedTieOffs(Build(routers))
  {
    var lk := Build(routers);
    var i := s.router;
    assert 0 <= i < 6 by {
      if (i, s.dir) in Test1Script.TiedGroups {
        var g :| 0 <= g < |Test1Script.TiedGroups| && Test1Script.TiedGroups[g] == (i, s.dir);
        assert g < 8;
      }
    }
    LayoutLookup(routers);
    OpenGroupsOfLayout(i, s.dir);
    SlotOfPosition(i);
    assert Positions[i] in lk.table;
    LayoutAt(routers, Positions[i]);
  }

  /** An input of router 2's west group or router 3's east group: the two
      groups that face no router but are missing from the tie-off block. */
  predicate Floating(s: Signal)
  {
    s.pol == In && ((s.router == 2 && s.dir == West) || (s.router == 3 && s.dir == East))
  }

  /** The inputs of open groups are the block's tie-offs and the floating
      inputs. */
  lemma OpenInputs(s: Signal)
    ensures s.pol == In && OpenOnLayout(s.router, s.dir) <==> s in Test1Script.TieOffs() || Floating(s)
  {
  }

  /** The inputs the general rule ties on this layout: those of the block,
      plus the two groups the block leaves out. */
  lemma IntendedTiesOnLayout(routers: seq<Router>)
    requires IsLayout(routers)
    ensures forall s :: s in IntendedTieOffs(Build(routers)) <==> s in Test1Script.TieOffs() || Floating(s)
  {
    forall s ensures s in IntendedTieOffs(Build(routers)) <==> s in Test1Script.TieOffs() || Floating(s) {
      OpenInputs(s);
      if s in IntendedTieOffs(Build(routers)) {
        IntendedTieIsOpen(routers, s);
      }
      if s.pol == In && OpenOnLayout(s.router, s.dir) {
        OpenIsIntendedTie(routers, s);
      }
    }
  }

  /** No tied signal is driven or read by a link assignment: every group in
      the tie-off block has no neighbour on this layout. */
  lemma TiesNeverAssigned(routers: seq<Router>)
    requires IsLayout(routers)
    ensures forall a, t :: a in Test1Script.Emit(routers, "mesh").assigns && t in Test1Script.Emit(routers, "mesh").ties ==>
              a.lhs != t && a.rhs != t
  {
    var lk := Build(routers);
    var e := Test1Script.Emit(routers, "mesh");
    LayoutLookup(routers);
    IntendedTiesDisjointFromMesh(lk);
    forall a, t | a in e.assigns && t in e.ties ensures a.lhs != t && a.rhs != t {
      OpenIsIntendedTie(routers, t);
    }
  }

  /** The tie-off block lists neither router 2's west group nor router 3's
      east group. */
  lemma BlockOmits()
    ensures (2, West) !in Test1Script.TiedGroups && (3, East) !in Test1Script.TiedGroups
  {
    assert Test1Script.TiedGroups ==
      [(0, North), (0, West), (1, North), (1, East), (4, South), (4, West), (5, South), (5, East)];
  }

  /** Router 2's west group and router 3's east group face no router. */
  lemma NoNeighbour(routers: seq<Router>)
    requires IsLayout(routers)
    ensures Step(Positions[2], West) !in Build(routers).table && Step(Positions[3], East) !in Build(routers).table
  {
    LayoutLookup(routers);
    RectMember(Origin, 2, 3, Step(Positions[2], West));
    RectMember(Origin, 2, 3, Step(Positions[3], East));
  }

  /** The block ties no floating input. */
  lemma FloatingUntied(routers: seq<Router>, s: Signal)
    requires Floating(s)
    ensures s !in Test1Script.Emit(routers, "mesh").ties
  {
    BlockOmits();
  }

  /** The general rule ties every floating input, so no link assignment
      drives one. */
  lemma FloatingUndriven(routers: seq<Router>, a: Alias, s: Signal)
    requires IsLayout(routers) && Floating(s)
    requires a in Test1Script.Emit(routers, "mesh").assigns
    ensures s in IntendedTieOffs(Build(routers))
    ensures a.lhs != s
  {
    OpenIsIntendedTie(routers, s);
    LayoutLookup(routers);
    IntendedTiesDisjointFromMesh(Build(routers));
  }

  lemma AllFloatingUntied(routers: seq<Router>)
    ensures forall s :: Floating(s) ==> s !in Test1Script.Emit(routers, "mesh").ties
  {
    forall s | Floating(s) ensures s !in Test1Script.Emit(routers, "mesh").ties {
      FloatingUntied(routers, s);
    }
  }

  lemma AllFloatingIntended(routers: seq<Router>)
    requires IsLayout(routers)
    ensures forall s :: Floating(s) ==> s in IntendedTieOffs(Build(routers))
  {
    forall s | Floating(s) ensures s in IntendedTieOffs(Build(routers)) {
      OpenIsIntendedTie(routers, s);
    }
  }

  lemma AllFloatingUndriven(routers: seq<Router>)
    requires IsLayout(routers)
    ensures forall a, s :: a in Test1Script.Emit(routers, "mesh").assigns && Floating(s) ==> a.lhs != s
  {
    forall a, s | a in Test1Script.Emit(routers, "mesh").assigns && Floating(s) ensures a.lhs != s {
      FloatingUndriven(routers, a, s);
    }
  }

  /** AS WRITTEN, the inputs of router 2's west group and router 3's east
      group face no router, are not tied and are never assigned, so they
      are left floating; the general rule would tie them. */
  lemma UntiedOpenGroups(routers: seq<Router>)
    requires IsLayout(routers)
    ensures Step(Positions[2], West) !in Build(routers).table && Step(Positions[3], East) !in Build(routers).table
    ensures forall s :: Floating(s) ==> s !in Test1Script.Emit(routers, "mesh").ties
    ensures forall s :: Floating(s) ==> s in IntendedTieOffs(Build(routers))
    ensures forall a, s :: a in Test1Script.Emit(routers, "mesh").assigns && Floating(s) ==> a.lhs != s
  {
    NoNeighbour(routers);
    AllFloatingUntied(routers);
    AllFloatingIntended(routers);
    AllFloatingUndriven(routers);
  }
}
