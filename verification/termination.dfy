/** A general tie-off rule: tie the `req_i` and `rsp_i` of every port group
    that has no neighbour, for any placement. This is the rule the fixed
    tie-off block of `test1_script.py` evidently stands for. */
module Termination {
  import opened Fabric
  import opened CoordLookup
  import opened Adjacency
  import opened Wiring

  /** The groups of position `c` with no occupied neighbour, in north,
      south, east, west order. */
  function OpenGroups(c: Coord, table: map<Coord, Router>): (ds: seq<Dir>)
    ensures forall d :: d in ds <==> Step(c, d) !in table
  {
    OpenGroupsCover(c, table);
    Open(c, table)
  }

  function Open(c: Coord, table: map<Coord, Router>): seq<Dir>
  {
    (if Step(c, North) !in table then [North] else [])
      + (if Step(c, South) !in table then [South] else [])
      + (if Step(c, East) !in table then [East] else [])
      + (if Step(c, West) !in table then [West] else [])
  }

  lemma OpenGroupsCover(c: Coord, table: map<Coord, Router>)
    ensures forall d :: d in Open(c, table) <==> Step(c, d) !in table
  {
    var ds := Open(c, table);
    forall d | Step(c, d) !in table ensures d in ds {
      if d == North { assert ds[0] == North; }
      else if d == West { assert ds[|ds| - 1] == West; }
    }
  }

  /** The two inputs of each listed group of router `id`. */
  function GroupInputs(id: int, ds: seq<Dir>): (ts: seq<Signal>)
    ensures forall s :: s in ts <==> s.router == id && s.pol == In && s.dir in ds
  {
    if |ds| == 0 then []
    else
      var rest := GroupInputs(id, ds[1..]);
      assert forall d :: d in ds <==> d == ds[0] || d in ds[1..] by {
        assert ds == [ds[0]] + ds[1..];
      }
      PairInputs(id, ds[0]);
      [Signal(id, ds[0], Req, In), Signal(id, ds[0], Rsp, In)] + rest
  }

  lemma PairInputs(id: int, d: Dir)
    ensures forall s: Signal :: s in [Signal(id, d, Req, In), Signal(id, d, Rsp, In)] <==>
              s.router == id && s.pol == In && s.dir == d
  {
    forall s: Signal | s.router == id && s.pol == In && s.dir == d
      ensures s in [Signal(id, d, Req, In), Signal(id, d, Rsp, In)]
    {
      if s.chan == Req { assert s == Signal(id, d, Req, In); } else { assert s == Signal(id, d, Rsp, In); }
    }
  }

  /** The tie-offs for the routers at `keys`, in key order. */
  function KeyTies(keys: seq<Coord>, table: map<Coord, Router>): (ts: seq<Signal>)
    requires forall c :: c in keys ==> c in table
    ensures forall s :: s in ts <==>
              s.pol == In && exists c :: c in keys && table[c].id == s.router && Step(c, s.dir) !in table
  {
    if |keys| == 0 then []
    else
      var c := keys[0];
      var here := GroupInputs(table[c].id, OpenGroups(c, table));
      var rest := KeyTies(keys[1..], table);
      assert forall k :: k in keys <==> k == c || k in keys[1..] by {
        assert keys == [c] + keys[1..];
      }
      here + rest
  }

  /** The intended tie-offs of a whole lookup. */
  function IntendedTieOffs(lk: Lookup): (ts: seq<Signal>)
    requires Valid(lk)
    ensures forall s :: s in ts <==>
              s.pol == In && exists c :: c in lk.table && lk.table[c].id == s.router && Step(c, s.dir) !in lk.table
  {
    KeyTies(lk.keys, lk.table)
  }

  /** No two held routers share an id. */
  predicate UniqueIds(lk: Lookup)
  {
    forall c, c' :: c in lk.table && c' in lk.table && lk.table[c].id == lk.table[c'].id ==> c == c'
  }

  /** With unique ids the intended tie-offs never touch a signal that the
      mesh wiring assigns, on either side, for any placement. */
  lemma IntendedTiesDisjointFromMesh(lk: Lookup)
    requires Valid(lk) && UniqueIds(lk)
    ensures Resolvable(lk, Links(lk, "mesh"))
    ensures forall a, t :: a in Assignments(lk, Links(lk, "mesh")) && t in IntendedTieOffs(lk) ==>
              a.lhs != t && a.rhs != t
  {
    MeshWiringFaces(lk);
    forall a, t | a in Assignments(lk, Links(lk, "mesh")) && t in IntendedTieOffs(lk)
      ensures a.lhs != t && a.rhs != t
    {
      var c :| c in lk.table && lk.table[c].id == t.router && Step(c, t.dir) !in lk.table;
      forall c' | c' in lk.table && lk.table[c'].id == t.router ensures Step(c', t.dir) !in lk.table {
        assert c' == c;
      }
      assert !Faces(lk, t);
    }
  }

  /** Input `(d, ch)` of the router at `c` is driven by an intended
      assignment of a mesh link when `c` has a neighbour in direction `d`. */
  lemma NeighbourDrives(lk: Lookup, c: Coord, d: Dir, ch: Channel)
    requires Valid(lk) && c in lk.table && Step(c, d) in lk.table
    ensures Resolvable(lk, Links(lk, "mesh"))
    ensures exists a :: a in IntendedAssignments(lk, Links(lk, "mesh")) && a.lhs == Signal(lk.table[c].id, d, ch, In)
  {
    var links := Links(lk, "mesh");
    MeshRule(lk);
    var n := Step(c, d);
    var s := Signal(lk.table[c].id, d, ch, In);
    match d
    case East =>
      var l := Link(c, n, Horizontal);
      MeshOrientation(l);
      var a := Alias(s, Signal(lk.table[n].id, West, ch, Out));
      IntendedCovers(lk, links, l, a);
    case South =>
      var l := Link(c, n, Vertical);
      MeshOrientation(l);
      var a := Alias(s, Signal(lk.table[n].id, North, ch, Out));
      IntendedCovers(lk, links, l, a);
    case West =>
      assert Step(n, East) == c;
      var l := Link(n, c, Horizontal);
      MeshOrientation(l);
      var a := Alias(s, Signal(lk.table[n].id, East, ch, Out));
      IntendedCovers(lk, links, l, a);
    case North =>
      assert Step(n, South) == c;
      var l := Link(n, c, Vertical);
      MeshOrientation(l);
      var a := Alias(s, Signal(lk.table[n].id, South, ch, Out));
      IntendedCovers(lk, links, l, a);
  }

  /** With the corrected wiring and the general tie-off rule, every input of
      every held router is either tied off or driven by a mesh assignment,
      for any placement. */
  lemma EveryInputTerminated(lk: Lookup, c: Coord, d: Dir, ch: Channel)
    requires Valid(lk) && c in lk.table
    ensures Resolvable(lk, Links(lk, "mesh"))
    ensures Signal(lk.table[c].id, d, ch, In) in IntendedTieOffs(lk) ||
            exists a :: a in IntendedAssignments(lk, Links(lk, "mesh")) && a.lhs == Signal(lk.table[c].id, d, ch, In)
  {
    LinksResolvable(lk, "mesh");
    if Step(c, d) in lk.table {
      NeighbourDrives(lk, c, d, ch);
    }
  }
}
