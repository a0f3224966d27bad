/** Per-link signal assignments of `test1_script.py` and `test_script.py`.
    Both templates test `src_x < dst_x`, `src_x > dst_x`, `src_y < dst_y`,
    `src_y > dst_y` in that order and, for the first true test, emit four
    assignments between the source's port group facing the destination and
    the destination's opposite port group. They differ only in how a signal
    is written (a flat wire name or a hierarchical instance port). */
module Wiring {
  import opened Fabric
  import opened CoordLookup
  import opened Adjacency
  import opened CoordOrder

  /** A continuous assignment `assign <lhs> = <rhs>;`. */
  datatype Alias = Alias(lhs: Signal, rhs: Signal)

  /** The port group used at the source and at the destination, chosen by
      the first true comparison; none for a link from a position to itself. */
  function Orientation(src: Coord, dst: Coord): (o: Option<(Dir, Dir)>)
    ensures o.None? <==> src == dst
    ensures o.Some? ==> o.value.1 == Opposite(o.value.0)
    ensures o == Some((East, West)) <==> src.x < dst.x
    ensures o == Some((West, East)) <==> src.x > dst.x
    ensures o == Some((South, North)) <==> src.x == dst.x && src.y < dst.y
    ensures o == Some((North, South)) <==> src.x == dst.x && src.y > dst.y
  {
    if src.x < dst.x then Some((East, West))
    else if src.x > dst.x then Some((West, East))
    else if src.y < dst.y then Some((South, North))
    else if src.y > dst.y then Some((North, South))
    else None
  }

  /** The four assignments for a link whose source uses port group `d` and
      whose destination uses the opposite group, as the templates write them. */
  function LinkAliases(srcId: int, dstId: int, d: Dir): (r: seq<Alias>)
    ensures |r| == 4
    ensures forall a :: a in r ==> Mirrored(a) && Across(a, srcId, dstId, d)
  {
    var e := Opposite(d);
    [ Alias(Signal(srcId, d, Req, Out), Signal(dstId, e, Req, In)),
      Alias(Signal(srcId, d, Rsp, In), Signal(dstId, e, Rsp, Out)),
      Alias(Signal(dstId, e, Req, Out), Signal(srcId, d, Req, In)),
      Alias(Signal(dstId, e, Rsp, In), Signal(srcId, d, Rsp, Out)) ]
  }

  /** The two sides of an assignment use opposite port groups, the same
      channel and opposite `_o`/`_i` suffixes. */
  predicate Mirrored(a: Alias)
  {
    && a.lhs.dir == Opposite(a.rhs.dir)
    && a.lhs.chan == a.rhs.chan
    && a.lhs.pol == Flip(a.rhs.pol)
  }

  /** One side of the assignment is router `srcId` at group `d`, the other
      router `dstId` at the opposite group. */
  predicate Across(a: Alias, srcId: int, dstId: int, d: Dir)
  {
    || (a.lhs.router == srcId && a.lhs.dir == d && a.rhs.router == dstId && a.rhs.dir == Opposite(d))
    || (a.lhs.router == dstId && a.lhs.dir == Opposite(d) && a.rhs.router == srcId && a.rhs.dir == d)
  }

  /** Every assignment of a link joins the link's two routers through facing
      port groups, on the same channel, with opposite suffixes. */
  lemma LinkAliasesShape(srcId: int, dstId: int, d: Dir)
    ensures |LinkAliases(srcId, dstId, d)| == 4
    ensures forall a :: a in LinkAliases(srcId, dstId, d) ==>
              Mirrored(a) && Across(a, srcId, dstId, d)
    ensures srcId != dstId ==> forall a :: a in LinkAliases(srcId, dstId, d) ==> a.lhs.router != a.rhs.router
  {
  }

  /** The assignments of one link, with router ids read through the lookup. */
  function LinkWiring(lk: Lookup, l: Link): (r: seq<Alias>)
    requires l.src in lk.table && l.dst in lk.table
    ensures |r| == if l.src == l.dst then 0 else 4
  {
    match Orientation(l.src, l.dst)
    case None => []
    case Some(o) => LinkAliases(lk.table[l.src].id, lk.table[l.dst].id, o.0)
  }

  predicate Resolvable(lk: Lookup, links: seq<Link>)
  {
    forall l :: l in links ==> l.src in lk.table && l.dst in lk.table
  }

  /** Every link of any topology joins two occupied positions, so the
      template's lookups of both ends by position always succeed. */
  lemma LinksResolvable(lk: Lookup, topology: string)
    requires Valid(lk)
    ensures Resolvable(lk, Links(lk, topology))
  {
    if topology == "ring" {
      var s := Sort(lk.keys);
      assert forall c :: c in s ==> c in lk.keys by {
        forall c | c in s ensures c in lk.keys {
          assert c in multiset(s);
        }
      }
    }
  }

  /** Number of links whose endpoints differ. */
  function ProperLinks(links: seq<Link>): nat
  {
    if |links| == 0 then 0
    else (if links[0].src != links[0].dst then 1 else 0) + ProperLinks(links[1..])
  }

  /** The template loop over all links. */
  function Assignments(lk: Lookup, links: seq<Link>): (r: seq<Alias>)
    requires Resolvable(lk, links)
    ensures |r| == 4 * ProperLinks(links)
    ensures forall a :: a in r ==> Mirrored(a)
  {
    if |links| == 0 then []
    else
      var l := links[0];
      var here := LinkWiring(lk, l);
      assert forall a :: a in here ==> Mirrored(a) by {
        if l.src != l.dst {
          LinkAliasesShape(lk.table[l.src].id, lk.table[l.dst].id, Orientation(l.src, l.dst).value.0);
        }
      }
      here + Assignments(lk, links[1..])
  }

  /** Every assignment of the loop comes from one of the links. */
  lemma {:induction false} WiringOrigin(lk: Lookup, links: seq<Link>, a: Alias)
    requires Resolvable(lk, links)
    requires a in Assignments(lk, links)
    ensures exists l :: l in links && a in LinkWiring(lk, l)
  {
    if a in LinkWiring(lk, links[0]) {
      assert links[0] in links;
    } else {
      WiringOrigin(lk, links[1..], a);
      var l :| l in links[1..] && a in LinkWiring(lk, l);
      assert l in links;
    }
  }

  /** Every assignment of every listed link is emitted by the loop. */
  lemma {:induction false} AssignmentsCover(lk: Lookup, links: seq<Link>, l: Link, a: Alias)
    requires Resolvable(lk, links)
    requires l in links && a in LinkWiring(lk, l)
    ensures a in Assignments(lk, links)
  {
    if links[0] != l {
      AssignmentsCover(lk, links[1..], l, a);
    }
  }

  /** The loop's output is the concatenation of the links' wirings in link
      order: link `i`'s `k`-th assignment sits after the assignments of all
      earlier links. */
  lemma {:induction false} AssignmentsAt(lk: Lookup, links: seq<Link>, i: int, k: int)
    requires Resolvable(lk, links)
    requires 0 <= i < |links| && 0 <= k < |LinkWiring(lk, links[i])|
    ensures 4 * ProperLinks(links[..i]) + k < |Assignments(lk, links)|
    ensures Assignments(lk, links)[4 * ProperLinks(links[..i]) + k] == LinkWiring(lk, links[i])[k]
  {
    if i > 0 {
      AssignmentsAt(lk, links[1..], i - 1, k);
      assert links[1..][..i - 1] == links[1..i];
      assert links[..i][1..] == links[1..i];
      assert links[1..][i - 1] == links[i];
    }
  }

  /** Signal `s` belongs to a router held by the lookup. */
  ghost predicate Owned(lk: Lookup, s: Signal)
  {
    exists c :: c in lk.table && lk.table[c].id == s.router
  }

  /** Both sides of every assignment name a router held by the lookup. */
  lemma AssignmentEnds(lk: Lookup, links: seq<Link>)
    requires Resolvable(lk, links)
    ensures forall a :: a in Assignments(lk, links) ==> Owned(lk, a.lhs) && Owned(lk, a.rhs)
  {
    forall a | a in Assignments(lk, links) ensures Owned(lk, a.lhs) && Owned(lk, a.rhs) {
      WiringOrigin(lk, links, a);
      var l :| l in links && a in LinkWiring(lk, l);
      var d := Orientation(l.src, l.dst).value.0;
      LinkAliasesShape(lk.table[l.src].id, lk.table[l.dst].id, d);
      assert Across(a, lk.table[l.src].id, lk.table[l.dst].id, d);
    }
  }

  /** Mesh links only ever take the first or the third test: a `+x` link
      joins the source's east group to the destination's west group, and a
      `+y` link joins the source's SOUTH group to the destination's north
      group. In both cases each group faces the other router. */
  lemma MeshOrientation(l: Link)
    requires MeshShaped(l)
    ensures l.kind == Horizontal ==> Orientation(l.src, l.dst) == Some((East, West))
    ensures l.kind == Vertical ==> Orientation(l.src, l.dst) == Some((South, North))
    ensures Step(l.src, Orientation(l.src, l.dst).value.0) == l.dst
    ensures Step(l.dst, Orientation(l.src, l.dst).value.1) == l.src
  {
  }

  /** Reversing a link's direction gives the same assignments in another
      order, whatever its tag: the wiring does not depend on which end is
      listed first. */
  lemma WiringSymmetric(lk: Lookup, a: Coord, b: Coord, k: LinkKind, k': LinkKind)
    requires a in lk.table && b in lk.table
    ensures multiset(LinkWiring(lk, Link(a, b, k))) == multiset(LinkWiring(lk, Link(b, a, k')))
  {
    if a != b {
      var d := Orientation(a, b).value.0;
      assert Orientation(b, a) == Some((Opposite(d), d));
      assert Opposite(Opposite(d)) == d;
      var ia, ib := lk.table[a].id, lk.table[b].id;
      var x, y := LinkAliases(ia, ib, d), LinkAliases(ib, ia, Opposite(d));
      assert y == [x[2], x[3], x[0], x[1]];
      assert x == [x[0], x[1]] + [x[2], x[3]];
      assert y == [x[2], x[3]] + [x[0], x[1]];
    }
  }

  /** A signal of router `s.router` whose port group faces an occupied
      position. */
  ghost predicate Faces(lk: Lookup, s: Signal)
  {
    exists c :: c in lk.table && lk.table[c].id == s.router && Step(c, s.dir) in lk.table
  }

  /** Under the mesh rule every assigned signal, on either side, belongs to a
      port group that has a neighbour. */
  lemma MeshWiringFaces(lk: Lookup)
    requires Valid(lk)
    ensures Resolvable(lk, Links(lk, "mesh"))
    ensures forall a :: a in Assignments(lk, Links(lk, "mesh")) ==> Faces(lk, a.lhs) && Faces(lk, a.rhs)
  {
    var links := Links(lk, "mesh");
    MeshRule(lk);
    forall a | a in Assignments(lk, links) ensures Faces(lk, a.lhs) && Faces(lk, a.rhs) {
      WiringOrigin(lk, links, a);
      var l :| l in links && a in LinkWiring(lk, l);
      MeshOrientation(l);
      var d := Orientation(l.src, l.dst).value.0;
      LinkAliasesShape(lk.table[l.src].id, lk.table[l.dst].id, d);
      assert Across(a, lk.table[l.src].id, lk.table[l.dst].id, d);
    }
  }

  /** AS WRITTEN, the request assignments run backwards: for every link the
      source's request OUTPUT is the assigned side, and neither router's
      request INPUT on the link is ever assigned. */
  lemma RequestPolarityAsWritten(srcId: int, dstId: int, d: Dir)
    ensures Alias(Signal(srcId, d, Req, Out), Signal(dstId, Opposite(d), Req, In)) in LinkAliases(srcId, dstId, d)
    ensures Alias(Signal(dstId, Opposite(d), Req, Out), Signal(srcId, d, Req, In)) in LinkAliases(srcId, dstId, d)
    ensures forall a :: a in LinkAliases(srcId, dstId, d) ==>
              a.lhs != Signal(srcId, d, Req, In) && a.lhs != Signal(dstId, Opposite(d), Req, In)
  {
  }

  /** The evidently intended wiring: every input of the two facing port
      groups is driven by the peer's matching output. */
  function IntendedLinkAliases(srcId: int, dstId: int, d: Dir): (r: seq<Alias>)
    ensures |r| == 4
    ensures forall a :: a in r ==> Mirrored(a) && Across(a, srcId, dstId, d)
    ensures forall a :: a in r ==> a.lhs.pol == In && a.rhs.pol == Out
    ensures forall ch :: Alias(Signal(dstId, Opposite(d), ch, In), Signal(srcId, d, ch, Out)) in r
    ensures forall ch :: Alias(Signal(srcId, d, ch, In), Signal(dstId, Opposite(d), ch, Out)) in r
  {
    var e := Opposite(d);
    var r := [ Alias(Signal(dstId, e, Req, In), Signal(srcId, d, Req, Out)),
               Alias(Signal(srcId, d, Rsp, In), Signal(dstId, e, Rsp, Out)),
               Alias(Signal(srcId, d, Req, In), Signal(dstId, e, Req, Out)),
               Alias(Signal(dstId, e, Rsp, In), Signal(srcId, d, Rsp, Out)) ];
    assert forall ch :: Alias(Signal(dstId, e, ch, In), Signal(srcId, d, ch, Out)) in r by {
      forall ch ensures Alias(Signal(dstId, e, ch, In), Signal(srcId, d, ch, Out)) in r {
        if ch == Req { assert r[0] in r; } else { assert r[3] in r; }
      }
    }
    assert forall ch :: Alias(Signal(srcId, d, ch, In), Signal(dstId, e, ch, Out)) in r by {
      forall ch ensures Alias(Signal(srcId, d, ch, In), Signal(dstId, e, ch, Out)) in r {
        if ch == Req { assert r[2] in r; } else { assert r[1] in r; }
      }
    }
    r
  }

  /** The evidently intended template loop over all links: every assignment
      drives an input from the peer's matching output, so no output wire is
      ever assigned. */
  function IntendedAssignments(lk: Lookup, links: seq<Link>): (r: seq<Alias>)
    requires Resolvable(lk, links)
    ensures |r| == 4 * ProperLinks(links)
    ensures forall a :: a in r ==> Mirrored(a) && a.lhs.pol == In && a.rhs.pol == Out
  {
    if |links| == 0 then []
    else
      var l := links[0];
      var here := match Orientation(l.src, l.dst)
        case None => []
        case Some(o) => IntendedLinkAliases(lk.table[l.src].id, lk.table[l.dst].id, o.0);
      here + IntendedAssignments(lk, links[1..])
  }

  /** Every intended assignment of a listed link is produced by the loop. */
  lemma {:induction false} IntendedCovers(lk: Lookup, links: seq<Link>, l: Link, a: Alias)
    requires Resolvable(lk, links)
    requires l in links && Orientation(l.src, l.dst).Some?
    requires a in IntendedLinkAliases(lk.table[l.src].id, lk.table[l.dst].id, Orientation(l.src, l.dst).value.0)
    ensures a in IntendedAssignments(lk, links)
  {
    if links[0] != l {
      IntendedCovers(lk, links[1..], l, a);
    }
  }

  /** The response half of the written wiring already matches the intended
      wiring; only the two request assignments differ. */
  lemma ResponseHalfAgrees(srcId: int, dstId: int, d: Dir)
    ensures LinkAliases(srcId, dstId, d)[1] == IntendedLinkAliases(srcId, dstId, d)[1]
    ensures LinkAliases(srcId, dstId, d)[3] == IntendedLinkAliases(srcId, dstId, d)[3]
    ensures LinkAliases(srcId, dstId, d)[0] != IntendedLinkAliases(srcId, dstId, d)[0]
    ensures LinkAliases(srcId, dstId, d)[2] != IntendedLinkAliases(srcId, dstId, d)[2]
  {
  }
}
