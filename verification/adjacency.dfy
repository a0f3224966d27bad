/** Link derivation, identical in `test1_script.py`, `test_script.py` and
    `generate_noc.py`, and mesh-only in `generate_noc_simplified.py`.
    A mesh walks the lookup's keys in order and links each position to its
    `+x` neighbour, then to its `+y` neighbour, when that neighbour is
    occupied. A ring sorts the keys and links each one to the next, wrapping
    around. Any other topology string produces no links at all. */
module Adjacency {
  import opened Fabric
  import opened CoordLookup
  import opened CoordOrder

  /** How a link was found: the `+x` mesh neighbour, the `+y` mesh neighbour,
      or a ring edge. */
  datatype LinkKind = Horizontal | Vertical | RingEdge

  /** One `(src, dst, tag)` entry of the scripts' `connections` list. */
  datatype Link = Link(src: Coord, dst: Coord, kind: LinkKind)

  /** A mesh link joins a position to its `+x` ("east") or `+y` ("south")
      neighbour and to nothing else. */
  predicate MeshShaped(l: Link)
  {
    || (l.kind == Horizontal && l.dst == Step(l.src, East))
    || (l.kind == Vertical && l.dst == Step(l.src, South))
  }

  /** The links of one loop iteration: `+x` first, then `+y`. */
  function MeshFrom(c: Coord, table: map<Coord, Router>): seq<Link>
  {
    (if Step(c, East) in table then [Link(c, Step(c, East), Horizontal)] else [])
    + (if Step(c, South) in table then [Link(c, Step(c, South), Vertical)] else [])
  }

  /** The mesh loop over `keys`, in order. */
  function MeshLinks(keys: seq<Coord>, table: map<Coord, Router>): (r: seq<Link>)
    ensures forall l :: l in r ==> l.src in keys && l.dst in table && MeshShaped(l)
  {
    if |keys| == 0 then [] else MeshFrom(keys[0], table) + MeshLinks(keys[1..], table)
  }

  /** The ring loop over the sorted keys: `sorted[i] -> sorted[(i+1) mod N]`. */
  function RingLinks(sorted: seq<Coord>): (r: seq<Link>)
    ensures |r| == |sorted|
    ensures forall l :: l in r ==> l.src in sorted && l.dst in sorted && l.kind == RingEdge
  {
    seq(|sorted|, i requires 0 <= i < |sorted| => Link(sorted[i], sorted[(i + 1) % |sorted|], RingEdge))
  }

  /** The topology dispatch on the `topology` string. */
  function Links(lk: Lookup, topology: string): (r: seq<Link>)
    ensures topology != "mesh" && topology != "ring" ==> r == []
    ensures topology == "ring" ==> |r| == |lk.keys|
  {
    if topology == "mesh" then MeshLinks(lk.keys, lk.table)
    else if topology == "ring" then RingLinks(Sort(lk.keys))
    else []
  }

  function Sources(links: seq<Link>): (s: seq<Coord>)
    ensures |s| == |links|
  {
    seq(|links|, i requires 0 <= i < |links| => links[i].src)
  }

  function Dests(links: seq<Link>): (s: seq<Coord>)
    ensures |s| == |links|
  {
    seq(|links|, i requires 0 <= i < |links| => links[i].dst)
  }

  /** Number of links leaving `c`. */
  function OutDegree(links: seq<Link>, c: Coord): nat
  {
    multiset(Sources(links))[c]
  }

  /** Number of links entering `c`. */
  function InDegree(links: seq<Link>, c: Coord): nat
  {
    multiset(Dests(links))[c]
  }

  /** Position of `c` in `s`, or `|s|` when absent. */
  function IndexOf(s: seq<Coord>, c: Coord): (i: nat)
    ensures i <= |s|
    ensures i < |s| <==> c in s
    ensures i < |s| ==> s[i] == c && forall k :: 0 <= k < i ==> s[k] != c
  {
    if |s| == 0 then 0
    else if s[0] == c then 0
    else 1 + IndexOf(s[1..], c)
  }

  /** Splitting a repetition-free list into its head and tail. */
  lemma TailDistinct(keys: seq<Coord>)
    requires Distinct(keys) && |keys| > 0
    ensures Distinct(keys[1..])
    ensures keys[0] !in keys[1..]
  {
    forall i, j | 0 <= i < j < |keys[1..]| ensures keys[1..][i] != keys[1..][j] {
      assert keys[1..][i] == keys[i + 1] && keys[1..][j] == keys[j + 1];
    }
    forall k | 0 <= k < |keys[1..]| ensures keys[1..][k] != keys[0] {
      assert keys[1..][k] == keys[k + 1];
    }
  }

  /** The links of one iteration all leave `c`, one per occupied neighbour. */
  lemma MeshFromSources(c: Coord, table: map<Coord, Router>)
    ensures multiset(Sources(MeshFrom(c, table))) ==
              multiset{}[c := (if Step(c, East) in table then 1 else 0) + (if Step(c, South) in table then 1 else 0)]
  {
    var hs := Sources(MeshFrom(c, table));
    if Step(c, East) in table {
      if Step(c, South) in table {
        assert hs == [c, c];
      } else {
        assert hs == [c];
      }
    } else if Step(c, South) in table {
      assert hs == [c];
    } else {
      assert hs == [];
    }
  }

  lemma IndexOfTail(keys: seq<Coord>, c: Coord)
    requires |keys| > 0 && c in keys[1..] && keys[0] !in keys[1..]
    ensures IndexOf(keys, c) == 1 + IndexOf(keys[1..], c) > 0
  {
  }

  lemma SourcesAppend(a: seq<Link>, b: seq<Link>)
    ensures Sources(a + b) == Sources(a) + Sources(b)
    ensures multiset(Sources(a + b)) == multiset(Sources(a)) + multiset(Sources(b))
  {
    assert Sources(a + b) == Sources(a) + Sources(b);
  }

  /** Mesh links are exactly the mesh-shaped links leaving a listed key
      towards an occupied position. */
  lemma {:induction false} MeshMembership(keys: seq<Coord>, table: map<Coord, Router>)
    ensures forall l :: l in MeshLinks(keys, table) <==> l.src in keys && l.dst in table && MeshShaped(l)
  {
    if |keys| > 0 {
      MeshMembership(keys[1..], table);
      assert keys == [keys[0]] + keys[1..];
      forall l ensures l in MeshLinks(keys, table) <==> l.src in keys && l.dst in table && MeshShaped(l) {
        assert l in MeshLinks(keys, table) <==> l in MeshFrom(keys[0], table) || l in MeshLinks(keys[1..], table);
        assert l in MeshFrom(keys[0], table) <==> l.src == keys[0] && l.dst in table && MeshShaped(l);
      }
    }
  }

  /** Every mesh link leaves one of the listed keys. */
  lemma MeshSources(keys: seq<Coord>, table: map<Coord, Router>)
    ensures forall i :: 0 <= i < |MeshLinks(keys, table)| ==> MeshLinks(keys, table)[i].src in keys
  {
    MeshMembership(keys, table);
    forall i | 0 <= i < |MeshLinks(keys, table)| ensures MeshLinks(keys, table)[i].src in keys {
      assert MeshLinks(keys, table)[i] in MeshLinks(keys, table);
    }
  }

  /** No mesh link is produced twice. */
  lemma {:induction false} MeshDistinct(keys: seq<Coord>, table: map<Coord, Router>)
    requires Distinct(keys)
    ensures Distinct(MeshLinks(keys, table))
  {
    if |keys| > 0 {
      var head := MeshFrom(keys[0], table);
      var rest := MeshLinks(keys[1..], table);
      TailDistinct(keys);
      MeshDistinct(keys[1..], table);
      MeshSources(keys[1..], table);
      var all := head + rest;
      forall i, j | 0 <= i < j < |all| ensures all[i] != all[j] {
        if j < |head| {
          assert all[i].kind == Horizontal && all[j].kind == Vertical;
        } else if i < |head| {
          assert all[i].src == keys[0];
          assert all[j] == rest[j - |head|];
          assert all[j].src in keys[1..];
        } else {
          assert all[i] == rest[i - |head|] && all[j] == rest[j - |head|];
        }
      }
    }
  }

  /** Out-degree of a position in the mesh: the number of its occupied `+x`
      and `+y` neighbours if it is a key, and zero otherwise; so never more
      than two. */
  lemma {:induction false} MeshOutDegree(keys: seq<Coord>, table: map<Coord, Router>, c: Coord)
    requires Distinct(keys)
    ensures OutDegree(MeshLinks(keys, table), c) ==
              (if c in keys then
                 (if Step(c, East) in table then 1 else 0) + (if Step(c, South) in table then 1 else 0)
               else 0)
    ensures OutDegree(MeshLinks(keys, table), c) <= 2
  {
    if |keys| > 0 {
      var head := MeshFrom(keys[0], table);
      var rest := MeshLinks(keys[1..], table);
      TailDistinct(keys);
      MeshOutDegree(keys[1..], table, c);
      SourcesAppend(head, rest);
      MeshFromSources(keys[0], table);
      assert MeshLinks(keys, table) == head + rest;
      assert c in keys <==> c == keys[0] || c in keys[1..] by {
        assert keys == [keys[0]] + keys[1..];
      }
    }
  }

  /** Link `a` is emitted before link `b` by the mesh loop over `keys`:
      its source comes first, or both leave the same key and `a` is the `+x`
      link and `b` the `+y` one. */
  predicate MeshBefore(keys: seq<Coord>, a: Link, b: Link)
  {
    || IndexOf(keys, a.src) < IndexOf(keys, b.src)
    || (a.src == b.src && a.kind == Horizontal && b.kind == Vertical)
  }

  /** Mesh links `i < j` come in that order. */
  lemma {:induction false} MeshOrderPair(keys: seq<Coord>, table: map<Coord, Router>, i: int, j: int)
    requires Distinct(keys)
    requires 0 <= i < j < |MeshLinks(keys, table)|
    ensures MeshBefore(keys, MeshLinks(keys, table)[i], MeshLinks(keys, table)[j])
  {
    var head := MeshFrom(keys[0], table);
    var rest := MeshLinks(keys[1..], table);
    var all := head + rest;
    assert MeshLinks(keys, table) == all;
    TailDistinct(keys);
    MeshFromShape(keys[0], table);
    if j < |head| {
      assert all[i] == head[0] && all[j] == head[1];
      assert MeshBefore(keys, all[i], all[j]);
    } else if i < |head| {
      assert all[i] == head[i];
      assert all[j] == rest[j - |head|];
      MeshSources(keys[1..], table);
      IndexOfTail(keys, all[j].src);
      assert IndexOf(keys, all[i].src) == 0;
      assert MeshBefore(keys, all[i], all[j]);
    } else {
      var i', j' := i - |head|, j - |head|;
      assert all[i] == rest[i'] && all[j] == rest[j'];
      MeshOrderPair(keys[1..], table, i', j');
      MeshSources(keys[1..], table);
      IndexOfTail(keys, rest[i'].src);
      IndexOfTail(keys, rest[j'].src);
      assert MeshBefore(keys, rest[i'], rest[j']);
    }
  }

  /** One iteration yields at most two links, all leaving `c`, the `+x`
      one first. */
  lemma MeshFromShape(c: Coord, table: map<Coord, Router>)
    ensures |MeshFrom(c, table)| <= 2
    ensures forall k :: 0 <= k < |MeshFrom(c, table)| ==> MeshFrom(c, table)[k].src == c
    ensures |MeshFrom(c, table)| == 2 ==>
              MeshFrom(c, table)[0].kind == Horizontal && MeshFrom(c, table)[1].kind == Vertical
  {
  }

  /** Mesh links come in key order, and for one key the `+x` link comes
      before the `+y` link. */
  lemma MeshOrder(keys: seq<Coord>, table: map<Coord, Router>)
    requires Distinct(keys)
    ensures forall i, j :: 0 <= i < j < |MeshLinks(keys, table)| ==>
              MeshBefore(keys, MeshLinks(keys, table)[i], MeshLinks(keys, table)[j])
  {
    forall i, j | 0 <= i < j < |MeshLinks(keys, table)|
      ensures MeshBefore(keys, MeshLinks(keys, table)[i], MeshLinks(keys, table)[j])
    {
      MeshOrderPair(keys, table, i, j);
    }
  }

  /** The mesh rule over a lookup: a link `(x,y) -> (x+1,y)` exists iff both
      positions are occupied, a link `(x,y) -> (x,y+1)` exists iff both are
      occupied, no other link is produced, none is produced twice, and at
      most two leave any position. */
  lemma MeshRule(lk: Lookup)
    requires Valid(lk)
    ensures forall c :: Link(c, Step(c, East), Horizontal) in Links(lk, "mesh") <==>
              c in lk.table && Step(c, East) in lk.table
    ensures forall c :: Link(c, Step(c, South), Vertical) in Links(lk, "mesh") <==>
              c in lk.table && Step(c, South) in lk.table
    ensures forall l :: l in Links(lk, "mesh") ==> MeshShaped(l) && l.src in lk.table && l.dst in lk.table
    ensures Distinct(Links(lk, "mesh"))
    ensures forall c :: OutDegree(Links(lk, "mesh"), c) <= 2
  {
    MeshMembership(lk.keys, lk.table);
    MeshDistinct(lk.keys, lk.table);
    forall c ensures OutDegree(Links(lk, "mesh"), c) <= 2 {
      MeshOutDegree(lk.keys, lk.table, c);
    }
  }

  /** The successor index of the ring, wrapping at `n`. */
  lemma NextIndex(i: int, n: int)
    requires 0 <= i < n
    ensures (i + 1) % n == if i + 1 < n then i + 1 else 0
  {
    if i + 1 == n {
      assert (i + 1) % n == n % n == 0;
    }
  }

  /** Rotation of a list by one: the destinations of the ring. */
  lemma RingDests(s: seq<Coord>)
    requires |s| > 0
    ensures Sources(RingLinks(s)) == s
    ensures Dests(RingLinks(s)) == s[1..] + s[..1]
    ensures multiset(Dests(RingLinks(s))) == multiset(s)
  {
    var r := RingLinks(s);
    var d := Dests(r);
    var rot := s[1..] + s[..1];
    forall i | 0 <= i < |s| ensures d[i] == rot[i] {
      NextIndex(i, |s|);
      assert d[i] == r[i].dst == s[(i + 1) % |s|];
      if i < |s| - 1 {
        assert rot[i] == s[1..][i] == s[i + 1];
      } else {
        assert rot[i] == s[..1][0] == s[0];
      }
    }
    assert d == rot;
    assert Sources(r) == s;
    assert s == s[..1] + s[1..];
    assert multiset(rot) == multiset(s[1..]) + multiset(s[..1]);
  }

  /** The ring rule over a lookup with N keys: exactly N links
      `sorted[i] -> sorted[(i+1) mod N]`, the keys in strictly increasing
      (x, then y) order, and every occupied position is the source of one
      link and the destination of one link. */
  lemma RingRule(lk: Lookup)
    requires Valid(lk)
    ensures |Links(lk, "ring")| == |lk.keys|
    ensures forall i, j :: 0 <= i < j < |Sort(lk.keys)| ==> Lt(Sort(lk.keys)[i], Sort(lk.keys)[j])
    ensures forall c :: c in Sort(lk.keys) <==> c in lk.table
    ensures forall i :: 0 <= i < |Links(lk, "ring")| ==>
              Links(lk, "ring")[i] == Link(Sort(lk.keys)[i], Sort(lk.keys)[(i + 1) % |lk.keys|], RingEdge)
    ensures forall c :: OutDegree(Links(lk, "ring"), c) == (if c in lk.table then 1 else 0)
    ensures forall c :: InDegree(Links(lk, "ring"), c) == (if c in lk.table then 1 else 0)
  {
    var s := Sort(lk.keys);
    var r := Links(lk, "ring");
    assert r == RingLinks(s);
    SortDistinct(lk.keys);
    RingIndex(lk);
    if |s| > 0 {
      RingDests(s);
      forall c ensures OutDegree(r, c) == (if c in lk.table then 1 else 0)
                ensures InDegree(r, c) == (if c in lk.table then 1 else 0)
      {
        RingDegree(s, c);
      }
    }
  }

  /** Link `i` of the ring joins sorted key `i` to its successor. */
  lemma RingIndex(lk: Lookup)
    ensures forall i :: 0 <= i < |Links(lk, "ring")| ==>
              Links(lk, "ring")[i] == Link(Sort(lk.keys)[i], Sort(lk.keys)[(i + 1) % |lk.keys|], RingEdge)
  {
    var s := Sort(lk.keys);
    var n := |lk.keys|;
    var r := Links(lk, "ring");
    assert r == RingLinks(s) && |s| == n;
    forall i | 0 <= i < |r| ensures r[i] == Link(s[i], s[(i + 1) % n], RingEdge) {
      assert r[i] == Link(s[i], s[(i + 1) % |s|], RingEdge);
    }
  }

  /** In a ring over distinct positions each position is left once and
      entered once. */
  lemma RingDegree(s: seq<Coord>, c: Coord)
    requires Distinct(s) && |s| > 0
    ensures OutDegree(RingLinks(s), c) == (if c in s then 1 else 0)
    ensures InDegree(RingLinks(s), c) == (if c in s then 1 else 0)
  {
    RingDests(s);
    if c in s {
      DistinctOccursOnce(s, c);
    } else {
      assert c !in multiset(s);
    }
  }

  /** A ring over a single position links it to itself. */
  lemma RingSingle(lk: Lookup)
    requires Valid(lk)
    requires |lk.keys| == 1
    ensures Links(lk, "ring") == [Link(lk.keys[0], lk.keys[0], RingEdge)]
  {
    assert Sort(lk.keys) == lk.keys by {
      SortedUnique(Sort(lk.keys), lk.keys);
    }
  }

  /** A ring over two positions links them twice, once each way, starting
      from the smaller one. */
  lemma RingPair(lk: Lookup)
    requires Valid(lk)
    requires |lk.keys| == 2
    ensures var p, q := lk.keys[0], lk.keys[1];
      Links(lk, "ring") ==
        if Lt(p, q) then [Link(p, q, RingEdge), Link(q, p, RingEdge)]
        else [Link(q, p, RingEdge), Link(p, q, RingEdge)]
  {
    var s := PairOrder(lk.keys[0], lk.keys[1]);
    SortPair(lk.keys);
    assert Links(lk, "ring") == RingLinks(s);
    RingOfTwo(s);
  }

  /** Sorting two positions puts the smaller first. */
  lemma SortPair(keys: seq<Coord>)
    requires |keys| == 2
    ensures Sort(keys) == PairOrder(keys[0], keys[1])
  {
    PairSorted(keys);
    SortIsOnly(keys, PairOrder(keys[0], keys[1]));
  }

  /** Two positions in tuple order. */
  function PairOrder(p: Coord, q: Coord): seq<Coord>
  {
    if Lt(p, q) then [p, q] else [q, p]
  }

  lemma PairSorted(keys: seq<Coord>)
    requires |keys| == 2
    ensures Sorted(PairOrder(keys[0], keys[1]))
    ensures multiset(PairOrder(keys[0], keys[1])) == multiset(keys)
  {
    var p, q := keys[0], keys[1];
    var s := PairOrder(p, q);
    assert Le(s[0], s[1]);
    assert keys == [p, q];
  }

  /** The ring of two positions. */
  lemma RingOfTwo(s: seq<Coord>)
    requires |s| == 2
    ensures RingLinks(s) == [Link(s[0], s[1], RingEdge), Link(s[1], s[0], RingEdge)]
  {
    NextIndex(0, 2);
    NextIndex(1, 2);
  }
}
