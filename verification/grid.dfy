/** Link counts of the mesh rule on a full rectangular placement. */
module Grid {
  import opened Fabric
  import opened CoordLookup
  import opened Adjacency

  /** The full placement `{o.x..o.x+w-1} x {o.y..o.y+h-1}`, a `w x h`
      rectangle with its corner at `o`. */
  function Rect(o: Coord, w: int, h: int): set<Coord>
  {
    set x: int, y: int | o.x <= x < o.x + w && o.y <= y < o.y + h :: Coord(x, y)
  }

  /** One column `{x} x {y0..y0+h-1}`. */
  function Column(x: int, y0: int, h: int): set<Coord>
  {
    set y: int | y0 <= y < y0 + h :: Coord(x, y)
  }

  lemma RectMember(o: Coord, w: int, h: int, c: Coord)
    ensures c in Rect(o, w, h) <==> o.x <= c.x < o.x + w && o.y <= c.y < o.y + h
  {
    if o.x <= c.x < o.x + w && o.y <= c.y < o.y + h {
      assert Coord(c.x, c.y) in Rect(o, w, h);
    }
  }

  lemma ColumnMember(x: int, y0: int, h: int, c: Coord)
    ensures c in Column(x, y0, h) <==> c.x == x && y0 <= c.y < y0 + h
  {
    if c.x == x && y0 <= c.y < y0 + h {
      assert Coord(x, c.y) in Column(x, y0, h);
    }
  }

  lemma {:induction false} ColumnCard(x: int, y0: int, h: nat)
    ensures |Column(x, y0, h)| == h
  {
    if h > 0 {
      ColumnCard(x, y0, h - 1);
      assert Column(x, y0, h) == Column(x, y0, h - 1) + {Coord(x, y0 + h - 1)};
    }
  }

  /** `Rect(o, w, h)` is `Rect(o, w - 1, h)` plus its last column. */
  lemma RectSplit(o: Coord, w: int, h: int)
    requires w >= 1
    ensures Rect(o, w, h) == Rect(o, w - 1, h) + Column(o.x + w - 1, o.y, h)
  {
    forall c ensures c in Rect(o, w, h) <==> c in Rect(o, w - 1, h) + Column(o.x + w - 1, o.y, h) {
      RectMember(o, w, h, c);
      RectMember(o, w - 1, h, c);
      ColumnMember(o.x + w - 1, o.y, h, c);
    }
  }

  lemma RectColumnDisjoint(o: Coord, w: int, h: int)
    ensures Rect(o, w, h) !! Column(o.x + w, o.y, h)
  {
    forall c | c in Rect(o, w, h) ensures c !in Column(o.x + w, o.y, h) {
      RectMember(o, w, h, c);
      ColumnMember(o.x + w, o.y, h, c);
    }
  }

  lemma {:induction false} RectCard(o: Coord, w: nat, h: nat)
    ensures |Rect(o, w, h)| == w * h
  {
    if w > 0 {
      RectCard(o, w - 1, h);
      ColumnCard(o.x + w - 1, o.y, h);
      RectSplit(o, w, h);
      RectColumnDisjoint(o, w - 1, h);
      assert w * h == (w - 1) * h + h;
    }
  }

  /** Keys with an occupied `+x` neighbour. */
  function EastSources(keys: seq<Coord>, table: map<Coord, Router>): set<Coord>
  {
    set c | c in keys && Step(c, East) in table
  }

  /** Keys with an occupied `+y` neighbour. */
  function SouthSources(keys: seq<Coord>, table: map<Coord, Router>): set<Coord>
  {
    set c | c in keys && Step(c, South) in table
  }

  lemma SourcesSplit(keys: seq<Coord>, table: map<Coord, Router>)
    requires |keys| > 0
    ensures EastSources(keys, table) ==
              EastSources(keys[1..], table) + (if Step(keys[0], East) in table then {keys[0]} else {})
    ensures SouthSources(keys, table) ==
              SouthSources(keys[1..], table) + (if Step(keys[0], South) in table then {keys[0]} else {})
  {
    forall c ensures c in keys <==> c == keys[0] || c in keys[1..] {
      assert keys == [keys[0]] + keys[1..];
    }
  }

  /** The mesh produces one link per key with an occupied `+x` neighbour
      plus one per key with an occupied `+y` neighbour. */
  lemma {:induction false} MeshLength(keys: seq<Coord>, table: map<Coord, Router>)
    requires Distinct(keys)
    ensures |MeshLinks(keys, table)| == |EastSources(keys, table)| + |SouthSources(keys, table)|
  {
    if |keys| > 0 {
      var k := keys[0];
      TailDistinct(keys);
      MeshLength(keys[1..], table);
      SourcesSplit(keys, table);
      assert k !in EastSources(keys[1..], table);
      assert k !in SouthSources(keys[1..], table);
      assert |MeshLinks(keys, table)| == |MeshFrom(k, table)| + |MeshLinks(keys[1..], table)|;
    }
  }

  /** On a full `w x h` lookup the keys with an east neighbour are all but
      the last column. */
  lemma EastSourcesOfRect(lk: Lookup, o: Coord, w: int, h: int)
    requires Valid(lk) && lk.table.Keys == Rect(o, w, h)
    ensures EastSources(lk.keys, lk.table) == Rect(o, w - 1, h)
  {
    forall c ensures c in EastSources(lk.keys, lk.table) <==> c in Rect(o, w - 1, h) {
      RectMember(o, w, h, c);
      RectMember(o, w, h, Step(c, East));
      RectMember(o, w - 1, h, c);
    }
  }

  /** On a full `w x h` lookup the keys with a south neighbour are all but
      the last row. */
  lemma SouthSourcesOfRect(lk: Lookup, o: Coord, w: int, h: int)
    requires Valid(lk) && lk.table.Keys == Rect(o, w, h)
    ensures SouthSources(lk.keys, lk.table) == Rect(o, w, h - 1)
  {
    forall c ensures c in SouthSources(lk.keys, lk.table) <==> c in Rect(o, w, h - 1) {
      RectMember(o, w, h, c);
      RectMember(o, w, h, Step(c, South));
      RectMember(o, w, h - 1, c);
    }
  }

  /** On a full `w x h` lookup, `h(w-1)` keys have an east neighbour and
      `w(h-1)` a south one. */
  lemma RectSourcesCount(lk: Lookup, o: Coord, w: int, h: int)
    requires w >= 1 && h >= 1
    requires Valid(lk) && lk.table.Keys == Rect(o, w, h)
    ensures |EastSources(lk.keys, lk.table)| + |SouthSources(lk.keys, lk.table)| == w * (h - 1) + h * (w - 1)
  {
    EastSourcesOfRect(lk, o, w, h);
    SouthSourcesOfRect(lk, o, w, h);
    RectCard(o, w - 1, h);
    RectCard(o, w, h - 1);
    assert (w - 1) * h == h * (w - 1);
  }

  /** A placement filling a `w x h` rectangle, with its corner anywhere
      (duplicates allowed), yields exactly `w(h-1) + h(w-1)` mesh links. */
  lemma FullGridLinkCount(routers: seq<Router>, o: Coord, w: int, h: int)
    requires w >= 1 && h >= 1
    requires Placements(routers) == Rect(o, w, h)
    ensures |Links(Build(routers), "mesh")| == w * (h - 1) + h * (w - 1)
  {
    var lk := Build(routers);
    assert Links(lk, "mesh") == MeshLinks(lk.keys, lk.table);
    MeshLength(lk.keys, lk.table);
    RectSourcesCount(lk, o, w, h);
  }
}
