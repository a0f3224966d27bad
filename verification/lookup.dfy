/** The coordinate lookup every script builds first,
    `{(r["coords"][0], r["coords"][1]): r for r in routers}`.
    A Python dict keeps its keys in first-insertion order and, when a key is
    inserted again, keeps that key's position but takes the new value; so a
    router listed later at an already used position silently replaces the
    earlier one. */
module CoordLookup {
  import opened Fabric

  /** The dict: `keys` in iteration order, `table` the key-to-router map. */
  datatype Lookup = Lookup(keys: seq<Coord>, table: map<Coord, Router>)

  /** Keys are listed once each, exactly the table's domain, and every router
      is filed under its own coordinates. */
  ghost predicate Valid(lk: Lookup)
  {
    && Distinct(lk.keys)
    && (forall c :: c in lk.table <==> c in lk.keys)
    && (forall c :: c in lk.table ==> lk.table[c].coords == c)
  }

  /** The set of positions occupied by some listed router. */
  function Placements(routers: seq<Router>): set<Coord>
  {
    set r | r in routers :: r.coords
  }

  predicate DistinctPlacements(routers: seq<Router>)
  {
    forall i, j :: 0 <= i < j < |routers| ==> routers[i].coords != routers[j].coords
  }

  lemma PlacementsSnoc(routers: seq<Router>, r: Router)
    ensures Placements(routers + [r]) == Placements(routers) + {r.coords}
  {
    var s := routers + [r];
    forall c | c in Placements(s) ensures c in Placements(routers) + {r.coords} {
      var q :| q in s && q.coords == c;
      if q != r {
        assert q in routers;
      }
    }
    forall c | c in Placements(routers) ensures c in Placements(s) {
      var q :| q in routers && q.coords == c;
      assert q in s;
    }
    assert r in s;
  }

  /** Index of the last router listed at position `c`. */
  function LastAt(routers: seq<Router>, c: Coord): (i: nat)
    requires c in Placements(routers)
    ensures i < |routers| && routers[i].coords == c
    ensures forall k :: i < k < |routers| ==> routers[k].coords != c
  {
    var n := |routers| - 1;
    assert routers == routers[..n] + [routers[n]];
    PlacementsSnoc(routers[..n], routers[n]);
    if routers[n].coords == c then n else LastAt(routers[..n], c)
  }

  /** Index of the first router listed at position `c`. */
  function FirstAt(routers: seq<Router>, c: Coord): (i: nat)
    requires c in Placements(routers)
    ensures i < |routers| && routers[i].coords == c
    ensures forall k :: 0 <= k < i ==> routers[k].coords != c
  {
    var n := |routers| - 1;
    assert routers == routers[..n] + [routers[n]];
    PlacementsSnoc(routers[..n], routers[n]);
    if c in Placements(routers[..n]) then FirstAt(routers[..n], c) else n
  }

  /** Inserting one router, as one iteration of the comprehension. */
  function Put(lk: Lookup, r: Router): Lookup
  {
    if r.coords in lk.table then Lookup(lk.keys, lk.table[r.coords := r])
    else Lookup(lk.keys + [r.coords], lk.table[r.coords := r])
  }

  /** One insertion keeps the lookup well formed and adds exactly the
      router's position. */
  lemma PutValid(lk: Lookup, r: Router)
    requires Valid(lk)
    ensures Valid(Put(lk, r))
    ensures Put(lk, r).table.Keys == lk.table.Keys + {r.coords}
    ensures Put(lk, r).table[r.coords] == r
    ensures forall c :: c in lk.table && c != r.coords ==> Put(lk, r).table[c] == lk.table[c]
    ensures lk.keys <= Put(lk, r).keys
    ensures r.coords !in lk.table ==> Put(lk, r).keys == lk.keys + [r.coords]
    ensures r.coords in lk.table ==> Put(lk, r).keys == lk.keys
  {
    if r.coords !in lk.table {
      assert r.coords !in lk.keys;
    }
  }

  /** The comprehension over `routers`, in list order. */
  function Build(routers: seq<Router>): (lk: Lookup)
    ensures Valid(lk)
    ensures lk.table.Keys == Placements(routers)
  {
    if |routers| == 0 then Lookup([], map[])
    else
      var n := |routers| - 1;
      var prev := Build(routers[..n]);
      assert routers == routers[..n] + [routers[n]];
      PlacementsSnoc(routers[..n], routers[n]);
      PutValid(prev, routers[n]);
      Put(prev, routers[n])
  }

  /** Unfolding of `Build` on a non-empty list: the last router is put last. */
  lemma BuildSnoc(routers: seq<Router>)
    requires |routers| > 0
    ensures Build(routers) == Put(Build(routers[..|routers| - 1]), routers[|routers| - 1])
  {
  }

  /** `FirstAt` and `LastAt` of an earlier position are unaffected by
      appending a router placed elsewhere. */
  lemma AtSnoc(routers: seq<Router>, c: Coord)
    requires |routers| > 0
    requires c in Placements(routers[..|routers| - 1])
    ensures c in Placements(routers)
    ensures FirstAt(routers, c) == FirstAt(routers[..|routers| - 1], c)
    ensures routers[|routers| - 1].coords != c ==> LastAt(routers, c) == LastAt(routers[..|routers| - 1], c)
  {
    var n := |routers| - 1;
    assert routers == routers[..n] + [routers[n]];
    PlacementsSnoc(routers[..n], routers[n]);
  }

  /** A position first used by the last router is first found there. */
  lemma FirstAtFresh(routers: seq<Router>)
    requires |routers| > 0
    requires routers[|routers| - 1].coords !in Placements(routers[..|routers| - 1])
    ensures routers[|routers| - 1].coords in Placements(routers)
    ensures FirstAt(routers, routers[|routers| - 1].coords) == |routers| - 1
  {
    var n := |routers| - 1;
    assert routers[n] in routers;
  }

  /** The router kept at each position is the LAST one listed there: a later
      router at a shared position silently replaces the earlier one. */
  lemma {:induction false} BuildKeepsLast(routers: seq<Router>)
    ensures forall c :: c in Build(routers).table ==>
              Build(routers).table[c] == routers[LastAt(routers, c)]
  {
    if |routers| > 0 {
      var n := |routers| - 1;
      var r := routers[n];
      var prev := Build(routers[..n]);
      BuildSnoc(routers);
      PutValid(prev, r);
      BuildKeepsLast(routers[..n]);
      forall c | c in Build(routers).table
        ensures Build(routers).table[c] == routers[LastAt(routers, c)]
      {
        if c != r.coords {
          AtSnoc(routers, c);
        }
      }
    }
  }

  /** Every router held by the lookup is one of the listed routers. */
  lemma BuildFromList(routers: seq<Router>)
    ensures forall c :: c in Build(routers).table ==> Build(routers).table[c] in routers
  {
    BuildKeepsLast(routers);
  }

  /** Key `k` of the lookup was first listed before key `l`, for `k < l`. */
  lemma {:induction false} FirstOrderPair(routers: seq<Router>, k: int, l: int)
    requires 0 <= k < l < |Build(routers).keys|
    ensures FirstAt(routers, Build(routers).keys[k]) < FirstAt(routers, Build(routers).keys[l])
  {
    var n := |routers| - 1;
    var r := routers[n];
    var prev := Build(routers[..n]);
    var lk := Build(routers);
    BuildSnoc(routers);
    PutValid(prev, r);
    assert k < |prev.keys| && lk.keys[k] == prev.keys[k];
    AtSnoc(routers, lk.keys[k]);
    if l < |prev.keys| {
      assert lk.keys[l] == prev.keys[l];
      AtSnoc(routers, lk.keys[l]);
      FirstOrderPair(routers[..n], k, l);
    } else {
      assert lk.keys[l] == r.coords && r.coords !in prev.table;
      FirstAtFresh(routers);
    }
  }

  /** The keys are listed in order of each position's FIRST appearance in
      the router list (a repeated position keeps its first slot). */
  lemma BuildFirstOrder(routers: seq<Router>)
    ensures forall k, l :: 0 <= k < l < |Build(routers).keys| ==>
              FirstAt(routers, Build(routers).keys[k]) < FirstAt(routers, Build(routers).keys[l])
  {
    forall k, l | 0 <= k < l < |Build(routers).keys|
      ensures FirstAt(routers, Build(routers).keys[k]) < FirstAt(routers, Build(routers).keys[l])
    {
      FirstOrderPair(routers, k, l);
    }
  }

  /** Appending a router at a fresh position neither creates nor removes a
      shared position. */
  lemma DistinctSnoc(prefix: seq<Router>, r: Router)
    requires r.coords !in Placements(prefix)
    ensures DistinctPlacements(prefix + [r]) <==> DistinctPlacements(prefix)
  {
    var routers := prefix + [r];
    var n := |prefix|;
    if DistinctPlacements(prefix) {
      forall i, j | 0 <= i < j < |routers| ensures routers[i].coords != routers[j].coords {
        assert routers[i] == prefix[i];
        if j < n {
          assert routers[j] == prefix[j];
        } else {
          assert prefix[i] in prefix;
        }
      }
    }
    if DistinctPlacements(routers) {
      forall i, j | 0 <= i < j < n ensures prefix[i].coords != prefix[j].coords {
        assert routers[i] == prefix[i] && routers[j] == prefix[j];
      }
    }
  }

  /** A list has at most as many positions as routers, and exactly as many
      when no two routers share a position. */
  lemma {:induction false} PlacementsCard(routers: seq<Router>)
    ensures |Placements(routers)| <= |routers|
    ensures |Placements(routers)| == |routers| <==> DistinctPlacements(routers)
  {
    if |routers| > 0 {
      var n := |routers| - 1;
      var prefix := routers[..n];
      var r := routers[n];
      assert routers == prefix + [r];
      PlacementsCard(prefix);
      PlacementsSnoc(prefix, r);
      if r.coords in Placements(prefix) {
        var i := FirstAt(prefix, r.coords);
        assert routers[i] == prefix[i];
        assert routers[i].coords == routers[n].coords;
      } else {
        DistinctSnoc(prefix, r);
      }
    }
  }

  /** One entry per distinct position: the lookup holds exactly one key per
      occupied position, so it has as many keys as the list has routers
      exactly when no two routers share a position. */
  lemma KeyCount(routers: seq<Router>)
    ensures |Build(routers).keys| == |Placements(routers)|
    ensures |Build(routers).keys| <= |routers|
    ensures |Build(routers).keys| == |routers| <==> DistinctPlacements(routers)
  {
    var lk := Build(routers);
    DistinctKeysCard(lk.keys);
    assert (set c | c in lk.keys) == lk.table.Keys;
    PlacementsCard(routers);
  }

  lemma {:induction false} DistinctKeysCard(s: seq<Coord>)
    requires Distinct(s)
    ensures |set c | c in s| == |s|
  {
    if |s| > 0 {
      var n := |s| - 1;
      assert Distinct(s[..n]);
      DistinctKeysCard(s[..n]);
      assert s == s[..n] + [s[n]];
      assert (set c | c in s) == (set c | c in s[..n]) + {s[n]};
      assert s[n] !in s[..n];
    }
  }

  /** Dropping the last router of a list with no shared positions leaves
      such a list, whose lookup does not yet hold the last router's position. */
  lemma DistinctPrefix(routers: seq<Router>)
    requires DistinctPlacements(routers) && |routers| > 0
    ensures DistinctPlacements(routers[..|routers| - 1])
    ensures routers[|routers| - 1].coords !in Build(routers[..|routers| - 1]).table
  {
    var n := |routers| - 1;
    var prefix := routers[..n];
    forall i, j | 0 <= i < j < n ensures prefix[i].coords != prefix[j].coords {
      assert prefix[i] == routers[i] && prefix[j] == routers[j];
    }
    forall q | q in prefix ensures q.coords != routers[n].coords {
      var k :| 0 <= k < n && prefix[k] == q;
      assert routers[k] == q;
    }
  }

  /** With no shared positions there is one key per router. */
  lemma {:induction false} DistinctKeysLength(routers: seq<Router>)
    requires DistinctPlacements(routers)
    ensures |Build(routers).keys| == |routers|
  {
    if |routers| > 0 {
      var n := |routers| - 1;
      DistinctPrefix(routers);
      DistinctKeysLength(routers[..n]);
      BuildSnoc(routers);
      PutValid(Build(routers[..n]), routers[n]);
    }
  }

  /** With no shared positions, router `i` owns key `i` and is the router
      filed under its position. */
  lemma {:induction false} DistinctPlacementAt(routers: seq<Router>, i: int)
    requires DistinctPlacements(routers) && 0 <= i < |routers|
    ensures i < |Build(routers).keys|
    ensures Build(routers).keys[i] == routers[i].coords
    ensures Build(routers).table[routers[i].coords] == routers[i]
    decreases |routers|, 1
  {
    if i < |routers| - 1 {
      DistinctPlacementEarlier(routers, i);
    } else {
      DistinctPlacementLast(routers);
    }
  }

  /** The last router takes a fresh key at the end. */
  lemma DistinctPlacementLast(routers: seq<Router>)
    requires DistinctPlacements(routers) && |routers| > 0
    ensures |routers| - 1 < |Build(routers).keys|
    ensures Build(routers).keys[|routers| - 1] == routers[|routers| - 1].coords
    ensures Build(routers).table[routers[|routers| - 1].coords] == routers[|routers| - 1]
  {
    var n := |routers| - 1;
    DistinctPrefix(routers);
    DistinctKeysLength(routers[..n]);
    BuildSnoc(routers);
  }

  /** An earlier router keeps the key and entry it had before the last one
      was put. */
  lemma {:induction false} DistinctPlacementEarlier(routers: seq<Router>, i: int)
    requires DistinctPlacements(routers) && 0 <= i < |routers| - 1
    ensures i < |Build(routers).keys|
    ensures Build(routers).keys[i] == routers[i].coords
    ensures Build(routers).table[routers[i].coords] == routers[i]
    decreases |routers|, 0
  {
    var n := |routers| - 1;
    var prefix := routers[..n];
    var r := routers[n];
    var prev, lk := Build(prefix), Build(routers);
    DistinctPrefix(routers);
    BuildSnoc(routers);
    assert lk == Lookup(prev.keys + [r.coords], prev.table[r.coords := r]);
    DistinctPlacementAt(prefix, i);
    assert routers[i] == prefix[i];
    assert routers[i].coords != r.coords;
    assert lk.keys[i] == prev.keys[i];
  }

  /** With no shared positions nothing collapses: the keys are the routers'
      positions in list order and each position holds its own router. */
  lemma DistinctPlacementLookup(routers: seq<Router>)
    requires DistinctPlacements(routers)
    ensures |Build(routers).keys| == |routers|
    ensures forall i :: 0 <= i < |routers| ==>
              Build(routers).keys[i] == routers[i].coords
              && Build(routers).table[routers[i].coords] == routers[i]
  {
    DistinctKeysLength(routers);
    forall i | 0 <= i < |routers|
      ensures Build(routers).keys[i] == routers[i].coords
      ensures Build(routers).table[routers[i].coords] == routers[i]
    {
      DistinctPlacementAt(routers, i);
    }
  }
}
