/** Python's `sorted` on coordinate tuples, which the ring topology applies
    to the lookup's keys: lexicographic order, `x` first, then `y`. */
module CoordOrder {
  import opened Fabric

  /** Tuple order `(a.x, a.y) <= (b.x, b.y)`. */
  predicate Le(a: Coord, b: Coord)
  {
    a.x < b.x || (a.x == b.x && a.y <= b.y)
  }

  predicate Sorted(s: seq<Coord>)
  {
    forall i, j :: 0 <= i < j < |s| ==> Le(s[i], s[j])
  }

  /** Strict order, which a sorted list of distinct positions satisfies. */
  predicate Lt(a: Coord, b: Coord)
  {
    a.x < b.x || (a.x == b.x && a.y < b.y)
  }

  /** Insertion of one position into a sorted list. */
  function Insert(c: Coord, s: seq<Coord>): (r: seq<Coord>)
    requires Sorted(s)
    ensures Sorted(r)
    ensures multiset(r) == multiset(s) + multiset{c}
    ensures |r| == |s| + 1
  {
    if |s| == 0 then [c]
    else if Le(c, s[0]) then [c] + s
    else
      var rest := Insert(c, s[1..]);
      assert s == [s[0]] + s[1..];
      assert forall k :: 0 <= k < |rest| ==> Le(s[0], rest[k]) by {
        forall k | 0 <= k < |rest| ensures Le(s[0], rest[k]) {
          assert rest[k] in multiset(rest);
          assert rest[k] == c || rest[k] in multiset(s[1..]);
        }
      }
      [s[0]] + rest
  }

  /** The sorted permutation of `s`. */
  function Sort(s: seq<Coord>): (r: seq<Coord>)
    ensures Sorted(r)
    ensures multiset(r) == multiset(s)
    ensures |r| == |s|
  {
    if |s| == 0 then []
    else
      assert s == [s[0]] + s[1..];
      Insert(s[0], Sort(s[1..]))
  }

  /** Sorting positions that are all different gives a strictly increasing
      list of the same positions. */
  lemma SortDistinct(s: seq<Coord>)
    requires Distinct(s)
    ensures Distinct(Sort(s))
    ensures forall i, j :: 0 <= i < j < |Sort(s)| ==> Lt(Sort(s)[i], Sort(s)[j])
    ensures forall c :: c in Sort(s) <==> c in s
  {
    var r := Sort(s);
    DistinctPermutation(s, r);
    forall c ensures c in r <==> c in s {
      assert c in r <==> c in multiset(r);
      assert c in s <==> c in multiset(s);
    }
  }

  /** Two sorted lists with the same elements start with the same one. */
  lemma SortedHeads(a: seq<Coord>, b: seq<Coord>)
    requires Sorted(a) && Sorted(b)
    requires multiset(a) == multiset(b) && |a| > 0
    ensures |b| == |a| && a[0] == b[0]
  {
    assert |b| == |multiset(b)| == |multiset(a)| == |a|;
    assert a[0] in multiset(b) && b[0] in multiset(a);
    var i :| 0 <= i < |b| && b[i] == a[0];
    var j :| 0 <= j < |a| && a[j] == b[0];
    assert Le(b[0], a[0]) by {
      if i > 0 { assert Le(b[0], b[i]); }
    }
    assert Le(a[0], b[0]) by {
      if j > 0 { assert Le(a[0], a[j]); }
    }
  }

  /** Removing an equal head from two lists with the same elements leaves
      tails with the same elements. */
  lemma SameTails(a: seq<Coord>, b: seq<Coord>)
    requires multiset(a) == multiset(b) && |a| > 0 && |b| > 0 && a[0] == b[0]
    ensures multiset(a[1..]) == multiset(b[1..])
  {
    assert a == [a[0]] + a[1..];
    assert b == [b[0]] + b[1..];
    assert multiset(a) == multiset{a[0]} + multiset(a[1..]);
    assert multiset(b) == multiset{b[0]} + multiset(b[1..]);
    forall v ensures multiset(a[1..])[v] == multiset(b[1..])[v] {
      assert multiset(a)[v] == multiset(b)[v];
    }
  }

  /** Two sorted lists with the same elements are the same list, so `Sort`
      is fully described by its contract. */
  lemma {:induction false} SortedUnique(a: seq<Coord>, b: seq<Coord>)
    requires Sorted(a) && Sorted(b)
    requires multiset(a) == multiset(b)
    ensures a == b
  {
    if |a| == 0 {
      assert |b| == |multiset(b)| == 0;
    } else {
      SortedHeads(a, b);
      SameTails(a, b);
      SortedUnique(a[1..], b[1..]);
      assert a == [a[0]] + a[1..];
      assert b == [b[0]] + b[1..];
    }
  }

  /** A sorted arrangement of the elements of `s` is `Sort(s)`. */
  lemma SortIsOnly(s: seq<Coord>, t: seq<Coord>)
    requires Sorted(t) && multiset(t) == multiset(s)
    ensures Sort(s) == t
  {
    SortedUnique(Sort(s), t);
  }
}
