/** Value types shared by the four NoC generator scripts: router placement,
    local nodes, the compass port groups of a `floo_router` and the names of
    the signals in those groups. */
module Fabric {

  datatype Option<T> = None | Some(value: T)

  datatype Result<T, E> = Ok(value: T) | Err(error: E)

  /** An integer placement `(x, y)`, read from a router's `coords` field. */
  datatype Coord = Coord(x: int, y: int)

  /** A local node of a router; `kind` is the raw `type` string of the
      configuration ("master", "slave", or anything else). */
  datatype Node = Node(name: string, kind: string)

  /** One entry of the configuration's `routers` list. */
  datatype Router = Router(id: int, coords: Coord, nodes: seq<Node>)

  /** The four directional port groups of a router. */
  datatype Dir = North | South | East | West

  /** Request and response channels of a port group. */
  datatype Channel = Req | Rsp

  /** The `_i` (In) and `_o` (Out) suffix of a signal name. */
  datatype Polarity = In | Out

  /** The signal `router_<router>_<dir>_<chan>_<pol>` (or, hierarchically,
      `router_<router>.<dir>_<chan>_<pol>`). */
  datatype Signal = Signal(router: int, dir: Dir, chan: Channel, pol: Polarity)

  /** Bus interface kind of an external port: `AXI_BUS.Master` or `AXI_BUS.Slave`. */
  datatype BusKind = Master | Slave

  /** An entry `AXI_BUS.<bus> <name>` of the generated module's port list. */
  datatype ExternalPort = ExternalPort(bus: BusKind, name: string)

  /** A local binding `.local_axi_master(<node>)` or `.local_axi_slave(<node>)`. */
  datatype LocalBinding = LocalBinding(bus: BusKind, node: string)

  /** A directional port binding `.<dir>_<chan>_<pol>(<wire>)`; `None` is the
      empty connection `()`. */
  datatype DirBinding = DirBinding(dir: Dir, chan: Channel, pol: Polarity, wire: Option<Signal>)

  /** A `floo_router` instance with parameters ID, X and Y. Every script also
      binds `clk_i` and `rst_ni`, which is not recorded. */
  datatype Instance = Instance(id: int, x: int, y: int, locals: seq<LocalBinding>, dirs: seq<DirBinding>)

  function Opposite(d: Dir): (o: Dir)
    ensures o != d
  {
    match d
    case North => South
    case South => North
    case East => West
    case West => East
  }

  function Flip(p: Polarity): (q: Polarity)
    ensures q != p
  {
    if p == In then Out else In
  }

  /** The neighbouring position in direction `d`. The scripts call the `+y`
      neighbour "south" and the `+x` neighbour "east". */
  function Step(c: Coord, d: Dir): (n: Coord)
    ensures n != c
    ensures d == East ==> n.x > c.x
    ensures d == South ==> n.y > c.y && n.x == c.x
  {
    match d
    case East => Coord(c.x + 1, c.y)
    case West => Coord(c.x - 1, c.y)
    case South => Coord(c.x, c.y + 1)
    case North => Coord(c.x, c.y - 1)
  }

  /** The role rule of every script: a node is a master exactly when its
      type is the string "master"; any other type is a slave. */
  function NodeBus(n: Node): (b: BusKind)
    ensures b == Master <==> n.kind == "master"
  {
    if n.kind == "master" then Master else Slave
  }

  /** The ids of the listed routers. */
  function Ids(routers: seq<Router>): set<int>
  {
    set r | r in routers :: r.id
  }

  /** Every listed id is the id of a router at some index of the list. */
  lemma IdsIndex(routers: seq<Router>)
    ensures forall v :: v in Ids(routers) ==> exists i :: 0 <= i < |routers| && routers[i].id == v
  {
    forall v | v in Ids(routers) ensures exists i :: 0 <= i < |routers| && routers[i].id == v {
      var r :| r in routers && r.id == v;
      var i :| 0 <= i < |routers| && routers[i] == r;
    }
  }

  predicate Distinct<T(==)>(s: seq<T>)
  {
    forall i, j :: 0 <= i < j < |s| ==> s[i] != s[j]
  }

  /** A sequence has no repeated element exactly when no element occurs in
      it more than once. */
  lemma {:induction false} DistinctIffOnce<T>(s: seq<T>)
    ensures Distinct(s) <==> forall v :: multiset(s)[v] <= 1
  {
    if |s| == 0 {
    } else {
      DistinctIffOnce(s[1..]);
      assert s == [s[0]] + s[1..];
      assert multiset(s) == multiset{s[0]} + multiset(s[1..]);
      if Distinct(s) {
        assert Distinct(s[1..]) by {
          forall i, j | 0 <= i < j < |s[1..]| ensures s[1..][i] != s[1..][j] {
            assert s[1..][i] == s[i + 1] && s[1..][j] == s[j + 1];
          }
        }
        assert s[0] !in s[1..] by {
          forall k | 0 <= k < |s[1..]| ensures s[1..][k] != s[0] {
            assert s[1..][k] == s[k + 1];
          }
        }
      } else {
        var i, j :| 0 <= i < j < |s| && s[i] == s[j];
        if i == 0 {
          assert s[1..][j - 1] == s[0];
          assert multiset(s)[s[0]] >= 2;
        } else {
          assert s[1..][i - 1] == s[1..][j - 1];
          assert !Distinct(s[1..]);
          var v :| multiset(s[1..])[v] > 1;
          assert multiset(s)[v] > 1;
        }
      }
    }
  }

  /** In a sequence without repetitions every member occurs exactly once. */
  lemma DistinctOccursOnce<T>(s: seq<T>, v: T)
    requires Distinct(s)
    requires v in s
    ensures multiset(s)[v] == 1
  {
    DistinctIffOnce(s);
  }

  /** Repetition-freedom depends only on the multiset of elements. */
  lemma DistinctPermutation<T>(a: seq<T>, b: seq<T>)
    requires multiset(a) == multiset(b)
    requires Distinct(a)
    ensures Distinct(b)
  {
    DistinctIffOnce(a);
    DistinctIffOnce(b);
  }
}
