/** What `generate_noc.py` and `generate_noc_simplified.py` share: routers
    instantiated with parameters only, one external port per router named
    after its first node, and two whole-bundle assignments per link that
    always join the source's `east` bundle to the destination's `west`
    bundle, whatever the direction or tag of the link. */
module BundleLinks {
  import opened Fabric
  import opened CoordLookup
  import opened Adjacency
  import opened Wiring

  /** The bundle `router_<router>.<dir>`. */
  datatype Bundle = Bundle(router: int, dir: Dir)

  /** `assign <lhs> = <rhs>;` between two bundles. */
  datatype BundleAlias = BundleAlias(lhs: Bundle, rhs: Bundle)

  /** Why a render fails: a router without nodes has no `nodes[0]` to name
      its port after, and a template that does not parse fails before any
      router is looked at. */
  datatype GenError = RouterWithoutNodes(id: int) | TemplateSyntax

  /** The two assignments of one link. */
  function EastWest(srcId: int, dstId: int): seq<BundleAlias>
  {
    [BundleAlias(Bundle(srcId, East), Bundle(dstId, West)),
     BundleAlias(Bundle(dstId, West), Bundle(srcId, East))]
  }

  /** The template loop over all links. */
  function BundleAssignments(lk: Lookup, links: seq<Link>): (r: seq<BundleAlias>)
    requires Resolvable(lk, links)
    ensures |r| == 2 * |links|
  {
    if |links| == 0 then []
    else EastWest(lk.table[links[0].src].id, lk.table[links[0].dst].id) + BundleAssignments(lk, links[1..])
  }

  /** Link `i` owns assignments `2i` and `2i+1`: the source's east bundle
      and the destination's west bundle, assigned to each other. */
  lemma {:induction false} BundleAssignmentsAt(lk: Lookup, links: seq<Link>, i: int)
    requires Resolvable(lk, links)
    requires 0 <= i < |links|
    ensures BundleAssignments(lk, links)[2 * i] ==
              BundleAlias(Bundle(lk.table[links[i].src].id, East), Bundle(lk.table[links[i].dst].id, West))
    ensures BundleAssignments(lk, links)[2 * i + 1] ==
              BundleAlias(Bundle(lk.table[links[i].dst].id, West), Bundle(lk.table[links[i].src].id, East))
  {
    if i > 0 {
      BundleAssignmentsAt(lk, links[1..], i - 1);
      assert links[i] == links[1..][i - 1];
    }
  }

  /** Every assignment joins an east bundle with a west bundle, and each
      assignment's mirror image follows it: even a vertical link, whose two
      routers share a column, is joined east to west. */
  lemma EastWestOnly(lk: Lookup, links: seq<Link>)
    requires Resolvable(lk, links)
    ensures forall a :: a in BundleAssignments(lk, links) ==>
              (a.lhs.dir == East && a.rhs.dir == West) || (a.lhs.dir == West && a.rhs.dir == East)
    ensures forall i :: 0 <= i < |links| ==>
              BundleAssignments(lk, links)[2 * i + 1] ==
                BundleAlias(BundleAssignments(lk, links)[2 * i].rhs, BundleAssignments(lk, links)[2 * i].lhs)
  {
    var r := BundleAssignments(lk, links);
    forall a | a in r ensures (a.lhs.dir == East && a.rhs.dir == West) || (a.lhs.dir == West && a.rhs.dir == East) {
      var k :| 0 <= k < |r| && r[k] == a;
      BundleAssignmentsAt(lk, links, k / 2);
      assert k == 2 * (k / 2) || k == 2 * (k / 2) + 1;
    }
    forall i | 0 <= i < |links| ensures r[2 * i + 1] == BundleAlias(r[2 * i].rhs, r[2 * i].lhs) {
      BundleAssignmentsAt(lk, links, i);
    }
  }

  /** Index of the first router without nodes, if any. */
  function FirstWithoutNodes(routers: seq<Router>): (o: Option<nat>)
    ensures o.None? <==> forall i :: 0 <= i < |routers| ==> |routers[i].nodes| > 0
    ensures o.Some? ==> o.value < |routers| && |routers[o.value].nodes| == 0
    ensures o.Some? ==> forall k :: 0 <= k < o.value ==> |routers[k].nodes| > 0
  {
    if |routers| == 0 then None
    else if |routers[0].nodes| == 0 then Some(0)
    else
      match FirstWithoutNodes(routers[1..])
      case None => None
      case Some(i) => Some(i + 1)
  }

  /** Whether some node has type "master" (the membership test
      `"master" in <list of node types>`). */
  function AnyMaster(nodes: seq<Node>): (b: bool)
    ensures b <==> exists n :: n in nodes && n.kind == "master"
  {
    if |nodes| == 0 then false
    else
      assert forall n :: n in nodes <==> n == nodes[0] || n in nodes[1..] by {
        assert nodes == [nodes[0]] + nodes[1..];
      }
      nodes[0].kind == "master" || AnyMaster(nodes[1..])
  }

  /** A router's external port by the rule `generate_noc_simplified.py`
      writes: a master port exactly when one of its nodes is a master,
      named after its first node. */
  function RouterPort(r: Router): (p: ExternalPort)
    requires |r.nodes| > 0
    ensures p.name == r.nodes[0].name
    ensures p.bus == Master <==> exists n :: n in r.nodes && n.kind == "master"
  {
    ExternalPort(if AnyMaster(r.nodes) then Master else Slave, r.nodes[0].name)
  }

  /** An instance with parameters and clock/reset only. */
  function BareInstance(r: Router): (inst: Instance)
    ensures inst.id == r.id && inst.x == r.coords.x && inst.y == r.coords.y
    ensures inst.locals == [] && inst.dirs == []
  {
    Instance(r.id, r.coords.x, r.coords.y, [], [])
  }
}
