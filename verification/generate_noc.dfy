/** The SystemVerilog fabric of `generate_noc.py`: one external port per
    router, bare router instances, and per link a comment carrying the
    link's tag followed by two east/west bundle assignments. */
module GenerateNoc {
  import opened Fabric
  import opened CoordLookup
  import opened Adjacency
  import opened Wiring
  import opened BundleLinks

  /** The comment `// Link between router_<src> and router_<dst> (<tag>)`. */
  datatype LinkNote = LinkNote(src: int, dst: int, tag: string)

  datatype GenNocModule = GenNocModule(
    ports: seq<ExternalPort>,
    instances: seq<Instance>,
    notes: seq<LinkNote>,
    assigns: seq<BundleAlias>)

  /** The tag this script gives each kind of link; its `+y` links are
      "south-north", where the two test scripts say "north-south". */
  function Tag(k: LinkKind): string
  {
    match k
    case Horizontal => "east-west"
    case Vertical => "south-north"
    case RingEdge => "ring"
  }

  /** AS WRITTEN, the `is_master` flag set inside the node loop does not
      survive the loop, so every port is a slave port. */
  function SlavePort(r: Router): (p: ExternalPort)
    requires |r.nodes| > 0
    ensures p.name == r.nodes[0].name
    ensures p.bus == Slave
  {
    ExternalPort(Slave, r.nodes[0].name)
  }

  function Notes(lk: Lookup, links: seq<Link>): (ns: seq<LinkNote>)
    requires Resolvable(lk, links)
    ensures |ns| == |links|
    ensures forall i :: 0 <= i < |links| ==>
              ns[i] == LinkNote(lk.table[links[i].src].id, lk.table[links[i].dst].id, Tag(links[i].kind))
  {
    seq(|links|, i requires 0 <= i < |links| =>
      LinkNote(lk.table[links[i].src].id, lk.table[links[i].dst].id, Tag(links[i].kind)))
  }

  /** The whole script. Rendering the port list fails at the first router
      that has no node to name its port after. */
  function Emit(routers: seq<Router>, topology: string): (res: Result<GenNocModule, GenError>)
    ensures res.Err? <==> exists i :: 0 <= i < |routers| && |routers[i].nodes| == 0
    ensures res.Err? ==> res.error == RouterWithoutNodes(routers[FirstWithoutNodes(routers).value].id)
    ensures res.Ok? ==>
              && |res.value.ports| == |routers|
              && (forall i :: 0 <= i < |routers| ==>
                    res.value.ports[i] == ExternalPort(Slave, routers[i].nodes[0].name))
    ensures res.Ok? ==>
              && |res.value.instances| == |routers|
              && (forall i :: 0 <= i < |routers| ==> res.value.instances[i] == BareInstance(routers[i]))
    ensures res.Ok? ==>
              && Resolvable(Build(routers), Links(Build(routers), topology))
              && res.value.notes == Notes(Build(routers), Links(Build(routers), topology))
              && res.value.assigns == BundleAssignments(Build(routers), Links(Build(routers), topology))
  {
    match FirstWithoutNodes(routers)
    case Some(i) => Err(RouterWithoutNodes(routers[i].id))
    case None =>
      var lk := Build(routers);
      var links := Links(lk, topology);
      LinksResolvable(lk, topology);
      Ok(GenNocModule(
        seq(|routers|, i requires 0 <= i < |routers| && |routers[i].nodes| > 0 => SlavePort(routers[i])),
        seq(|routers|, i requires 0 <= i < |routers| => BareInstance(routers[i])),
        Notes(lk, links),
        BundleAssignments(lk, links)))
  }

  /** Only the comment of a link depends on its kind: a link of any kind
      between the same two positions gets the same two assignments. */
  lemma TagOnlyInComment(lk: Lookup, a: Coord, b: Coord, k: LinkKind, k': LinkKind)
    requires a in lk.table && b in lk.table
    ensures BundleAssignments(lk, [Link(a, b, k)]) == BundleAssignments(lk, [Link(a, b, k')])
    ensures Notes(lk, [Link(a, b, k)]) != Notes(lk, [Link(a, b, k')]) <==> k != k'
  {
    var n, n' := Notes(lk, [Link(a, b, k)]), Notes(lk, [Link(a, b, k')]);
    assert n[0].tag == Tag(k) && n'[0].tag == Tag(k');
    if k != k' {
      assert Tag(k) != Tag(k') by {
        assert Tag(Horizontal)[0] == 'e' && Tag(Vertical)[0] == 's' && Tag(RingEdge)[0] == 'r';
      }
    }
  }

  /** AS WRITTEN, a router with a master node still gets a slave port,
      while the rule of the simplified script makes it a master port. */
  lemma MasterRouterGetsSlavePort(routers: seq<Router>, topology: string, i: int)
    requires Emit(routers, topology).Ok?
    requires 0 <= i < |routers|
    requires exists n :: n in routers[i].nodes && n.kind == "master"
    ensures Emit(routers, topology).value.ports[i].bus == Slave
    ensures RouterPort(routers[i]).bus == Master
  {
  }

  /** The evidently intended port list: a master port exactly for routers
      with a master node. */
  function IntendedPorts(routers: seq<Router>): (ps: seq<ExternalPort>)
    requires forall i :: 0 <= i < |routers| ==> |routers[i].nodes| > 0
    ensures |ps| == |routers|
    ensures forall i :: 0 <= i < |routers| ==>
              ps[i].name == routers[i].nodes[0].name &&
              (ps[i].bus == Master <==> exists n :: n in routers[i].nodes && n.kind == "master")
  {
    seq(|routers|, i requires 0 <= i < |routers| && |routers[i].nodes| > 0 => RouterPort(routers[i]))
  }

  /** The written and the intended port lists agree exactly on routers
      without a master node. */
  lemma PortsAgreeWithoutMasters(routers: seq<Router>, topology: string)
    requires Emit(routers, topology).Ok?
    ensures forall i :: 0 <= i < |routers| ==>
              (Emit(routers, topology).value.ports[i] == IntendedPorts(routers)[i] <==>
               forall n :: n in routers[i].nodes ==> n.kind != "master")
  {
  }
}
