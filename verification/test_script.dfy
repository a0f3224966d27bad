/** The SystemVerilog fabric of `test_script.py`: the same external ports
    and link assignments as `test1_script.py`, but no wire declarations, no
    tie-offs, and instances that list eight direction ports with empty
    connections; the assignments name instance ports hierarchically. */
module TestScript {
  import opened Fabric
  import opened CoordLookup
  import opened Adjacency
  import opened Wiring
  import opened NodePorts
  import Test1Script

  /** The generated module. */
  datatype TestModule = TestModule(
    ports: seq<ExternalPort>,
    instances: seq<Instance>,
    assigns: seq<Alias>)

  /** The ports an instance lists: `req_i` and `rsp_o` of the north and west
      groups, `req_o` and `rsp_i` of the south and east groups. */
  predicate Listed(d: Dir, ch: Channel, p: Polarity)
  {
    if d == North || d == West then (ch == Req) == (p == In)
    else (ch == Req) == (p == Out)
  }

  /** The eight listed ports in the order written. */
  const PortOrder: seq<(Dir, Channel, Polarity)> := [
    (North, Req, In), (North, Rsp, Out), (South, Req, Out), (South, Rsp, In),
    (East, Req, Out), (East, Rsp, In), (West, Req, In), (West, Rsp, Out)]

  /** Position of a listed port: groups in north, south, east, west order,
      request before response. */
  function PortSlot(d: Dir, ch: Channel): (k: nat)
    ensures k < 8
  {
    2 * (match d case North => 0 case South => 1 case East => 2 case West => 3)
      + (if ch == Req then 0 else 1)
  }

  lemma SlotOfPort(k: int)
    requires 0 <= k < 8
    ensures Listed(PortOrder[k].0, PortOrder[k].1, PortOrder[k].2)
    ensures PortSlot(PortOrder[k].0, PortOrder[k].1) == k
  {
    if k < 4 {
      assert k == 0 || k == 1 || k == 2 || k == 3;
    } else {
      assert k == 4 || k == 5 || k == 6 || k == 7;
    }
  }

  lemma PortOrderSlots(d: Dir, ch: Channel, p: Polarity)
    requires Listed(d, ch, p)
    ensures PortOrder[PortSlot(d, ch)] == (d, ch, p)
  {
  }

  /** The instance of one router: parameters and local bindings as in
      `test1_script.py`, and eight direction ports left unconnected. */
  function RouterInstance(r: Router): (inst: Instance)
    ensures inst.id == r.id && inst.x == r.coords.x && inst.y == r.coords.y
    ensures inst.locals == LocalBindings(r.nodes)
    ensures |inst.dirs| == 8
    ensures forall b :: b in inst.dirs ==> b.wire.None?
  {
    var dirs := seq(8, k requires 0 <= k < 8 => DirBinding(PortOrder[k].0, PortOrder[k].1, PortOrder[k].2, None));
    Instance(r.id, r.coords.x, r.coords.y, LocalBindings(r.nodes), dirs)
  }

  /** An instance lists exactly the eight `Listed` ports, each once. */
  lemma InstanceListsPorts(r: Router)
    ensures forall d, ch, p :: DirBinding(d, ch, p, None) in RouterInstance(r).dirs <==> Listed(d, ch, p)
    ensures Distinct(RouterInstance(r).dirs)
  {
    var dirs := RouterInstance(r).dirs;
    forall d, ch, p ensures DirBinding(d, ch, p, None) in dirs <==> Listed(d, ch, p) {
      if Listed(d, ch, p) {
        PortOrderSlots(d, ch, p);
        assert dirs[PortSlot(d, ch)] == DirBinding(d, ch, p, None);
      } else {
        forall k | 0 <= k < 8 ensures dirs[k] != DirBinding(d, ch, p, None) {
          SlotOfPort(k);
        }
      }
    }
    forall i, j | 0 <= i < j < 8 ensures dirs[i] != dirs[j] {
      SlotOfPort(i);
      SlotOfPort(j);
    }
  }

  /** The whole script for a router list and a topology string: a port per
      node in router-then-node order, one instance per router listing the
      eight `Listed` ports unconnected, and four mirrored assignments per
      link, each side naming an emitted instance. */
  function Emit(routers: seq<Router>, topology: string): (m: TestModule)
    ensures |m.ports| == NodeCount(routers)
    ensures forall i, j :: 0 <= i < |routers| && 0 <= j < |routers[i].nodes| ==> PortAt(m.ports, routers, i, j)
    ensures |m.instances| == |routers|
    ensures forall i :: 0 <= i < |routers| ==>
              && m.instances[i].id == routers[i].id
              && m.instances[i].x == routers[i].coords.x && m.instances[i].y == routers[i].coords.y
              && m.instances[i].locals == LocalBindings(routers[i].nodes)
              && |m.instances[i].dirs| == 8
              && (forall b :: b in m.instances[i].dirs ==> b.wire.None?)
    ensures forall i, d, ch, p :: 0 <= i < |routers| ==>
              (DirBinding(d, ch, p, None) in m.instances[i].dirs <==> Listed(d, ch, p))
    ensures Resolvable(Build(routers), Links(Build(routers), topology))
    ensures |m.assigns| == 4 * ProperLinks(Links(Build(routers), topology))
    ensures forall a :: a in m.assigns ==>
              && Mirrored(a)
              && (exists i :: 0 <= i < |routers| && m.instances[i].id == a.lhs.router)
              && (exists i :: 0 <= i < |routers| && m.instances[i].id == a.rhs.router)
  {
    var lk := Build(routers);
    var instances := seq(|routers|, i requires 0 <= i < |routers| => RouterInstance(routers[i]));
    NodePortsAt(routers);
    InstancesListPorts(routers);
    Test1Script.LinkEndsListed(routers, topology);
    IdsIndex(routers);
    TestModule(NodePortList(routers), instances, Assignments(lk, Links(lk, topology)))
  }

  /** Every instance of the list lists exactly the `Listed` ports. */
  lemma InstancesListPorts(routers: seq<Router>)
    ensures forall i, d, ch, p :: 0 <= i < |routers| ==>
              (DirBinding(d, ch, p, None) in RouterInstance(routers[i]).dirs <==> Listed(d, ch, p))
  {
    forall i | 0 <= i < |routers| {
      InstanceListsPorts(routers[i]);
    }
  }

  /** The two scripts emit the same external ports and the same link
      assignments (up to how a signal is spelled); they differ in
      declarations, instance port lists and tie-offs. */
  lemma AgreesWithTest1(routers: seq<Router>, topology: string)
    ensures Emit(routers, topology).ports == Test1Script.Emit(routers, topology).ports
    ensures Emit(routers, topology).assigns == Test1Script.Emit(routers, topology).assigns
    ensures forall i :: 0 <= i < |routers| ==>
              Emit(routers, topology).instances[i].locals == Test1Script.Emit(routers, topology).instances[i].locals
  {
  }

  /** For a `+x` or `+y` link, the first two assignments name ports the
      instances list on both sides and the last two name ports they do not
      list on either side. */
  lemma ForwardLinksHalfListed(srcId: int, dstId: int, d: Dir)
    requires d == East || d == South
    ensures forall k :: 0 <= k < 2 ==>
              var a := LinkAliases(srcId, dstId, d)[k];
              Listed(a.lhs.dir, a.lhs.chan, a.lhs.pol) && Listed(a.rhs.dir, a.rhs.chan, a.rhs.pol)
    ensures forall k :: 2 <= k < 4 ==>
              var a := LinkAliases(srcId, dstId, d)[k];
              !Listed(a.lhs.dir, a.lhs.chan, a.lhs.pol) && !Listed(a.rhs.dir, a.rhs.chan, a.rhs.pol)
  {
  }
}
