/** The SystemVerilog fabric of `test1_script.py`: an external port per
    node, four flat wires per port group of every router, one fully wired
    `floo_router` instance per router, four assignments per link, and a fixed
    block of sixteen tie-offs written for a six-router layout. */
module Test1Script {
  import opened Fabric
  import opened CoordLookup
  import opened Adjacency
  import opened Wiring
  import opened NodePorts

  /** The generated module; `wires` are the declared `logic` nets in
      declaration order and `ties` the signals assigned the constant `1'b0`. */
  datatype Test1Module = Test1Module(
    ports: seq<ExternalPort>,
    wires: seq<Signal>,
    instances: seq<Instance>,
    assigns: seq<Alias>,
    ties: seq<Signal>)

  /** The two declaration lines of one port group: `req_o, rsp_i` then
      `req_i, rsp_o`. */
  function GroupWires(id: int, d: Dir): (ws: seq<Signal>)
    ensures |ws| == 4
    ensures forall s :: s in ws <==> s.router == id && s.dir == d
  {
    GroupWiresCover(id, d);
    [Signal(id, d, Req, Out), Signal(id, d, Rsp, In), Signal(id, d, Req, In), Signal(id, d, Rsp, Out)]
  }

  lemma GroupWiresCover(id: int, d: Dir)
    ensures forall s: Signal :: s.router == id && s.dir == d ==>
              s in [Signal(id, d, Req, Out), Signal(id, d, Rsp, In), Signal(id, d, Req, In), Signal(id, d, Rsp, Out)]
  {
    forall s: Signal | s.router == id && s.dir == d
      ensures s in [Signal(id, d, Req, Out), Signal(id, d, Rsp, In), Signal(id, d, Req, In), Signal(id, d, Rsp, Out)]
    {
      if s.chan == Req && s.pol == Out { assert s == Signal(id, d, Req, Out); }
      else if s.chan == Rsp && s.pol == In { assert s == Signal(id, d, Rsp, In); }
      else if s.chan == Req { assert s == Signal(id, d, Req, In); }
      else { assert s == Signal(id, d, Rsp, Out); }
    }
  }

  /** One declaration block: the group `d` of every router in list order. */
  function DirWires(routers: seq<Router>, d: Dir): (ws: seq<Signal>)
    ensures |ws| == 4 * |routers|
    ensures forall s :: s in ws <==> s.dir == d && s.router in Ids(routers)
  {
    if |routers| == 0 then []
    else
      var n := |routers| - 1;
      IdsSnoc(routers);
      DirWires(routers[..n], d) + GroupWires(routers[n].id, d)
  }

  lemma IdsSnoc(routers: seq<Router>)
    requires |routers| > 0
    ensures Ids(routers) == Ids(routers[..|routers| - 1]) + {routers[|routers| - 1].id}
  {
    var n := |routers| - 1;
    assert routers == routers[..n] + [routers[n]];
    forall i | i in Ids(routers) ensures i in Ids(routers[..n]) + {routers[n].id} {
      var r :| r in routers && r.id == i;
      if r != routers[n] { assert r in routers[..n]; }
    }
    forall i | i in Ids(routers[..n]) ensures i in Ids(routers) {
      var r :| r in routers[..n] && r.id == i;
      assert r in routers;
    }
    assert routers[n] in routers;
  }

  /** The four declaration blocks, north, south, east, west: every listed
      router has all sixteen of its signals declared, and nothing else is. */
  function WireDecls(routers: seq<Router>): (ws: seq<Signal>)
    ensures |ws| == 16 * |routers|
    ensures forall s :: s in ws <==> s.router in Ids(routers)
  {
    WireDeclsCover(routers);
    DirWires(routers, North) + DirWires(routers, South) + DirWires(routers, East) + DirWires(routers, West)
  }

  lemma WireDeclsCover(routers: seq<Router>)
    ensures forall s: Signal :: s.router in Ids(routers) ==>
              s in DirWires(routers, North) + DirWires(routers, South) + DirWires(routers, East) + DirWires(routers, West)
  {
    var n, so, e, w := DirWires(routers, North), DirWires(routers, South), DirWires(routers, East), DirWires(routers, West);
    forall s: Signal | s.router in Ids(routers) ensures s in n + so + e + w {
      match s.dir
      case North => assert s in n;
      case South => assert s in so;
      case East => assert s in e;
      case West => assert s in w;
    }
  }

  /** Position of a port in the instance's binding list: first the `req_i`
      and `rsp_o` of north, south, east and west, then their `req_o` and
      `rsp_i`. */
  function PortSlot(d: Dir, ch: Channel, p: Polarity): (k: nat)
    ensures k < 16
  {
    var half := if (ch == Req) == (p == In) then 0 else 8;
    var group := match d case North => 0 case South => 1 case East => 2 case West => 3;
    half + 2 * group + (if ch == Req then 0 else 1)
  }

  /** The sixteen direction ports in binding order. */
  const PortOrder: seq<(Dir, Channel, Polarity)> := [
    (North, Req, In), (North, Rsp, Out), (South, Req, In), (South, Rsp, Out),
    (East, Req, In), (East, Rsp, Out), (West, Req, In), (West, Rsp, Out),
    (North, Req, Out), (North, Rsp, In), (South, Req, Out), (South, Rsp, In),
    (East, Req, Out), (East, Rsp, In), (West, Req, Out), (West, Rsp, In)]

  /** `PortSlot` inverts `PortOrder`: every one of the sixteen
      (group, channel, suffix) combinations sits at its own slot. */
  lemma PortOrderSlots(d: Dir, ch: Channel, p: Polarity)
    ensures PortOrder[PortSlot(d, ch, p)] == (d, ch, p)
  {
  }

  /** ... and every slot holds the combination it is the slot of. */
  lemma SlotOfPort(k: int)
    requires 0 <= k < 16
    ensures PortSlot(PortOrder[k].0, PortOrder[k].1, PortOrder[k].2) == k
  {
    if k < 4 {
      assert k == 0 || k == 1 || k == 2 || k == 3;
    } else if k < 8 {
      assert k == 4 || k == 5 || k == 6 || k == 7;
    } else if k < 12 {
      assert k == 8 || k == 9 || k == 10 || k == 11;
    } else {
      assert k == 12 || k == 13 || k == 14 || k == 15;
    }
  }

  /** The instance of one router: parameters from the router, one local
      binding per node, and every direction port bound to the router's own
      wire of the same name. */
  function RouterInstance(r: Router): (inst: Instance)
    ensures inst.id == r.id && inst.x == r.coords.x && inst.y == r.coords.y
    ensures inst.locals == LocalBindings(r.nodes)
    ensures |inst.dirs| == 16
    ensures forall b :: b in inst.dirs ==> b.wire == Some(Signal(r.id, b.dir, b.chan, b.pol))
  {
    var dirs := seq(16, k requires 0 <= k < 16 =>
      DirBinding(PortOrder[k].0, PortOrder[k].1, PortOrder[k].2,
                 Some(Signal(r.id, PortOrder[k].0, PortOrder[k].1, PortOrder[k].2))));
    Instance(r.id, r.coords.x, r.coords.y, LocalBindings(r.nodes), dirs)
  }

  /** Every one of the sixteen direction ports is bound, each exactly once. */
  lemma InstanceBindsEveryPort(r: Router)
    ensures forall d, ch, p :: DirBinding(d, ch, p, Some(Signal(r.id, d, ch, p))) in RouterInstance(r).dirs
    ensures Distinct(RouterInstance(r).dirs)
  {
    var dirs := RouterInstance(r).dirs;
    forall d, ch, p ensures DirBinding(d, ch, p, Some(Signal(r.id, d, ch, p))) in dirs {
      PortOrderSlots(d, ch, p);
      assert dirs[PortSlot(d, ch, p)] == DirBinding(d, ch, p, Some(Signal(r.id, d, ch, p)));
    }
    forall i, j | 0 <= i < j < 16 ensures dirs[i] != dirs[j] {
      SlotOfPort(i);
      SlotOfPort(j);
    }
  }

  function Instances(routers: seq<Router>): (insts: seq<Instance>)
    ensures |insts| == |routers|
    ensures forall i :: 0 <= i < |routers| ==> insts[i] == RouterInstance(routers[i])
  {
    seq(|routers|, i requires 0 <= i < |routers| => RouterInstance(routers[i]))
  }

  /** The port groups of the fixed tie-off block, in the order written:
      north and west of router 0, north and east of router 1, south and west
      of router 4, south and east of router 5. */
  const TiedGroups: seq<(int, Dir)> :=
    [(0, North), (0, West), (1, North), (1, East), (4, South), (4, West), (5, South), (5, East)]

  /** The tie-off block: `req_i` then `rsp_i` of each tied group, all driven
      to zero. Only inputs are tied, each signal once. */
  function TieOffs(): (ts: seq<Signal>)
    ensures |ts| == 16
    ensures forall t :: t in ts <==> t.pol == In && (t.router, t.dir) in TiedGroups
    ensures Distinct(ts)
  {
    var ts := seq(16, k requires 0 <= k < 16 =>
      Signal(TiedGroups[k / 2].0, TiedGroups[k / 2].1, if k % 2 == 0 then Req else Rsp, In));
    TieOffsCover(ts);
    ts
  }

  lemma TieOffsCover(ts: seq<Signal>)
    requires |ts| == 16
    requires forall k :: 0 <= k < 16 ==>
               ts[k] == Signal(TiedGroups[k / 2].0, TiedGroups[k / 2].1, if k % 2 == 0 then Req else Rsp, In)
    ensures forall t :: t in ts <==> t.pol == In && (t.router, t.dir) in TiedGroups
    ensures Distinct(ts)
  {
    forall t: Signal | t.pol == In && (t.router, t.dir) in TiedGroups ensures t in ts {
      var g :| 0 <= g < 8 && TiedGroups[g] == (t.router, t.dir);
      var k := 2 * g + (if t.chan == Req then 0 else 1);
      assert ts[k] == t;
    }
    forall i, j | 0 <= i < j < 16 ensures ts[i] != ts[j] {
      if i / 2 != j / 2 {
        assert TiedGroups[i / 2] != TiedGroups[j / 2];
      }
    }
  }

  /** Every instance of the list binds every direction port to its own wire. */
  lemma InstancesBindEveryPort(routers: seq<Router>)
    ensures forall i, d, ch, p :: 0 <= i < |routers| ==>
              DirBinding(d, ch, p, Some(Signal(routers[i].id, d, ch, p))) in Instances(routers)[i].dirs
  {
    forall i | 0 <= i < |routers| {
      InstanceBindsEveryPort(routers[i]);
    }
  }

  /** Both sides of every link assignment belong to a listed router. */
  lemma LinkEndsListed(routers: seq<Router>, topology: string)
    ensures Resolvable(Build(routers), Links(Build(routers), topology))
    ensures forall a :: a in Assignments(Build(routers), Links(Build(routers), topology)) ==>
              a.lhs.router in Ids(routers) && a.rhs.router in Ids(routers)
  {
    var lk := Build(routers);
    var links := Links(lk, topology);
    LinksResolvable(lk, topology);
    AssignmentEnds(lk, links);
    BuildFromList(routers);
    forall s: Signal | Owned(lk, s) ensures s.router in Ids(routers) {
      var c :| c in lk.table && lk.table[c].id == s.router;
      assert lk.table[c] in routers;
    }
  }

  /** The whole script for a router list and a topology string: a port per
      node in router-then-node order, sixteen declared wires per router, one
      fully wired instance per router, four mirrored assignments per link
      between declared wires, and the fixed sixteen tie-offs. */
  function Emit(routers: seq<Router>, topology: string): (m: Test1Module)
    ensures |m.ports| == NodeCount(routers)
    ensures forall i, j :: 0 <= i < |routers| && 0 <= j < |routers[i].nodes| ==> PortAt(m.ports, routers, i, j)
    ensures |m.wires| == 16 * |routers|
    ensures forall s :: s in m.wires <==> s.router in Ids(routers)
    ensures |m.instances| == |routers|
    ensures forall i :: 0 <= i < |routers| ==>
              && m.instances[i].id == routers[i].id
              && m.instances[i].x == routers[i].coords.x && m.instances[i].y == routers[i].coords.y
              && m.instances[i].locals == LocalBindings(routers[i].nodes)
              && |m.instances[i].dirs| == 16
              && (forall b :: b in m.instances[i].dirs ==> b.wire == Some(Signal(routers[i].id, b.dir, b.chan, b.pol)))
    ensures forall i, d, ch, p :: 0 <= i < |routers| ==>
              DirBinding(d, ch, p, Some(Signal(routers[i].id, d, ch, p))) in m.instances[i].dirs
    ensures Resolvable(Build(routers), Links(Build(routers), topology))
    ensures |m.assigns| == 4 * ProperLinks(Links(Build(routers), topology))
    ensures forall a :: a in m.assigns ==> Mirrored(a) && a.lhs in m.wires && a.rhs in m.wires
    ensures |m.ties| == 16 && Distinct(m.ties)
    ensures forall t :: t in m.ties <==> t.pol == In && (t.router, t.dir) in TiedGroups
  {
    var lk := Build(routers);
    NodePortsAt(routers);
    InstancesBindEveryPort(routers);
    LinkEndsListed(routers, topology);
    Test1Module(NodePortList(routers), WireDecls(routers), Instances(routers),
                Assignments(lk, Links(lk, topology)), TieOffs())
  }

  /** The tie-off block does not depend on the configuration at all. */
  lemma TiesIgnoreConfiguration(a: seq<Router>, ta: string, b: seq<Router>, tb: string)
    ensures Emit(a, ta).ties == Emit(b, tb).ties
    ensures |Emit(a, ta).ties| == 16
  {
  }

  /** A tied signal is a declared wire exactly when a router with its id is
      listed; otherwise the assignment names an undeclared net. */
  lemma TiesDeclaredIff(routers: seq<Router>, topology: string)
    ensures forall t :: t in Emit(routers, topology).ties ==>
              (t in Emit(routers, topology).wires <==> t.router in Ids(routers))
  {
  }

  /** AS WRITTEN, every wire on the left of an `_o` assignment is also bound
      to that router's own output port, so it has two drivers. */
  lemma OutputWiresDoublyDriven(routers: seq<Router>, topology: string)
    ensures forall a :: a in Emit(routers, topology).assigns && a.lhs.pol == Out ==>
              exists i :: 0 <= i < |routers| &&
                DirBinding(a.lhs.dir, a.lhs.chan, Out, Some(a.lhs)) in Emit(routers, topology).instances[i].dirs
  {
    var m := Emit(routers, topology);
    var lk := Build(routers);
    var links := Links(lk, topology);
    AssignmentEnds(lk, links);
    BuildFromList(routers);
    forall a | a in m.assigns && a.lhs.pol == Out
      ensures exists i :: 0 <= i < |routers| && DirBinding(a.lhs.dir, a.lhs.chan, Out, Some(a.lhs)) in m.instances[i].dirs
    {
      var c :| c in lk.table && lk.table[c].id == a.lhs.router;
      var owner := lk.table[c];
      assert owner in routers;
      var i :| 0 <= i < |routers| && routers[i] == owner;
      InstanceBindsEveryPort(owner);
      assert a.lhs == Signal(owner.id, a.lhs.dir, a.lhs.chan, Out);
    }
  }
}
