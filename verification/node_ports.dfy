/** The per-node external port list and local bindings shared by
    `test1_script.py` and `test_script.py`: one `AXI_BUS.Master` or
    `AXI_BUS.Slave` port per node, in router-then-node order, and one
    `.local_axi_master`/`.local_axi_slave` binding per node of an instance. */
module NodePorts {
  import opened Fabric

  /** Total number of nodes over all routers. */
  function NodeCount(routers: seq<Router>): nat
  {
    if |routers| == 0 then 0
    else NodeCount(routers[..|routers| - 1]) + |routers[|routers| - 1].nodes|
  }

  /** The port of one node. */
  function NodePort(n: Node): (p: ExternalPort)
    ensures p.name == n.name
    ensures p.bus == Master <==> n.kind == "master"
  {
    ExternalPort(NodeBus(n), n.name)
  }

  function PortsOf(nodes: seq<Node>): (ps: seq<ExternalPort>)
    ensures |ps| == |nodes|
  {
    seq(|nodes|, j requires 0 <= j < |nodes| => NodePort(nodes[j]))
  }

  /** The nested template loop `for r in routers: for n in r.nodes`. */
  function NodePortList(routers: seq<Router>): (ports: seq<ExternalPort>)
    ensures |ports| == NodeCount(routers)
  {
    if |routers| == 0 then []
    else NodePortList(routers[..|routers| - 1]) + PortsOf(routers[|routers| - 1].nodes)
  }

  /** Node `j` of router `i` owns the port right after the ports of all nodes
      of routers `0..i-1`; its name is the node's name and it is a master
      port exactly when the node's type is "master". */
  lemma {:induction false} NodePortAt(routers: seq<Router>, i: int, j: int)
    requires 0 <= i < |routers| && 0 <= j < |routers[i].nodes|
    ensures NodeCount(routers[..i]) + j < |NodePortList(routers)|
    ensures NodePortList(routers)[NodeCount(routers[..i]) + j] == NodePort(routers[i].nodes[j])
  {
    var n := |routers| - 1;
    var prefix := routers[..n];
    var ports, before, last := NodePortList(routers), NodePortList(prefix), PortsOf(routers[n].nodes);
    assert ports == before + last;
    if i < n {
      assert routers[..i] == prefix[..i];
      assert routers[i] == prefix[i];
      NodePortAt(prefix, i, j);
    } else {
      assert routers[..i] == prefix;
      assert ports[|before| + j] == last[j];
    }
  }

  /** In `ports`, node `j` of router `i` owns the port right after those of
      the nodes of routers `0..i-1`. */
  predicate PortAt(ports: seq<ExternalPort>, routers: seq<Router>, i: int, j: int)
    requires 0 <= i < |routers| && 0 <= j < |routers[i].nodes|
  {
    NodeCount(routers[..i]) + j < |ports| && ports[NodeCount(routers[..i]) + j] == NodePort(routers[i].nodes[j])
  }

  /** `NodePortAt` for every router and node at once. */
  lemma NodePortsAt(routers: seq<Router>)
    ensures forall i, j :: 0 <= i < |routers| && 0 <= j < |routers[i].nodes| ==> PortAt(NodePortList(routers), routers, i, j)
  {
    forall i, j | 0 <= i < |routers| && 0 <= j < |routers[i].nodes| ensures PortAt(NodePortList(routers), routers, i, j) {
      NodePortAt(routers, i, j);
    }
  }

  /** The local bindings of one instance, one per node in order. */
  function LocalBindings(nodes: seq<Node>): (bs: seq<LocalBinding>)
    ensures |bs| == |nodes|
    ensures forall j :: 0 <= j < |nodes| ==>
              bs[j].node == nodes[j].name && (bs[j].bus == Master <==> nodes[j].kind == "master")
  {
    seq(|nodes|, j requires 0 <= j < |nodes| => LocalBinding(NodeBus(nodes[j]), nodes[j].name))
  }
}
