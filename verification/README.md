# NoC link compiler — Dafny model

This project models the link compiler at the heart of the FlooNoC fabric
generator scripts. Each script reads a list of routers, where every router has
an id, integer coordinates and a list of nodes (name and type). It then does
three things:

- It builds a position-keyed lookup of the routers.
- It derives the inter-router links for the `mesh` or `ring` topology.
- It emits a SystemVerilog module. The module has one `AXI_BUS` port per node
  or per router, one `floo_router` instance per router, and continuous
  assignments joining the port groups of linked routers. `test1_script.py`
  adds a fixed block of tie-offs.

The four variants are modelled as structured output records, not as text:

| script | Dafny module | output |
|---|---|---|
| `scripts/test1_script.py` | `Test1Script` | ports, 16 wire declarations per router, instances binding all 16 direction ports, link assignments, fixed tie-offs |
| `scripts/test_script.py` | `TestScript` | ports, instances listing 8 unconnected direction ports, hierarchical link assignments |
| `scripts/generate_noc.py` | `GenerateNoc` | one port per router, bare instances, per link a tagged comment plus two east/west bundle assignments |
| `scripts/generate_noc_simplified.py` | `GenerateNocSimplified` | the same shape, mesh only; the template as written does not parse |

The scripts share these modules:

- `Fabric`: the data model.
- `CoordLookup`: the Python dict comprehension keyed by coordinates. Keys keep
  the order in which each position first occurs, and the value at a position is
  the last router placed there.
- `CoordOrder`: Python's `sorted` on coordinate tuples.
- `Adjacency`: the mesh and ring rules.
- `Grid`: link counts on full rectangles.
- `Wiring`: the four-way direction test and the four assignments per link.
- `NodePorts`: the node port list and local bindings.
- `BundleLinks`: the east/west bundle assignments and the per-router port
  rules of the two `generate_noc` scripts.

Two further modules state the evidently intended behaviour:

- `Termination`: a general tie-off rule.
- `Scenario`: the 2 x 3 layout for which the fixed tie-off block was written.

Directions follow the scripts. The `+x` neighbour is "east" and the `+y`
neighbour is "south".

The model follows the scripts, including where they accept input a generator
would usually reject, or produce links a reader might not expect:

- Routers at the same position do not raise an error. The later router silently
  replaces the earlier one in the lookup (`CoordLookup.BuildKeepsLast`).
- An unknown topology does not raise an error. It gives no links at all
  (`Adjacency.Links`).
- A ring of one router is a self-link (`Adjacency.RingSingle`).
- A ring of two routers links the same pair twice, once in each direction
  (`Adjacency.RingPair`).
- Link kinds are tagged with `+x`/`+y` names, not East/North. `generate_noc.py`
  calls the `+y` tag "south-north", while the two test scripts call it
  "north-south".
- Termination is a fixed list, not a default for every unmatched port group.

## Model

| member | source | states |
|---|---|---|
| CoordLookup.Build | scripts/test1_script.py:47 | the lookup is well formed (its keys are distinct and are exactly the table's domain) and holds exactly the positions some router occupies |
| CoordLookup.BuildKeepsLast | scripts/test1_script.py:47 | the router stored at a position is the LAST router of the list placed there, as a dict comprehension overwrites earlier entries |
| CoordLookup.BuildFirstOrder | scripts/test1_script.py:47 | the lookup's keys are ordered by the index of the FIRST router at each position, so iteration order is first-insertion order |
| CoordLookup.BuildFromList | scripts/test1_script.py:47 | every router held by the lookup comes from the input list |
| CoordLookup.KeyCount | scripts/test1_script.py:47 | the number of keys is the number of occupied positions, at most the number of routers, and equals it exactly when no two routers share a position |
| CoordLookup.DistinctPlacementLookup | scripts/test1_script.py:47 | with distinct positions the lookup is the router list itself: key i is router i's position and maps to router i |
| CoordOrder.Sort | scripts/test1_script.py:59 | sorting yields a lexicographically (x, then y) ordered permutation of its input |
| CoordOrder.SortDistinct | scripts/test1_script.py:59 | sorting distinct positions gives a strictly increasing sequence with the same members |
| CoordOrder.SortIsOnly | scripts/test1_script.py:59 | the sorted order is unique: any ordered permutation of the keys is the result of sorting |
| Adjacency.Links | scripts/test1_script.py:50-65 | a topology other than "mesh" or "ring" yields no links; the ring has one link per occupied position |
| Adjacency.MeshLinks | scripts/test1_script.py:51-57 | every mesh link starts at a key, ends at an occupied position and is a unit `+x` or `+y` step with its tag; `Adjacency.MeshMembership` gives the converse and `Adjacency.MeshOrder` the order |
| Adjacency.RingLinks | scripts/test1_script.py:59-63 | one ring link per sorted position, each joining two of the sorted positions; `Adjacency.RingRule` pins which two |
| Adjacency.MeshRule | scripts/test1_script.py:50-57 | a `+x` link from c exists iff c and its east neighbour are occupied, a `+y` link iff c and its south neighbour are; no other shape occurs, both ends are occupied, no link repeats, at most two leave a position |
| Adjacency.MeshMembership | scripts/test1_script.py:51-57 | a link is produced iff its source is a key, its destination occupied, and it is a unit `+x` or `+y` step with the matching tag |
| Adjacency.MeshOrder | scripts/test1_script.py:51-57 | links appear grouped by source in key order, and for one source the east link precedes the south link |
| Adjacency.MeshOutDegree | scripts/test1_script.py:51-57 | the number of links leaving a position is the number of occupied east/south neighbours it has if it is a key, else zero |
| Adjacency.RingRule | scripts/test1_script.py:58-63 | link i joins the i-th smallest position to the next one, wrapping at the end; every occupied position has exactly one outgoing and one incoming ring link, others none |
| Adjacency.RingSingle | scripts/test1_script.py:58-63 | one router yields a single link from its position to itself |
| Adjacency.RingPair | scripts/test1_script.py:58-63 | two routers yield two links, smaller to larger position and back |
| Grid.MeshLength | scripts/test1_script.py:51-57 | the mesh has exactly one link per key with an occupied east neighbour plus one per key with an occupied south neighbour |
| Grid.FullGridLinkCount | scripts/test1_script.py:50-57 | a placement filling a w x h rectangle, with its corner at any position, yields w(h-1) + h(w-1) mesh links |
| Wiring.Orientation | scripts/test1_script.py:150-170 | the first true comparison picks the groups: east/west exactly when src.x < dst.x, west/east exactly when src.x > dst.x, south/north or north/south by y only when x is equal, and none exactly when the ends coincide; the destination group is always opposite the source group |
| Wiring.LinkAliases | scripts/test1_script.py:151-169 | the four assignments of a link, as written: each joins the source's group and the destination's opposite group, on one channel, with opposite suffixes (see `Wiring.LinkAliasesShape` and `Wiring.RequestPolarityAsWritten` for the polarity) |
| Wiring.LinkAliasesShape | scripts/test1_script.py:150-169 | each link gets four assignments, each between the source's group and the destination's opposite group, on one channel, with opposite `_o`/`_i` suffixes |
| Wiring.LinkWiring | scripts/test1_script.py:147-170 | a link between two distinct positions gets four assignments, a self-link none (no branch of the test fires) |
| Wiring.LinksResolvable | scripts/test1_script.py:147-148 | for any topology both ends of every link are in the lookup, so the template's two position lookups never fail |
| Wiring.Assignments | scripts/test1_script.py:144-171 | the loop emits four assignments per non-self link, every one of them mirrored |
| Wiring.WiringOrigin | scripts/test1_script.py:144-171 | every emitted assignment comes from one of the links |
| Wiring.AssignmentsCover | scripts/test1_script.py:144-171 | conversely, every assignment of every listed link is emitted |
| Wiring.AssignmentsAt | scripts/test1_script.py:144-171 | the output is the links' wirings concatenated in link order: the k-th assignment of link i sits right after the four assignments of each earlier non-self link |
| Wiring.AssignmentEnds | scripts/test1_script.py:144-171 | both sides of every assignment name a router held by the lookup |
| Wiring.MeshOrientation | scripts/test1_script.py:150-164 | mesh links take only the first (`+x`: east to west) or third (`+y`: south to north) branch, and each group faces the other router |
| Wiring.WiringSymmetric | scripts/test1_script.py:150-169 | reversing a link gives the same assignments in another order, whatever its tag |
| Wiring.MeshWiringFaces | scripts/test1_script.py:144-171 | under the mesh rule every assigned signal belongs to a port group that faces an occupied position |
| Wiring.RequestPolarityAsWritten | scripts/test1_script.py:151-154 | as written, the request assignments drive the source's and destination's `req_o` and leave both `req_i` of the link unassigned |
| Wiring.IntendedLinkAliases | scripts/test1_script.py:151-169 | corrected wiring: four mirrored assignments across the link, each driving an input from the peer's matching output, covering both channels in both directions |
| Wiring.IntendedAssignments | scripts/test1_script.py:144-171 | the corrected loop emits four assignments per non-self link and never assigns an output wire |
| Wiring.IntendedCovers | scripts/test1_script.py:144-171 | every corrected assignment of every listed link is emitted by the corrected loop |
| Wiring.ResponseHalfAgrees | scripts/test1_script.py:151-154 | the response assignments as written already match the corrected ones; the two request assignments differ |
| NodePorts.NodePort | scripts/test1_script.py:82 | a node's port carries the node's name and is a master port exactly when the node's type is "master" |
| NodePorts.NodePortList | scripts/test1_script.py:80-84 | the port list has one port per node over all routers |
| NodePorts.NodePortAt | scripts/test1_script.py:80-84 | node j of router i owns the port right after the ports of routers 0..i-1, in router-then-node order |
| NodePorts.LocalBindings | scripts/test1_script.py:125-128 | an instance binds each of its nodes in order, to the master port exactly when the node type is "master" |
| Test1Script.GroupWires | scripts/test1_script.py:92-93 | a router's group declares four wires, exactly that group's req/rsp in/out signals |
| Test1Script.DirWires | scripts/test1_script.py:91-112 | a direction's block declares four wires per router, exactly the signals of listed routers in that direction |
| Test1Script.WireDecls | scripts/test1_script.py:90-112 | the declarations hold sixteen wires per router, exactly the signals of the listed router ids |
| Test1Script.PortOrderSlots | scripts/test1_script.py:130-137 | each of the sixteen direction ports has one slot in the instance's port list |
| Test1Script.RouterInstance | scripts/test1_script.py:117-138 | an instance carries the router's id and position, binds its nodes, and binds sixteen direction ports each to the router's own wire of the same name |
| Test1Script.InstanceBindsEveryPort | scripts/test1_script.py:130-137 | every direction, channel and suffix is bound exactly once to its own wire |
| Test1Script.Instances | scripts/test1_script.py:117-139 | one instance per listed router, in list order |
| Test1Script.TieOffs | scripts/test1_script.py:180-198 | the block ties sixteen distinct signals: exactly the inputs of eight fixed port groups |
| Test1Script.Emit | scripts/test1_script.py:72-201 | the module has one port per node, node j of router i at its router-then-node offset; sixteen declared wires per router, exactly those of listed ids; one instance per router with its id, position and nodes, binding all sixteen direction ports to its own same-named wires; four mirrored assignments per non-self link, both sides declared wires; and sixteen distinct tie-offs, exactly the inputs of the eight fixed groups |
| Test1Script.TiesIgnoreConfiguration | scripts/test1_script.py:176-198 | the tie-offs are the same sixteen signals for every configuration and topology |
| Test1Script.TiesDeclaredIff | scripts/test1_script.py:180-198 | a tied signal is a declared wire exactly when a router with its id is listed |
| Test1Script.OutputWiresDoublyDriven | scripts/test1_script.py:151-169 | as written, every wire assigned on its `_o` side is also bound to its router's own output port, so it has two drivers |
| TestScript.PortOrderSlots | scripts/test_script.py:102-106 | each listed direction port has one slot in the instance's port list |
| TestScript.RouterInstance | scripts/test_script.py:90-107 | an instance carries the router's id and position, binds its nodes, and lists eight direction ports left unconnected |
| TestScript.InstanceListsPorts | scripts/test_script.py:102-106 | an instance lists a direction port exactly when it is one of the eight the template names, each once |
| TestScript.Emit | scripts/test_script.py:72-143 | the module has one port per node at its router-then-node offset; one instance per router with its id, position and nodes, listing exactly the eight listed direction ports unconnected; four mirrored assignments per non-self link, each side naming an emitted instance |
| TestScript.AgreesWithTest1 | scripts/test_script.py:80-140 | this script emits the same ports, the same link assignments and the same local bindings as `test1_script.py` |
| TestScript.ForwardLinksHalfListed | scripts/test_script.py:119-133 | for a `+x` or `+y` link the first two assignments name ports the instances list and the last two name ports they do not list |
| BundleLinks.BundleAssignments | scripts/generate_noc.py:105-109 | the loop emits two assignments per link |
| BundleLinks.BundleAssignmentsAt | scripts/generate_noc.py:105-109 | link i owns assignments 2i and 2i+1: the source's east bundle and the destination's west bundle, assigned to each other |
| BundleLinks.EastWestOnly | scripts/generate_noc.py:107-108 | every assignment joins an east bundle with a west bundle, whatever the link's direction, and each is followed by its mirror |
| BundleLinks.FirstWithoutNodes | scripts/generate_noc.py:76-84 | finds the first router without nodes, or none exactly when every router has a node |
| BundleLinks.AnyMaster | scripts/generate_noc_simplified.py:47 | true exactly when some node's type is "master" |
| BundleLinks.RouterPort | scripts/generate_noc_simplified.py:46-49 | a router's port is named after its first node and is a master port exactly when some node is a master |
| BundleLinks.BareInstance | scripts/generate_noc.py:90-100 | an instance carries the router's id and position and binds nothing else |
| GenerateNoc.SlavePort | scripts/generate_noc.py:77-83 | as written, a router's port is named after its first node and is always a slave port |
| GenerateNoc.Notes | scripts/generate_noc.py:106 | one comment per link naming both router ids and the link's tag |
| GenerateNoc.Emit | scripts/generate_noc.py:46-112 | rendering fails exactly when some router has no nodes, naming the first such router; otherwise one slave port and one bare instance per router, and per link a tagged comment and two bundle assignments |
| GenerateNoc.TagOnlyInComment | scripts/generate_noc.py:105-109 | a link's kind changes only its comment, never its assignments, and different kinds give different comments |
| GenerateNoc.MasterRouterGetsSlavePort | scripts/generate_noc.py:77-83 | as written, a router with a master node gets a slave port, where the corrected rule gives a master port |
| GenerateNoc.IntendedPorts | scripts/generate_noc.py:77-83 | corrected port list: one port per router, named after its first node, a master port exactly when some node is a master |
| GenerateNoc.PortsAgreeWithoutMasters | scripts/generate_noc.py:77-83 | the written and corrected port lists agree on a router exactly when it has no master node |
| GenerateNocSimplified.DisplayRoundTrip | scripts/generate_noc_simplified.py:47 | the template list-display parser reads back every comma-separated list of primaries |
| GenerateNocSimplified.TrailingComma | scripts/generate_noc_simplified.py:47 | the parser accepts a trailing comma after a one-item list |
| GenerateNocSimplified.ComprehensionRejected | scripts/generate_noc_simplified.py:47 | a list whose first item is followed by a word such as `for` is a syntax error |
| GenerateNocSimplified.Emit | scripts/generate_noc_simplified.py:30-66 | corrected output: fails exactly when some router has no nodes; otherwise per router a port by the master rule and a bare instance, and bundle assignments for the mesh links |
| GenerateNocSimplified.EmitAsWritten | scripts/generate_noc_simplified.py:42-68 | as written, building the template fails with a syntax error for every configuration, even where the corrected render succeeds |
| GenerateNocSimplified.AgreesWithGenerateNocMesh | scripts/generate_noc_simplified.py:30-63 | the corrected output succeeds exactly when `generate_noc.py` with the mesh topology does, with the same instances, assignments and port names |
| Termination.OpenGroups | scripts/test1_script.py:176-178 | lists exactly the directions in which a position has no occupied neighbour |
| Termination.GroupInputs | scripts/test1_script.py:180-183 | ties exactly the `req_i` and `rsp_i` of the given groups of one router |
| Termination.KeyTies | scripts/test1_script.py:176-198 | ties exactly the inputs of the held routers' groups that face no occupied position |
| Termination.IntendedTieOffs | scripts/test1_script.py:176-198 | corrected tie-offs: exactly the inputs of every held router's groups that have no neighbour, for any placement |
| Termination.IntendedTiesDisjointFromMesh | scripts/test1_script.py:144-198 | with unique ids no corrected tie-off is touched by any mesh link assignment, on either side |
| Termination.EveryInputTerminated | scripts/test1_script.py:144-198 | with corrected wiring and tie-offs, every input of every held router is tied off or driven by a mesh link assignment |
| Scenario.LayoutLookup | scripts/test1_script.py:47 | on the 2 x 3 layout the lookup holds the full rectangle and each position maps to the router whose id is its row-major index |
| Scenario.LayoutLinkCount | scripts/test1_script.py:50-57 | the 2 x 3 layout has seven mesh links |
| Scenario.OpenGroupsOfLayout | scripts/test1_script.py:179-198 | the layout's groups without a neighbour are the eight groups of the block plus router 2 west and router 3 east |
| Scenario.IntendedTiesOnLayout | scripts/test1_script.py:180-198 | on the layout the corrected tie-offs are the block's tie-offs plus the inputs of router 2 west and router 3 east |
| Scenario.TiesNeverAssigned | scripts/test1_script.py:180-198 | on the layout no tied signal appears in any mesh link assignment |
| Scenario.UntiedOpenGroups | scripts/test1_script.py:180-198 | on the layout router 2 west and router 3 east face no router, yet their inputs are neither tied nor assigned, though the corrected rule ties them |

## Left out

- Command-line parsing, reading the YAML file, and the `cfg.get` defaults for `name`, `topology`, `protocol` and `dimensions`. These are I/O and configuration. The model takes the router list and the topology string as parameters.
- The module header (`name`, `protocol`, `topology`, `dims` in comments and the module name), the `clk_i`/`rst_ni` ports and bindings, and every comment line except `generate_noc.py`'s link comment. These are fixed text that does not depend on the links.
- Jinja text rendering: whitespace control, line layout, and commas. This includes the trailing comma after every port of `generate_noc_simplified.py`, which the template as written never reaches. Output is modelled as structured records, not strings.
- The escape-sequence strip applied to the rendered text and the file writes. These are text post-processing and I/O.
- The FuseSoC `.core` file and all `print` lines, including the unsupported-topology warning. These are side outputs.
- Malformed router entries. A missing `coords` key, or a coordinate list with fewer than two entries, raises a Python error when the lookup is built. The model's `Coord` cannot express such input, so these errors are not modelled.
- A missing `id` raises nothing: Jinja renders the undefined value as empty text, giving names such as `router__north_req_o`. The model's ids are integers, so this case is not represented.
- A missing `nodes` key iterates as an empty list in both test scripts, and fails at `r['nodes'][0]` in `generate_noc.py`. The model covers this through the empty node list, which behaves the same way in all four scripts.
- A coordinate list with three or more entries is accepted, and only its first two entries are used. The model has no way to express the extra entries.
- Router ids that are not integers (strings, for example) are printed as given by the scripts. The model uses integers.

## Findings

| source | as written | input that shows it | evidently intended | confidence | as-written member | corrected member |
|---|---|---|---|---|---|---|
| scripts/test1_script.py:151-169 | each link assigns the source's `req_o` from the destination's `req_i`, and the destination's `req_o` from the source's `req_i` | mesh with router 0 at (0,0) and router 1 at (1,0): `router_0_east_req_o` gets a second driver and `router_1_west_req_i` is never driven | each `req_i` driven by the peer's `req_o`, as the response lines already do | not executed | Wiring.RequestPolarityAsWritten | Wiring.IntendedLinkAliases |
| scripts/generate_noc.py:77-83 | `is_master` is set inside the node loop, and a Jinja `set` inside a loop does not outlive that iteration | one router whose only node has type "master" gets `AXI_BUS.Slave` | a master port when some node is a master | not executed | GenerateNoc.MasterRouterGetsSlavePort | GenerateNoc.IntendedPorts |
| scripts/generate_noc_simplified.py:47 | a Python list comprehension inside a Jinja expression, which Jinja's list syntax cannot parse | any configuration, even an empty router list: the template raises a syntax error when it is built | a master port when some node's type is "master" | not executed | GenerateNocSimplified.EmitAsWritten | GenerateNocSimplified.Emit |
| scripts/test1_script.py:180-198 | a fixed tie-off block for routers 0, 1, 4 and 5 of a 2 x 3 grid | six routers with ids 0..5 at (i mod 2, i div 2) in a mesh: the inputs of router 2 west and router 3 east are neither tied nor driven | tie the inputs of every port group with no neighbour | not executed | Scenario.UntiedOpenGroups | Termination.IntendedTieOffs |
