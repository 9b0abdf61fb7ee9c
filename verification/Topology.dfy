/**
 The topology graph of `simulator/src/topology/graph.cpp`: entity tables with dense IDs, adjacency
 lists, and operational state with a revision counter.

 `Graph` is the value of a topology. The functions here specify its state setters; the builders are in
 module Builders, and the class `Graphs.TopologyGraph` performs both in place.
 */
module Topology {
  import opened Prelude
  import opened Events

  datatype SwitchRole = Leaf | Spine
  datatype PortRole = Local | FabricDownlink | FabricUplink
  datatype LinkKind = LocalAttachment | FabricLink

  datatype Rack = Rack(id: nat, gpus: seq<nat>, nics: seq<nat>, leafSwitches: seq<nat>)
  datatype GpuWorker = GpuWorker(id: nat, rack: nat, attachedNic: nat, port: nat)
  datatype NicCard = NicCard(id: nat, rack: nat, attachedGpus: seq<nat>, ports: seq<nat>)
  datatype NetworkSwitch = NetworkSwitch(
    id: nat, rack: Option<nat>, role: SwitchRole, ports: seq<nat>, state: OperationalState)
  datatype Port = Port(id: nat, owner: NodeId, role: PortRole, state: OperationalState)
  datatype PhysicalLink = PhysicalLink(
    id: nat, endpointA: nat, endpointB: nat, kind: LinkKind, state: OperationalState)
  datatype DirectedLink = DirectedLink(id: DirectedLinkId, source: nat, destination: nat)

  datatype Graph = Graph(
    racks: seq<Rack>, gpus: seq<GpuWorker>, nics: seq<NicCard>, switches: seq<NetworkSwitch>,
    ports: seq<Port>, links: seq<PhysicalLink>,
    gpuArcs: seq<seq<DirectedLink>>, nicArcs: seq<seq<DirectedLink>>, switchArcs: seq<seq<DirectedLink>>,
    revision: nat)

  function Empty(): Graph {
    Graph([], [], [], [], [], [], [], [], [], 0)
  }

  /** The two directions of a physical link, `directed_links`. */
  function Direction(link: PhysicalLink, direction: LinkDirection): DirectedLink {
    match direction
    case AToB => DirectedLink(DirectedLinkId(link.id, AToB), link.endpointA, link.endpointB)
    case BToA => DirectedLink(DirectedLinkId(link.id, BToA), link.endpointB, link.endpointA)
  }

  predicate Contains(g: Graph, node: NodeId) {
    match node
    case Gpu(id) => id < |g.gpus| && g.gpus[id].id == id
    case Nic(id) => id < |g.nics| && g.nics[id].id == id
    case Switch(id) => id < |g.switches| && g.switches[id].id == id
  }

  predicate NodeUp(g: Graph, node: NodeId) {
    Contains(g, node) && (node.Switch? ==> g.switches[node.id].state == Up)
  }

  predicate HasLink(g: Graph, link: nat) {
    link < |g.links| && g.links[link].id == link
  }

  predicate HasPort(g: Graph, port: nat) {
    port < |g.ports| && g.ports[port].id == port
  }

  /** `is_operational`: the arc belongs to its link, and link, ports and owners are all up. */
  predicate Operational(g: Graph, arc: DirectedLink) {
    && HasLink(g, arc.id.link) && HasPort(g, arc.source) && HasPort(g, arc.destination)
    && (arc == Direction(g.links[arc.id.link], AToB) || arc == Direction(g.links[arc.id.link], BToA))
    && g.links[arc.id.link].state == Up
    && g.ports[arc.source].state == Up && g.ports[arc.destination].state == Up
    && NodeUp(g, g.ports[arc.source].owner) && NodeUp(g, g.ports[arc.destination].owner)
  }

  /** A known fabric arc, as `require_fabric_arc` accepts it. */
  predicate FabricArc(g: Graph, arc: DirectedLinkId) {
    HasLink(g, arc.link) && g.links[arc.link].kind == FabricLink
  }

  function ArcOf(g: Graph, arc: DirectedLinkId): DirectedLink
    requires HasLink(g, arc.link)
  {
    Direction(g.links[arc.link], arc.direction)
  }

  /** Whether a chunk may enter a configured arc. */
  predicate ArcUp(g: Graph, arc: DirectedLinkId) {
    FabricArc(g, arc) && Operational(g, ArcOf(g, arc))
  }

  // State setters: the new graph, and whether the setter reported success

  function SetLinkState(g: Graph, id: nat, state: OperationalState): (Graph, bool) {
    if !HasLink(g, id) then (g, false)
    else if g.links[id].state == state then (g, true)
    else if g.revision == U64_MAX then (g, false)
    else (g.(links := g.links[id := g.links[id].(state := state)], revision := g.revision + 1), true)
  }

  function SetPortState(g: Graph, id: nat, state: OperationalState): (Graph, bool) {
    if !HasPort(g, id) then (g, false)
    else if g.ports[id].state == state then (g, true)
    else if g.revision == U64_MAX then (g, false)
    else (g.(ports := g.ports[id := g.ports[id].(state := state)], revision := g.revision + 1), true)
  }

  function SetSwitchState(g: Graph, id: nat, state: OperationalState): (Graph, bool) {
    if !Contains(g, Switch(id)) then (g, false)
    else if g.switches[id].state == state then (g, true)
    else if g.revision == U64_MAX then (g, false)
    else (g.(switches := g.switches[id := g.switches[id].(state := state)], revision := g.revision + 1), true)
  }

  /** What no state setter changes. */
  ghost predicate SameStructure(g: Graph, h: Graph) {
    && h == g.(switches := h.switches, ports := h.ports, links := h.links, revision := h.revision)
    && |h.switches| == |g.switches| && |h.ports| == |g.ports| && |h.links| == |g.links|
    && (forall i :: 0 <= i < |g.switches| ==> h.switches[i] == g.switches[i].(state := h.switches[i].state))
    && (forall i :: 0 <= i < |g.ports| ==> h.ports[i] == g.ports[i].(state := h.ports[i].state))
    && (forall i :: 0 <= i < |g.links| ==> h.links[i] == g.links[i].(state := h.links[i].state))
  }

  /** A setter keeps the structure, and the revision moves exactly when the graph changes. */
  ghost predicate StateChange(g: Graph, h: Graph) {
    SameStructure(g, h) && g.revision <= h.revision && (h.revision == g.revision <==> h == g)
  }

  lemma LinkSetterIsChange(g: Graph, id: nat, state: OperationalState)
    ensures StateChange(g, SetLinkState(g, id, state).0)
  {
  }

  lemma PortSetterIsChange(g: Graph, id: nat, state: OperationalState)
    ensures StateChange(g, SetPortState(g, id, state).0)
  {
  }

  lemma SwitchSetterIsChange(g: Graph, id: nat, state: OperationalState)
    ensures StateChange(g, SetSwitchState(g, id, state).0)
  {
  }

  /** A link that is set down takes down only its own two directions. */
  lemma LinkDownIsLocal(g: Graph, id: nat, arc: DirectedLinkId)
    requires SetLinkState(g, id, Down).1 && ArcUp(g, arc) && arc.link != id
    ensures ArcUp(SetLinkState(g, id, Down).0, arc)
  {
  }

  lemma LinkUpRaises(g: Graph, id: nat, arc: DirectedLinkId)
    requires SetLinkState(g, id, Up).1 && ArcUp(g, arc)
    ensures ArcUp(SetLinkState(g, id, Up).0, arc)
  {
  }
}
