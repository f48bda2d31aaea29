/** The workflow-builder canvas as an edit state machine (WorkflowBuilder.tsx): node and edge ids stay distinct and every
  edge's ends stay present over any sequence of edits. The relationship policy is an arbitrary function. */
module Canvas {
  import opened Options
  import opened BuilderIds

  datatype NodeKind = EntryKind | AgentKind | EscalationKind | EndKind | OtherKind

  /** An agent's role: its trimmed name, and the branch targets of its route policy when it is a router. */
  datatype Role = Role(name: string, branches: Option<seq<string>>)

  datatype Node = Node(id: string, kind: NodeKind, role: Option<Role>)

  datatype Edge = Edge(
    id: string,
    source: string,
    target: string,
    sourceHandle: Option<string>,
    targetHandle: Option<string>,
    caption: Option<string>,
    isReturn: bool)

  // ---------------------------------------------------------------- the policy

  datatype Side = SourceSide | TargetSide

  datatype Companion = Companion(
    source: Side, target: Side, isReturn: bool, sourceHandle: Option<string>, targetHandle: Option<string>,
    condition: Option<string>)

  datatype Decision = Decision(
    isReturn: bool, sourceHandle: Option<string>, targetHandle: Option<string>, companions: seq<Companion>)

  datatype Request = Request(
    source: string, target: string, sourceHandle: Option<string>, targetHandle: Option<string>, isReturn: bool,
    strict: bool)

  type Policy = (seq<Node>, seq<Edge>, Request) -> Option<Decision>

  function NodeIds(nodes: seq<Node>): (ids: seq<string>)
    ensures |ids| == |nodes|
  {
    seq(|nodes|, k requires 0 <= k < |nodes| => nodes[k].id)
  }

  function EdgeIds(edges: seq<Edge>): (ids: seq<string>)
    ensures |ids| == |edges|
  {
    seq(|edges|, k requires 0 <= k < |edges| => edges[k].id)
  }

  /** `getBuilderPolicyDecision`: no relationship unless both nodes exist, and then whatever the policy says. */
  function Decide(policy: Policy, nodes: seq<Node>, edges: seq<Edge>, request: Request): (d: Option<Decision>)
    ensures d.Some? ==> request.source in NodeIds(nodes) && request.target in NodeIds(nodes)
  {
    if request.source in NodeIds(nodes) && request.target in NodeIds(nodes) then policy(nodes, edges, request) else None
  }

  // ---------------------------------------------------------------- integrity

  ghost predicate Distinct(ids: seq<string>) {
    forall j, k :: 0 <= j < k < |ids| ==> ids[j] != ids[k]
  }

  ghost predicate Anchored(nodes: seq<Node>, edges: seq<Edge>) {
    forall k :: 0 <= k < |edges| ==> edges[k].source in NodeIds(nodes) && edges[k].target in NodeIds(nodes)
  }

  ghost predicate Integrity(nodes: seq<Node>, edges: seq<Edge>) {
    Distinct(NodeIds(nodes)) && Distinct(EdgeIds(edges)) && Anchored(nodes, edges)
  }

  datatype Snapshot = Snapshot(nodes: seq<Node>, edges: seq<Edge>, selected: string)

  datatype State = State(nodes: seq<Node>, edges: seq<Edge>, selected: string, deleted: Option<Snapshot>)

  ghost predicate Sound(s: State) {
    && Integrity(s.nodes, s.edges)
    && (s.deleted.Some? ==> Integrity(s.deleted.value.nodes, s.deleted.value.edges))
  }

  // ---------------------------------------------------------------- edges

  /** `applyBuilderEdgeHandleRoles`: a role without a handle keeps the edge's own. */
  function WithHandles(edge: Edge, source: Option<string>, target: Option<string>): Edge {
    edge.(sourceHandle := if source.Some? then source else edge.sourceHandle,
          targetHandle := if target.Some? then target else edge.targetHandle)
  }

  /** `applyBuilderEdgeKind`: the label is kept whether or not it is to be preserved. */
  function WithKind(edge: Edge, isReturn: bool): Edge {
    if isReturn then edge.(caption := Some("response"), isReturn := true) else edge
  }

  predicate SameConnection(a: Edge, b: Edge) {
    a.source == b.source && a.target == b.target && a.sourceHandle == b.sourceHandle && a.targetHandle == b.targetHandle
  }

  /** React Flow's `addEdge`: an edge between the same handles is not added twice. */
  function AddEdge(edge: Edge, edges: seq<Edge>): seq<Edge> {
    if edge.source == "" || edge.target == "" || exists k :: 0 <= k < |edges| && SameConnection(edge, edges[k]) then edges
    else edges + [edge]
  }

  datatype Connection = Connection(
    source: Option<string>, target: Option<string>, sourceHandle: Option<string>, targetHandle: Option<string>)

  function NewEdge(source: string, target: string, caption: Option<string>, edges: seq<Edge>): Edge {
    Edge(EdgeId(source, target, EdgeIds(edges)), source, target, None, None, caption, false)
  }

  function Connect(policy: Policy, nodes: seq<Node>, edges: seq<Edge>, c: Connection): seq<Edge> {
    if c.source.None? || c.target.None? then edges
    else
      var request := Request(c.source.value, c.target.value, c.sourceHandle, c.targetHandle, false, true);
      match Decide(policy, nodes, edges, request)
      case None => edges
      case Some(d) =>
        var edge := WithHandles(NewEdge(c.source.value, c.target.value, None, edges), d.sourceHandle, d.targetHandle);
        AddEdge(WithKind(edge, d.isReturn), edges)
  }

  function Without(edges: seq<Edge>, id: string): seq<Edge> {
    if edges == [] then []
    else
      var last, rest := edges[|edges| - 1], Without(edges[..|edges| - 1], id);
      if last.id == id then rest else rest + [last]
  }

  /** `onReconnect`: React Flow moves the edge to the end under its old id, and the policy's handles and kind apply. */
  function Reconnect(policy: Policy, nodes: seq<Node>, edges: seq<Edge>, previous: Edge, c: Connection): seq<Edge> {
    if c.source.None? || c.target.None? then edges
    else
      var request := Request(c.source.value, c.target.value, c.sourceHandle, c.targetHandle, false, true);
      match Decide(policy, nodes, Without(edges, previous.id), request)
      case None => edges
      case Some(d) =>
        if c.source.value == "" || c.target.value == "" || previous.id !in EdgeIds(edges) then edges
        else
          var moved := previous.(source := c.source.value, target := c.target.value,
                                 sourceHandle := c.sourceHandle, targetHandle := c.targetHandle);
          Without(edges, previous.id)
          + [WithKind(WithHandles(moved, d.sourceHandle, d.targetHandle), d.isReturn)]
  }

  // ---------------------------------------------------------------- nodes

  datatype Added = Specialist | Router | Escalation | Exit

  function PrefixOf(added: Added): string {
    match added
    case Specialist => "agent-specialist-"
    case Router => "agent-router-"
    case Escalation => "human-escalation-"
    case Exit => "end-node-"
  }

  function KindOf(added: Added): NodeKind {
    match added
    case Specialist => AgentKind
    case Router => AgentKind
    case Escalation => EscalationKind
    case Exit => EndKind
  }

  function CaptionOf(added: Added): Option<string> {
    match added
    case Escalation => Some("human")
    case Exit => Some("exit")
    case _ => None
  }

  /** The agents another agent may route to: those with a role and a name. */
  function RouteTargets(nodes: seq<Node>, agent: string): seq<string> {
    if nodes == [] then []
    else
      var node := nodes[0];
      (if node.id == agent || !node.kind.AgentKind? || node.role.None? || node.role.value.name == "" then []
       else [node.id])
      + RouteTargets(nodes[1..], agent)
  }

  function RoleOf(added: Added, targets: seq<string>): Option<Role> {
    match added
    case Specialist => Some(Role("", None))
    case Router => Some(Role("", Some(if targets == [] then [] else [targets[0]])))
    case _ => None
  }

  function NewNode(nodes: seq<Node>, added: Added, targets: seq<string>): Node {
    Node(NumberedId(PrefixOf(added), NextNumber(NodeIds(nodes), PrefixOf(added))), KindOf(added),
         RoleOf(added, targets))
  }

  /** The node a new one is linked from: the selected one, or the entry. */
  function LinkSource(s: State): string {
    if s.selected in NodeIds(s.nodes) then s.selected else "entry"
  }

  predicate Linked(edges: seq<Edge>, source: string, target: string) {
    exists k :: 0 <= k < |edges| && edges[k].source == source && edges[k].target == target
  }

  /** `appendLinkedNode`. */
  function Append(policy: Policy, s: State, node: Node, caption: Option<string>): State {
    var nodes, source := s.nodes + [node], LinkSource(s);
    var edges :=
      if source == node.id || Linked(s.edges, source, node.id) then s.edges
      else
        match Decide(policy, nodes, s.edges, Request(source, node.id, None, None, false, true))
        case None => s.edges
        case Some(d) =>
          s.edges + [WithHandles(NewEdge(source, node.id, caption, s.edges), d.sourceHandle, d.targetHandle)];
    State(nodes, edges, node.id, None)
  }

  function Selected(s: State): Option<Node> {
    if s.nodes == [] then None
    else if s.selected in NodeIds(s.nodes) then Some(FindNode(s.nodes, s.selected)) else Some(s.nodes[0])
  }

  /** The targets a new router may start with: every named agent but the selected one. */
  function RouterTargets(s: State): seq<string> {
    var selected := Selected(s);
    RouteTargets(s.nodes, if selected.Some? && selected.value.kind.AgentKind? then selected.value.id else "")
  }

  function FindNode(nodes: seq<Node>, id: string): (n: Node)
    requires id in NodeIds(nodes)
    ensures n in nodes && n.id == id
  {
    if nodes[0].id == id then nodes[0]
    else
      assert forall k :: 0 < k < |nodes| ==> NodeIds(nodes)[k] == NodeIds(nodes[1..])[k - 1];
      FindNode(nodes[1..], id)
  }

  function NodesWithout(nodes: seq<Node>, id: string): seq<Node> {
    if nodes == [] then []
    else
      var last, rest := nodes[|nodes| - 1], NodesWithout(nodes[..|nodes| - 1], id);
      if last.id == id then rest else rest + [last]
  }

  function Detached(edges: seq<Edge>, id: string): seq<Edge> {
    if edges == [] then []
    else
      var last, rest := edges[|edges| - 1], Detached(edges[..|edges| - 1], id);
      if last.source == id || last.target == id then rest else rest + [last]
  }

  /** `deleteSelected`: the entry stays; the rest can come back until the next edit. */
  function DeleteSelected(s: State): State {
    if Selected(s).None? || Selected(s).value.kind.EntryKind? then s
    else
      var id := Selected(s).value.id;
      State(NodesWithout(s.nodes, id), Detached(s.edges, id), "entry", Some(Snapshot(s.nodes, s.edges, s.selected)))
  }

  function Undo(s: State): State {
    if s.deleted.None? then s
    else State(s.deleted.value.nodes, s.deleted.value.edges, s.deleted.value.selected, None)
  }

  const ENTRY := Node("entry", EntryKind, None)

  function Cleared(): State {
    State([ENTRY], [], "entry", None)
  }

  // ---------------------------------------------------------------- routers without branches

  predicate NeedsBranch(node: Node) {
    node.kind.AgentKind? && node.role.Some? && node.role.value.branches == Some([])
  }

  function Filled(nodes: seq<Node>, node: Node): Node {
    if !NeedsBranch(node) || RouteTargets(nodes, node.id) == [] then node
    else node.(role := Some(node.role.value.(branches := Some([RouteTargets(nodes, node.id)[0]]))))
  }

  function FillAll(nodes: seq<Node>): (r: seq<Node>)
    ensures |r| == |nodes|
  {
    seq(|nodes|, k requires 0 <= k < |nodes| => Filled(nodes, nodes[k]))
  }

  // ---------------------------------------------------------------- loading

  datatype GraphEdge = GraphEdge(id: string, source: string, target: string, isReturn: bool, condition: Option<string>)

  /** A published graph; nodes that the builder does not show are marked. */
  datatype GraphNode = GraphNode(node: Node, supported: bool)

  datatype Graph = Graph(nodes: seq<GraphNode>, edges: seq<GraphEdge>)

  function SupportedNodes(nodes: seq<GraphNode>): seq<Node> {
    if nodes == [] then []
    else
      var last, rest := nodes[|nodes| - 1], SupportedNodes(nodes[..|nodes| - 1]);
      if last.supported then rest + [last.node] else rest
  }

  function CanvasNodes(graph: Graph): seq<Node> {
    if SupportedNodes(graph.nodes) == [] then [ENTRY] else SupportedNodes(graph.nodes)
  }

  function ToBuilderEdge(e: GraphEdge): Edge {
    WithKind(Edge(e.id, e.source, e.target, Some("flow-source"), Some("flow-target"), e.condition, e.isReturn),
             e.isReturn)
  }

  function CanvasEdges(nodes: seq<Node>, edges: seq<GraphEdge>): seq<Edge> {
    if edges == [] then []
    else
      var last, rest := edges[|edges| - 1], CanvasEdges(nodes, edges[..|edges| - 1]);
      if last.source in NodeIds(nodes) && last.target in NodeIds(nodes) then rest + [ToBuilderEdge(last)] else rest
  }

  function FirstNonEntry(nodes: seq<Node>): Option<string> {
    if nodes == [] then None
    else if !nodes[0].kind.EntryKind? then Some(nodes[0].id)
    else FirstNonEntry(nodes[1..])
  }

  /** `toBuilderCanvas`. */
  function Loaded(graph: Graph): (seq<Node>, seq<Edge>, string) {
    var nodes := CanvasNodes(graph);
    (nodes, CanvasEdges(nodes, graph.edges),
     if FirstNonEntry(nodes).Some? then FirstNonEntry(nodes).value else nodes[0].id)
  }

  // ---------------------------------------------------------------- repair

  /** What repair makes of one edge, or nothing when it must go. */
  function Repaired(policy: Policy, nodes: seq<Node>, edges: seq<Edge>, edge: Edge): Option<Edge> {
    var request := Request(edge.source, edge.target, edge.sourceHandle, edge.targetHandle, edge.isReturn, false);
    match Decide(policy, nodes, edges, request)
    case None => None
    case Some(d) => Some(WithKind(WithHandles(edge, d.sourceHandle, d.targetHandle), d.isReturn))
  }

  datatype Repair = Repair(edges: seq<Edge>, count: nat)

  function RepairEach(policy: Policy, nodes: seq<Node>, edges: seq<Edge>, some: seq<Edge>): Repair {
    if some == [] then Repair([], 0)
    else
      var before, edge := RepairEach(policy, nodes, edges, some[..|some| - 1]), some[|some| - 1];
      match Repaired(policy, nodes, edges, edge)
      case None => Repair(before.edges, before.count + 1)
      case Some(e) => Repair(before.edges + [e], before.count + if e == edge then 0 else 1)
  }

  predicate HasCompanion(edges: seq<Edge>, source: string, target: string, isReturn: bool) {
    exists k :: 0 <= k < |edges| && edges[k].source == source && edges[k].target == target && edges[k].isReturn == isReturn
  }

  function EndOf(edge: Edge, side: Side): string {
    if side.SourceSide? then edge.source else edge.target
  }

  function WithCompanion(r: Repair, edge: Edge, c: Companion): Repair {
    var source, target := EndOf(edge, c.source), EndOf(edge, c.target);
    if HasCompanion(r.edges, source, target, c.isReturn) then r
    else
      var added := WithHandles(NewEdge(source, target, c.condition, r.edges), c.sourceHandle, c.targetHandle);
      Repair(r.edges + [WithKind(added, c.isReturn)], r.count + 1)
  }

  function WithCompanions(r: Repair, edge: Edge, companions: seq<Companion>): Repair {
    if companions == [] then r
    else WithCompanion(WithCompanions(r, edge, companions[..|companions| - 1]), edge, companions[|companions| - 1])
  }

  function EnsureFor(policy: Policy, nodes: seq<Node>, r: Repair, edge: Edge): Repair {
    if edge.source !in NodeIds(nodes) || edge.target !in NodeIds(nodes) || edge.isReturn then r
    else
      match Decide(policy, nodes, r.edges, Request(edge.source, edge.target, None, None, false, false))
      case None => r
      case Some(d) => WithCompanions(r, edge, d.companions)
  }

  function EnsureCompanions(policy: Policy, nodes: seq<Node>, r: Repair, edges: seq<Edge>): Repair {
    if edges == [] then r
    else EnsureFor(policy, nodes, EnsureCompanions(policy, nodes, r, edges[..|edges| - 1]), edges[|edges| - 1])
  }

  /** `repairBuilderEdges`. */
  function RepairEdges(policy: Policy, nodes: seq<Node>, edges: seq<Edge>): Repair {
    var repaired := RepairEach(policy, nodes, edges, edges);
    EnsureCompanions(policy, nodes, repaired, repaired.edges)
  }

  function RepairAll(policy: Policy, s: State): State {
    var repair := RepairEdges(policy, s.nodes, s.edges);
    if repair.count == 0 then s
    else State(s.nodes, repair.edges, if s.selected in NodeIds(s.nodes) then s.selected else "entry", None)
  }

  // ---------------------------------------------------------------- edits

  datatype Edit =
    | Add(added: Added, allowed: bool)
    | Link(connection: Connection)
    | Relink(previous: Edge, connection: Connection)
    | Delete
    | UndoDelete
    | Clear
    | RepairRelationships
    | Load(graph: Graph)
    | Published(graph: Graph)
    | Select(id: string)
    | EditRole(role: Role)
    | FillRouters

  /** The selected agent gets a new role. */
  function WithRole(nodes: seq<Node>, id: string, role: Role): (r: seq<Node>)
    ensures |r| == |nodes|
  {
    seq(|nodes|, k requires 0 <= k < |nodes| => if nodes[k].id == id then nodes[k].(role := Some(role)) else nodes[k])
  }

  /** The edges a published version must not give the same id, and the nodes it must not. */
  ghost predicate DistinctGraph(graph: Graph) {
    && Distinct(NodeIds(SupportedNodes(graph.nodes)))
    && Distinct(EdgeIds(CanvasEdges(CanvasNodes(graph), graph.edges)))
  }

  function Step(policy: Policy, s: State, e: Edit): State {
    match e
    case Add(added, allowed) =>
      if !allowed then s
      else Append(policy, s, NewNode(s.nodes, added, RouterTargets(s)), CaptionOf(added))
    case Link(c) =>
      if c.source.None? || c.target.None? then s
      else s.(edges := Connect(policy, s.nodes, s.edges, c), deleted := None)
    case Relink(previous, c) =>
      if c.source.None? || c.target.None? then s
      else s.(edges := Reconnect(policy, s.nodes, s.edges, previous, c), deleted := None)
    case Delete => DeleteSelected(s)
    case UndoDelete => Undo(s)
    case Clear => Cleared()
    case RepairRelationships => RepairAll(policy, s)
    case Load(graph) => State(Loaded(graph).0, Loaded(graph).1, Loaded(graph).2, None)
    case Published(graph) => State(Loaded(graph).0, Loaded(graph).1, Loaded(graph).2, s.deleted)
    case Select(id) => s.(selected := id)
    case EditRole(role) =>
      if Selected(s).None? then s else s.(nodes := WithRole(s.nodes, Selected(s).value.id, role), deleted := None)
    case FillRouters => s.(nodes := FillAll(s.nodes))
  }

  function Run(policy: Policy, edits: seq<Edit>): State {
    if edits == [] then Cleared() else Step(policy, Run(policy, edits[..|edits| - 1]), edits[|edits| - 1])
  }
}
