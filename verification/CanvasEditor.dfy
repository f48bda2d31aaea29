/** The canvas as hook state updated in place, and the loops of repair and of filling routers. Every method takes the
  state exactly where the edit state machine takes it. */
module CanvasEditor {
  import opened Options
  import opened BuilderIds
  import opened Canvas

  /** `fillEmptyAgentRoutePolicyBranches`: the same list comes back when no router changed. */
  method FillEmptyAgentRoutePolicyBranches(nodes: seq<Node>) returns (filled: seq<Node>, changed: bool)
    ensures filled == FillAll(nodes)
    ensures changed <==> filled != nodes
  {
    hide RouteTargets;
    var nextNodes: seq<Node> := [];
    changed := false;
    for k := 0 to |nodes|
      invariant nextNodes == FillAll(nodes)[..k]
      invariant changed <==> exists j :: 0 <= j < k && FillAll(nodes)[j] != nodes[j]
    {
      var node := Filled(nodes, nodes[k]);
      if NeedsBranch(nodes[k]) && RouteTargets(nodes, nodes[k].id) != [] {
        changed := true;
        assert FillAll(nodes)[k] != nodes[k];
      }
      nextNodes := nextNodes + [node];
    }
    filled := if changed then nextNodes else nodes;
    assert !changed ==> FillAll(nodes) == nodes;
  }

  method RepairEachEdge(policy: Policy, nodes: seq<Node>, edges: seq<Edge>) returns (repair: Repair)
    ensures repair == RepairEach(policy, nodes, edges, edges)
  {
    var repairedEdges: seq<Edge>, repairCount := [], 0;
    for k := 0 to |edges|
      invariant Repair(repairedEdges, repairCount) == RepairEach(policy, nodes, edges, edges[..k])
    {
      assert edges[..k + 1][..k] == edges[..k];
      var repairedEdge := Repaired(policy, nodes, edges, edges[k]);
      if repairedEdge.None? {
        repairCount := repairCount + 1;
        continue;
      }
      if repairedEdge.value != edges[k] {
        repairCount := repairCount + 1;
      }
      repairedEdges := repairedEdges + [repairedEdge.value];
    }
    assert edges[..|edges|] == edges;
    repair := Repair(repairedEdges, repairCount);
  }

  method AddCompanions(before: Repair, edge: Edge, companions: seq<Companion>) returns (repair: Repair)
    ensures repair == WithCompanions(before, edge, companions)
  {
    repair := before;
    for k := 0 to |companions|
      invariant repair == WithCompanions(before, edge, companions[..k])
    {
      assert companions[..k + 1][..k] == companions[..k];
      var c := companions[k];
      var source, target := EndOf(edge, c.source), EndOf(edge, c.target);
      if HasCompanion(repair.edges, source, target, c.isReturn) {
        continue;
      }
      var id := BuildEdgeId(source, target, EdgeIds(repair.edges));
      var added := WithHandles(Edge(id, source, target, None, None, c.condition, false), c.sourceHandle, c.targetHandle);
      repair := Repair(repair.edges + [WithKind(added, c.isReturn)], repair.count + 1);
    }
    assert companions[..|companions|] == companions;
  }

  method EnsurePolicyCompanionEdges(policy: Policy, nodes: seq<Node>, before: Repair) returns (repair: Repair)
    ensures repair == EnsureCompanions(policy, nodes, before, before.edges)
  {
    var edges := before.edges;
    repair := before;
    for k := 0 to |edges|
      invariant repair == EnsureCompanions(policy, nodes, before, edges[..k])
    {
      assert edges[..k + 1][..k] == edges[..k];
      var edge := edges[k];
      if edge.source !in NodeIds(nodes) || edge.target !in NodeIds(nodes) || edge.isReturn {
        continue;
      }
      var decision := Decide(policy, nodes, repair.edges, Request(edge.source, edge.target, None, None, false, false));
      if decision.None? {
        continue;
      }
      repair := AddCompanions(repair, edge, decision.value.companions);
    }
    assert edges[..|edges|] == edges;
  }

  method RepairBuilderEdges(policy: Policy, nodes: seq<Node>, edges: seq<Edge>) returns (repair: Repair)
    ensures repair == RepairEdges(policy, nodes, edges)
  {
    repair := RepairEachEdge(policy, nodes, edges);
    repair := EnsurePolicyCompanionEdges(policy, nodes, repair);
  }

  class WorkflowBuilder {
    const policy: Policy
    var nodes: seq<Node>
    var edges: seq<Edge>
    var selectedNodeId: string
    var deletedCanvasSnapshot: Option<Snapshot>

    ghost function Model(): State
      reads this
    {
      State(nodes, edges, selectedNodeId, deletedCanvasSnapshot)
    }

    constructor (policy: Policy)
      ensures Model() == Cleared() && this.policy == policy
    {
      this.policy := policy;
      nodes, edges, selectedNodeId, deletedCanvasSnapshot := [ENTRY], [], "entry", None;
    }

    method AddNode(added: Added)
      modifies this
      ensures Model() == Step(policy, old(Model()), Add(added, true))
    {
      var number := GetNextBuilderNodeNumber(NodeIds(nodes), PrefixOf(added));
      var selected := if nodes == [] then None
                      else if selectedNodeId in NodeIds(nodes) then Some(FindNode(nodes, selectedNodeId))
                      else Some(nodes[0]);
      var targets :=
        RouteTargets(nodes, if selected.Some? && selected.value.kind.AgentKind? then selected.value.id else "");
      AppendLinkedNode(Node(NumberedId(PrefixOf(added), number), KindOf(added), RoleOf(added, targets)),
                       CaptionOf(added));
    }

    method AppendLinkedNode(nextNode: Node, caption: Option<string>)
      modifies this
      ensures Model() == Append(policy, old(Model()), nextNode, caption)
    {
      var sourceId := if selectedNodeId in NodeIds(nodes) then selectedNodeId else "entry";
      nodes := nodes + [nextNode];
      deletedCanvasSnapshot := None;
      if sourceId != nextNode.id && !Linked(edges, sourceId, nextNode.id) {
        var decision := Decide(policy, nodes, edges, Request(sourceId, nextNode.id, None, None, false, true));
        if decision.Some? {
          var id := BuildEdgeId(sourceId, nextNode.id, EdgeIds(edges));
          var edge := Edge(id, sourceId, nextNode.id, None, None, caption, false);
          edges := edges + [WithHandles(edge, decision.value.sourceHandle, decision.value.targetHandle)];
        }
      }
      selectedNodeId := nextNode.id;
    }

    method OnConnect(connection: Connection)
      modifies this
      ensures Model() == Step(policy, old(Model()), Link(connection))
    {
      if connection.source.None? || connection.target.None? {
        return;
      }
      deletedCanvasSnapshot := None;
      var source, target := connection.source.value, connection.target.value;
      var decision := Decide(policy, nodes, edges,
                             Request(source, target, connection.sourceHandle, connection.targetHandle, false, true));
      if decision.None? {
        return;
      }
      var id := BuildEdgeId(source, target, EdgeIds(edges));
      var edge := WithHandles(Edge(id, source, target, None, None, None, false), decision.value.sourceHandle,
                              decision.value.targetHandle);
      edges := AddEdge(WithKind(edge, decision.value.isReturn), edges);
    }

    method DeleteSelectedNode()
      modifies this
      ensures Model() == Step(policy, old(Model()), Delete)
    {
      if nodes == [] {
        return;
      }
      var selectedNode := if selectedNodeId in NodeIds(nodes) then FindNode(nodes, selectedNodeId) else nodes[0];
      if selectedNode.kind.EntryKind? {
        return;
      }
      deletedCanvasSnapshot := Some(Snapshot(nodes, edges, selectedNodeId));
      nodes := NodesWithout(nodes, selectedNode.id);
      edges := Detached(edges, selectedNode.id);
      selectedNodeId := "entry";
    }

    method UndoDeletion()
      modifies this
      ensures Model() == Step(policy, old(Model()), UndoDelete)
    {
      if deletedCanvasSnapshot.None? {
        return;
      }
      var snapshot := deletedCanvasSnapshot.value;
      nodes, edges, selectedNodeId := snapshot.nodes, snapshot.edges, snapshot.selected;
      deletedCanvasSnapshot := None;
    }

    method ClearCanvas()
      modifies this
      ensures Model() == Step(policy, old(Model()), Clear)
    {
      nodes, edges, selectedNodeId, deletedCanvasSnapshot := [ENTRY], [], "entry", None;
    }

    method RepairBuilderRelationships()
      modifies this
      ensures Model() == Step(policy, old(Model()), RepairRelationships)
    {
      var repair := RepairBuilderEdges(policy, nodes, edges);
      if repair.count == 0 {
        return;
      }
      deletedCanvasSnapshot := None;
      edges := repair.edges;
      if selectedNodeId !in NodeIds(nodes) {
        selectedNodeId := "entry";
      }
    }

    method FillRouterBranches()
      modifies this`nodes
      ensures Model() == Step(policy, old(Model()), FillRouters)
    {
      var filled, changed := FillEmptyAgentRoutePolicyBranches(nodes);
      nodes := filled;
    }
  }
}
