/** Canvas integrity over whole edit runs, and what each of the larger edits promises by itself. */
module CanvasIntegrity {
  import opened Options
  import opened BuilderIds
  import opened Canvas

  // ---------------------------------------------------------------- lists of ids

  lemma DistinctGrows(ids: seq<string>, id: string)
    ensures Distinct(ids + [id]) <==> Distinct(ids) && id !in ids
    ensures forall x :: x in ids + [id] <==> x in ids || x == id
  {
    var more := ids + [id];
    if Distinct(more) {
      assert forall k :: 0 <= k < |ids| ==> more[k] == ids[k];
      assert more[|ids|] == id;
    }
  }

  lemma EdgesGrow(edges: seq<Edge>, edge: Edge)
    ensures EdgeIds(edges + [edge]) == EdgeIds(edges) + [edge.id]
    ensures Distinct(EdgeIds(edges + [edge])) <==> Distinct(EdgeIds(edges)) && edge.id !in EdgeIds(edges)
    ensures forall x :: x in EdgeIds(edges + [edge]) <==> x in EdgeIds(edges) || x == edge.id
  {
    DistinctGrows(EdgeIds(edges), edge.id);
    assert EdgeIds(edges + [edge]) == EdgeIds(edges) + [edge.id];
  }

  lemma NodesGrow(nodes: seq<Node>, node: Node)
    ensures NodeIds(nodes + [node]) == NodeIds(nodes) + [node.id]
    ensures Distinct(NodeIds(nodes + [node])) <==> Distinct(NodeIds(nodes)) && node.id !in NodeIds(nodes)
    ensures forall x :: x in NodeIds(nodes + [node]) <==> x in NodeIds(nodes) || x == node.id
  {
    DistinctGrows(NodeIds(nodes), node.id);
    assert NodeIds(nodes + [node]) == NodeIds(nodes) + [node.id];
  }

  lemma LastApart<T>(xs: seq<T>)
    requires xs != []
    ensures xs[..|xs| - 1] + [xs[|xs| - 1]] == xs
  {
  }

  // ---------------------------------------------------------------- edges join and leave

  lemma EdgeJoins(nodes: seq<Node>, edges: seq<Edge>, edge: Edge)
    requires Integrity(nodes, edges) && edge.id !in EdgeIds(edges)
    requires edge.source in NodeIds(nodes) && edge.target in NodeIds(nodes)
    ensures Integrity(nodes, edges + [edge])
  {
    EdgesGrow(edges, edge);
    hide Distinct;
  }

  lemma NewEdgeIsFresh(source: string, target: string, caption: Option<string>, edges: seq<Edge>)
    ensures var e := NewEdge(source, target, caption, edges);
      e.id !in EdgeIds(edges) && e.source == source && e.target == target
  {
  }

  lemma ConnectKeeps(policy: Policy, nodes: seq<Node>, edges: seq<Edge>, c: Connection)
    requires Integrity(nodes, edges)
    ensures Integrity(nodes, Connect(policy, nodes, edges, c))
  {
    if c.source.Some? && c.target.Some? {
      var request := Request(c.source.value, c.target.value, c.sourceHandle, c.targetHandle, false, true);
      var d := Decide(policy, nodes, edges, request);
      if d.Some? {
        var edge := WithHandles(NewEdge(c.source.value, c.target.value, None, edges), d.value.sourceHandle,
                                d.value.targetHandle);
        hide Integrity, Decide, NewEdge;
        NewEdgeIsFresh(c.source.value, c.target.value, None, edges);
        EdgeJoins(nodes, edges, WithKind(edge, d.value.isReturn));
      }
    }
  }

  lemma InitKeeps(nodes: seq<Node>, edges: seq<Edge>, edge: Edge)
    requires Integrity(nodes, edges + [edge])
    ensures Integrity(nodes, edges) && edge.id !in EdgeIds(edges)
    ensures edge.source in NodeIds(nodes) && edge.target in NodeIds(nodes)
  {
    EdgesGrow(edges, edge);
    assert edge == (edges + [edge])[|edges|] && forall k :: 0 <= k < |edges| ==> (edges + [edge])[k] == edges[k];
    hide Distinct, NodeIds, EdgeIds;
  }

  lemma {:induction false} WithoutKeeps(nodes: seq<Node>, edges: seq<Edge>, id: string)
    requires Integrity(nodes, edges)
    ensures Integrity(nodes, Without(edges, id)) && id !in EdgeIds(Without(edges, id))
    ensures forall x :: x in EdgeIds(Without(edges, id)) ==> x in EdgeIds(edges)
  {
    if edges != [] {
      var init, last := edges[..|edges| - 1], edges[|edges| - 1];
      LastApart(edges);
      hide Distinct, NodeIds, EdgeIds;
      InitKeeps(nodes, init, last);
      WithoutKeeps(nodes, init, id);
      EdgesGrow(init, last);
      if last.id != id {
        EdgesGrow(Without(init, id), last);
        EdgeJoins(nodes, Without(init, id), last);
      }
      hide Integrity;
    }
  }

  lemma ReconnectKeeps(policy: Policy, nodes: seq<Node>, edges: seq<Edge>, previous: Edge, c: Connection)
    requires Integrity(nodes, edges)
    ensures Integrity(nodes, Reconnect(policy, nodes, edges, previous, c))
  {
    if c.source.Some? && c.target.Some? {
      var request := Request(c.source.value, c.target.value, c.sourceHandle, c.targetHandle, false, true);
      var d := Decide(policy, nodes, Without(edges, previous.id), request);
      if d.Some? && c.source.value != "" && c.target.value != "" && previous.id in EdgeIds(edges) {
        var moved := previous.(source := c.source.value, target := c.target.value,
                               sourceHandle := c.sourceHandle, targetHandle := c.targetHandle);
        var edge := WithKind(WithHandles(moved, d.value.sourceHandle, d.value.targetHandle), d.value.isReturn);
        WithoutKeeps(nodes, edges, previous.id);
        assert edge.source in NodeIds(nodes) && edge.target in NodeIds(nodes) && edge.id == previous.id;
        hide Integrity, Decide, Without;
        EdgeJoins(nodes, Without(edges, previous.id), edge);
      }
    }
  }

  // ---------------------------------------------------------------- nodes join and leave

  lemma NodeJoins(nodes: seq<Node>, edges: seq<Edge>, node: Node)
    requires Integrity(nodes, edges) && node.id !in NodeIds(nodes)
    ensures Integrity(nodes + [node], edges)
  {
    NodesGrow(nodes, node);
    hide Distinct;
  }

  lemma AppendKeeps(policy: Policy, s: State, node: Node, caption: Option<string>)
    requires Sound(s) && node.id !in NodeIds(s.nodes)
    ensures Sound(Append(policy, s, node, caption))
  {
    var nodes, source := s.nodes + [node], LinkSource(s);
    NodeJoins(s.nodes, s.edges, node);
    if source != node.id && !Linked(s.edges, source, node.id) {
      var d := Decide(policy, nodes, s.edges, Request(source, node.id, None, None, false, true));
      if d.Some? {
        NewEdgeIsFresh(source, node.id, caption, s.edges);
        hide Integrity, Decide, NewEdge, LinkSource, Linked;
        EdgeJoins(nodes, s.edges,
                  WithHandles(NewEdge(source, node.id, caption, s.edges), d.value.sourceHandle, d.value.targetHandle));
      }
    }
    hide Integrity, Decide, NewEdge, LinkSource, Linked;
  }

  lemma {:induction false} NodesWithoutOne(nodes: seq<Node>, id: string)
    requires Distinct(NodeIds(nodes))
    ensures Distinct(NodeIds(NodesWithout(nodes, id)))
    ensures forall x :: x in NodeIds(NodesWithout(nodes, id)) <==> x in NodeIds(nodes) && x != id
  {
    if nodes != [] {
      var init, last := nodes[..|nodes| - 1], nodes[|nodes| - 1];
      hide Distinct;
      LastApart(nodes);
      NodesGrow(init, last);
      NodesWithoutOne(init, id);
      NodesGrow(NodesWithout(init, id), last);
      hide NodeIds;
    }
  }

  lemma {:induction false} DetachedKeeps(nodes: seq<Node>, edges: seq<Edge>, id: string, remaining: seq<Node>)
    requires Distinct(NodeIds(remaining)) && Distinct(EdgeIds(edges)) && Anchored(nodes, edges)
    requires forall x :: x in NodeIds(nodes) && x != id ==> x in NodeIds(remaining)
    ensures Integrity(remaining, Detached(edges, id))
    ensures forall x :: x in EdgeIds(Detached(edges, id)) ==> x in EdgeIds(edges)
  {
    if edges != [] {
      var init, last := edges[..|edges| - 1], edges[|edges| - 1];
      LastApart(edges);
      hide Distinct, NodeIds, EdgeIds;
      EdgesGrow(init, last);
      assert Anchored(nodes, init) && last.source in NodeIds(nodes) && last.target in NodeIds(nodes);
      DetachedKeeps(nodes, init, id, remaining);
      if last.source != id && last.target != id {
        EdgesGrow(Detached(init, id), last);
        EdgeJoins(remaining, Detached(init, id), last);
      }
      hide Integrity, Anchored;
    }
  }

  lemma DeleteKeeps(s: State)
    requires Sound(s)
    ensures Sound(DeleteSelected(s))
  {
    if Selected(s).Some? {
      var id := Selected(s).value.id;
      NodesWithoutOne(s.nodes, id);
      hide Selected;
      DetachedKeeps(s.nodes, s.edges, id, NodesWithout(s.nodes, id));
    }
  }

  /** A deletion changes the canvas exactly when a node other than the entry is selected, and undo takes it back whole. */
  lemma UndoRestores(s: State)
    requires Selected(s).Some? && !Selected(s).value.kind.EntryKind?
    ensures Undo(DeleteSelected(s)) == s.(deleted := None)
    ensures Selected(s).value.id !in NodeIds(DeleteSelected(s).nodes)
    ensures forall k :: 0 <= k < |DeleteSelected(s).edges| ==>
      var e := DeleteSelected(s).edges[k]; e.source != Selected(s).value.id && e.target != Selected(s).value.id
  {
    DeletedIsGone(s.nodes, Selected(s).value.id);
    DetachedFrom(s.edges, Selected(s).value.id);
    hide Selected, NodesWithout, Detached;
  }

  lemma {:induction false} DeletedIsGone(nodes: seq<Node>, id: string)
    ensures id !in NodeIds(NodesWithout(nodes, id))
  {
    if nodes != [] {
      DeletedIsGone(nodes[..|nodes| - 1], id);
      NodesGrow(NodesWithout(nodes[..|nodes| - 1], id), nodes[|nodes| - 1]);
      hide NodeIds;
    }
  }

  lemma {:induction false} DetachedFrom(edges: seq<Edge>, id: string)
    ensures forall k :: 0 <= k < |Detached(edges, id)| ==>
      Detached(edges, id)[k].source != id && Detached(edges, id)[k].target != id
  {
    if edges != [] {
      DetachedFrom(edges[..|edges| - 1], id);
    }
  }

  // ---------------------------------------------------------------- routers

  lemma {:induction false} TargetsIgnoreBranches(before: seq<Node>, after: seq<Node>, agent: string)
    requires |after| == |before|
    requires forall k :: 0 <= k < |before| ==>
      && after[k].id == before[k].id && after[k].kind == before[k].kind && after[k].role.Some? == before[k].role.Some?
      && (after[k].role.Some? ==> after[k].role.value.name == before[k].role.value.name)
    ensures RouteTargets(after, agent) == RouteTargets(before, agent)
  {
    if before != [] {
      TargetsIgnoreBranches(before[1..], after[1..], agent);
    }
  }

  /** Filling keeps every id, leaves no router empty that has a target, and has nothing left to do a second time: the
    effect that fills routers after every change settles after one pass. */
  lemma FillSettles(nodes: seq<Node>)
    ensures NodeIds(FillAll(nodes)) == NodeIds(nodes)
    ensures FillAll(FillAll(nodes)) == FillAll(nodes)
    ensures forall k :: 0 <= k < |nodes| ==> NeedsBranch(FillAll(nodes)[k]) ==> RouteTargets(nodes, nodes[k].id) == []
  {
    var once := FillAll(nodes);
    hide RouteTargets;
    forall k | 0 <= k < |nodes| ensures Filled(once, once[k]) == once[k] {
      TargetsIgnoreBranches(nodes, once, once[k].id);
    }
    assert FillAll(once) == once;
  }

  // ---------------------------------------------------------------- loading

  lemma {:induction false} CanvasEdgesAnchored(nodes: seq<Node>, edges: seq<GraphEdge>)
    ensures Anchored(nodes, CanvasEdges(nodes, edges))
  {
    if edges != [] {
      CanvasEdgesAnchored(nodes, edges[..|edges| - 1]);
    }
  }

  /** A loaded canvas has integrity exactly when the supported nodes of the graph, and the edges kept between them, have
    distinct ids: no dangling edge is ever loaded. */
  lemma LoadedIntegrity(graph: Graph)
    ensures Integrity(Loaded(graph).0, Loaded(graph).1) <==> DistinctGraph(graph)
  {
    CanvasEdgesAnchored(CanvasNodes(graph), graph.edges);
    hide SupportedNodes, CanvasEdges, FirstNonEntry;
  }

  // ---------------------------------------------------------------- repair

  /** Repair looks at each edge by itself: what stays keeps its id and its ends, and the ends exist. */
  lemma {:induction false} RepairEachKeeps(policy: Policy, nodes: seq<Node>, edges: seq<Edge>, some: seq<Edge>)
    requires Distinct(EdgeIds(some))
    ensures var r := RepairEach(policy, nodes, edges, some);
      && Distinct(EdgeIds(r.edges)) && Anchored(nodes, r.edges)
      && (forall x :: x in EdgeIds(r.edges) ==> x in EdgeIds(some))
      && (r.count == 0 ==> r.edges == some)
  {
    if some != [] {
      var init, last := some[..|some| - 1], some[|some| - 1];
      var before, kept := RepairEach(policy, nodes, edges, init), Repaired(policy, nodes, edges, last);
      LastApart(some);
      EdgesGrow(init, last);
      hide Distinct;
      RepairEachKeeps(policy, nodes, edges, init);
      if kept.Some? {
        assert kept.value.id == last.id && kept.value.source == last.source && kept.value.target == last.target;
        assert last.source in NodeIds(nodes) && last.target in NodeIds(nodes);
        EdgesGrow(before.edges, kept.value);
      }
      hide Repaired, NodeIds, EdgeIds;
    }
  }

  lemma CompanionKeeps(nodes: seq<Node>, r: Repair, edge: Edge, c: Companion)
    requires Distinct(EdgeIds(r.edges)) && Anchored(nodes, r.edges)
    requires edge.source in NodeIds(nodes) && edge.target in NodeIds(nodes)
    ensures var w := WithCompanion(r, edge, c);
      && Distinct(EdgeIds(w.edges)) && Anchored(nodes, w.edges) && w.count >= r.count
      && (w.count == r.count ==> w == r)
  {
    var source, target := EndOf(edge, c.source), EndOf(edge, c.target);
    var added := WithHandles(NewEdge(source, target, c.condition, r.edges), c.sourceHandle, c.targetHandle);
    NewEdgeIsFresh(source, target, c.condition, r.edges);
    assert EdgeIds(r.edges + [WithKind(added, c.isReturn)]) == EdgeIds(r.edges) + [added.id];
    hide NewEdge, HasCompanion;
    assert forall k :: 0 <= k < |r.edges| ==> EdgeIds(r.edges)[k] in EdgeIds(r.edges);
  }

  lemma {:induction false} CompanionsKeep(nodes: seq<Node>, r: Repair, edge: Edge, companions: seq<Companion>)
    requires Distinct(EdgeIds(r.edges)) && Anchored(nodes, r.edges)
    requires edge.source in NodeIds(nodes) && edge.target in NodeIds(nodes)
    ensures var w := WithCompanions(r, edge, companions);
      && Distinct(EdgeIds(w.edges)) && Anchored(nodes, w.edges) && w.count >= r.count
      && (w.count == r.count ==> w == r)
  {
    if companions != [] {
      CompanionsKeep(nodes, r, edge, companions[..|companions| - 1]);
      hide WithCompanion, Anchored, Distinct;
      CompanionKeeps(nodes, WithCompanions(r, edge, companions[..|companions| - 1]), edge,
                     companions[|companions| - 1]);
    }
  }

  lemma {:induction false} EnsureKeeps(policy: Policy, nodes: seq<Node>, r: Repair, edges: seq<Edge>)
    requires Distinct(EdgeIds(r.edges)) && Anchored(nodes, r.edges)
    ensures var w := EnsureCompanions(policy, nodes, r, edges);
      && Distinct(EdgeIds(w.edges)) && Anchored(nodes, w.edges) && w.count >= r.count
      && (w.count == r.count ==> w == r)
  {
    if edges != [] {
      var n := |edges| - 1;
      var before, edge := EnsureCompanions(policy, nodes, r, edges[..n]), edges[n];
      EnsureKeeps(policy, nodes, r, edges[..n]);
      hide Anchored, Distinct, WithCompanions;
      if edge.source in NodeIds(nodes) && edge.target in NodeIds(nodes) {
        var d := Decide(policy, nodes, before.edges, Request(edge.source, edge.target, None, None, false, false));
        if d.Some? {
          CompanionsKeep(nodes, before, edge, d.value.companions);
        }
      }
    }
  }

  /** Repair leaves no dangling edge behind, whatever it is given, and keeps edge ids distinct; and when it reports
    nothing to repair, the edges are untouched. */
  lemma RepairMends(policy: Policy, nodes: seq<Node>, edges: seq<Edge>)
    requires Distinct(EdgeIds(edges))
    ensures var r := RepairEdges(policy, nodes, edges);
      && Anchored(nodes, r.edges) && Distinct(EdgeIds(r.edges))
      && (r.count == 0 ==> r.edges == edges)
  {
    RepairEachKeeps(policy, nodes, edges, edges);
    var repaired := RepairEach(policy, nodes, edges, edges);
    hide RepairEach, EnsureCompanions, Anchored, Distinct;
    EnsureKeeps(policy, nodes, repaired, repaired.edges);
  }

  // ---------------------------------------------------------------- every edit, every run

  /** A loaded or published version has distinct ids. */
  ghost predicate LoadsDistinct(e: Edit) {
    (e.Load? || e.Published?) ==> DistinctGraph(e.graph)
  }

  lemma SameIdsKeep(s: State, nodes: seq<Node>)
    requires Integrity(s.nodes, s.edges) && NodeIds(nodes) == NodeIds(s.nodes)
    ensures Integrity(nodes, s.edges)
  {
  }

  lemma StepKeeps(policy: Policy, s: State, e: Edit)
    requires Sound(s) && LoadsDistinct(e)
    ensures Sound(Step(policy, s, e))
  {
    hide Integrity, Append, Connect, Reconnect, DeleteSelected, RepairEdges, Loaded, DistinctGraph;
    match e
    case Add(added, allowed) =>
      NextNumberIsFresh(NodeIds(s.nodes), PrefixOf(added));
      AppendKeeps(policy, s, NewNode(s.nodes, added, RouterTargets(s)), CaptionOf(added));
    case Link(c) => ConnectKeeps(policy, s.nodes, s.edges, c);
    case Relink(previous, c) => ReconnectKeeps(policy, s.nodes, s.edges, previous, c);
    case Delete => DeleteKeeps(s);
    case RepairRelationships => RepairKeeps(policy, s);
    case Load(graph) => LoadedIntegrity(graph);
    case Published(graph) => LoadedIntegrity(graph);
    case Clear => ClearedIntegrity();
    case EditRole(role) =>
      if Selected(s).Some? {
        assert NodeIds(WithRole(s.nodes, Selected(s).value.id, role)) == NodeIds(s.nodes);
        SameIdsKeep(s, WithRole(s.nodes, Selected(s).value.id, role));
      }
    case FillRouters =>
      FillSettles(s.nodes);
      SameIdsKeep(s, FillAll(s.nodes));
    case _ =>
  }

  lemma RepairKeeps(policy: Policy, s: State)
    requires Sound(s)
    ensures Sound(RepairAll(policy, s))
  {
    RepairMends(policy, s.nodes, s.edges);
    hide RepairEdges;
  }

  lemma ClearedIntegrity()
    ensures Integrity(Cleared().nodes, Cleared().edges)
  {
  }

  /** Over any sequence of edits - adding, linking, relinking, deleting, undoing, clearing, repairing, loading versions
    with distinct ids - node ids stay distinct, edge ids stay distinct, and every edge has both its ends; and the same
    holds of what undo would bring back. */
  lemma {:induction false} CanvasKeepsIntegrity(policy: Policy, edits: seq<Edit>)
    requires forall k :: 0 <= k < |edits| ==> LoadsDistinct(edits[k])
    ensures Sound(Run(policy, edits))
  {
    if edits == [] {
      ClearedIntegrity();
    } else {
      CanvasKeepsIntegrity(policy, edits[..|edits| - 1]);
      hide Sound, LoadsDistinct, Step;
      StepKeeps(policy, Run(policy, edits[..|edits| - 1]), edits[|edits| - 1]);
    }
  }
}
