/** Sequences of edits, and the working graph as an object whose lists they change. */
module EditorRuns {
  import opened Options
  import opened Graphs
  import opened Checker
  import opened Editor

  const EMPTY: Canvas := Graph([], [])

  // ---- lookups across an edit ----

  lemma {:induction false} FirstOfMore(nodes: seq<Node<Body>>, n: Node<Body>, id: nat)
    ensures First(nodes + [n], id) == if id in Ids(nodes) then First(nodes, id) else if id == n.id then Some(n)
      else None
  {
    if nodes != [] {
      assert Ids(nodes) == [nodes[0].id] + Ids(nodes[1..]);
      FirstOfMore(nodes[1..], n, id);
      assert (nodes + [n])[1..] == nodes[1..] + [n];
    }
  }

  lemma IdsOfMore(nodes: seq<Node<Body>>, n: Node<Body>)
    ensures Ids(nodes + [n]) == Ids(nodes) + [n.id]
  {
  }

  lemma {:induction false} KeepNodesDistinct(nodes: seq<Node<Body>>, id: nat)
    requires Distinct(Ids(nodes))
    ensures Distinct(Ids(KeepNodes(nodes, id)))
  {
    if nodes != [] {
      var k := |nodes| - 1;
      assert nodes == nodes[..k] + [nodes[k]];
      IdsOfMore(nodes[..k], nodes[k]);
      assert Ids(nodes)[..k] == Ids(nodes[..k]);
      assert nodes[k].id !in Ids(nodes)[..k];
      KeepNodesDistinct(nodes[..k], id);
      NotKept(nodes[..k], id, nodes[k].id);
      IdsOfMore(KeepNodes(nodes[..k], id), nodes[k]);
    }
  }

  lemma {:induction false} KeepNodesLookup(nodes: seq<Node<Body>>, id: nat, x: nat)
    requires x != id
    ensures First(KeepNodes(nodes, id), x) == First(nodes, x)
  {
    if nodes != [] {
      var k := |nodes| - 1;
      assert nodes == nodes[..k] + [nodes[k]];
      KeepNodesLookup(nodes[..k], id, x);
      FirstOfMore(nodes[..k], nodes[k], x);
      FirstOfMore(KeepNodes(nodes[..k], id), nodes[k], x);
    }
  }

  lemma NotKept(nodes: seq<Node<Body>>, id: nat, x: nat)
    requires x !in Ids(nodes)
    ensures x !in Ids(KeepNodes(nodes, id))
  {
    var kept := KeepNodes(nodes, id);
    forall i | 0 <= i < |kept| ensures kept[i].id != x {
      assert kept[i] in nodes;
      var j :| 0 <= j < |nodes| && nodes[j] == kept[i];
      assert Ids(nodes)[j] == kept[i].id;
    }
  }

  lemma {:induction false} KeepDistinct(edges: seq<Edge>, keep: Edge -> bool)
    requires Distinct(EdgeIds(edges))
    ensures Distinct(EdgeIds(Keep(edges, keep)))
  {
    if edges != [] {
      var k := |edges| - 1;
      assert forall i :: 0 <= i < k ==> EdgeIds(edges)[i] == EdgeIds(edges[..k])[i];
      KeepDistinct(edges[..k], keep);
      var rest := Keep(edges[..k], keep);
      forall i | 0 <= i < |rest| ensures rest[i].id != edges[k].id {
        assert rest[i] in edges[..k];
        var j :| 0 <= j < k && edges[..k][j] == rest[i];
        assert EdgeIds(edges)[j] != EdgeIds(edges)[k];
      }
    }
  }

  // ---- every operation keeps what was built ----

  lemma AddKeeps(g: Canvas, specs: Specs, id: nat, body: Body)
    requires Built(g, specs) && id !in Ids(g.nodes) && AddedNode(g, specs, id, body).Some?
    ensures Built(AddedNode(g, specs, id, body).value, specs)
  {
    var n := Node(id, body);
    var g' := AddedNode(g, specs, id, body).value;
    IdsOfMore(g.nodes, n);
    forall e | e in g.edges ensures Plugged(g'.nodes, specs, e) {
      assert Plugged(g.nodes, specs, e);
      FirstOfMore(g.nodes, n, e.source);
      FirstOfMore(g.nodes, n, e.target);
    }
    forall a, b | a in g.edges && b in g.edges ensures MayShare(g'.nodes, specs, a, b) {
      assert Plugged(g.nodes, specs, a) && MayShare(g.nodes, specs, a, b);
      FirstOfMore(g.nodes, n, a.target);
    }
  }

  /** A port that `connect` settled on is the one its own name finds. */
  lemma WireFindsPort(g: Canvas, specs: Specs, source: nat, target: nat, th: Option<nat>, sh: Option<nat>)
    requires Wire(g, specs, source, target, th, sh).Some?
    ensures var port := Wire(g, specs, source, target, th, sh).value.1;
      var kind := First(g.nodes, target).value.body.kind;
      kind in specs && FindPort(specs[kind].inputs, port.id) == Some(port)
  {
    var inputs := specs[First(g.nodes, target).value.body.kind].inputs;
    var port := TargetPort(specs, First(g.nodes, target).value.body.kind, th).value;
    if th.None? { assert FindPort(inputs, inputs[0].id) == Some(inputs[0]); }
  }

  /** The edge that `connect` makes is plugged in, and shares its input only where that is allowed. */
  lemma WiredEdge(g: Canvas, specs: Specs, id: nat, source: nat, target: nat, th: Option<nat>, sh: Option<nat>)
    returns (edge: Edge)
    requires Built(g, specs) && Connected(g, specs, id, source, target, th, sh).Some?
    ensures Connected(g, specs, id, source, target, th, sh).value == g.(edges := g.edges + [edge]) && edge.id == id
    ensures Plugged(g.nodes, specs, edge)
    ensures forall e :: e in g.edges && e.target == edge.target && e.targetHandle == edge.targetHandle ==>
      FindPort(specs[First(g.nodes, edge.target).value.body.kind].inputs, edge.targetHandle.value).value.multi
  {
    var (output, port) := Wire(g, specs, source, target, th, sh).value;
    edge := Edge(id, source, target, Some(output), Some(port.id));
    WireFindsPort(g, specs, source, target, th, sh);
    assert Usable(specs, First(g.nodes, source).value.body);
    forall e | e in g.edges && e.target == target && e.targetHandle == Some(port.id) ensures port.multi {
      assert SameInput(g, specs, e, target, port.id);
    }
  }

  lemma NewEdgeShares(nodes: seq<Node<Body>>, specs: Specs, edges: seq<Edge>, edge: Edge)
    requires (forall e :: e in edges ==> Plugged(nodes, specs, e)) && Plugged(nodes, specs, edge)
    requires forall a, b :: a in edges && b in edges ==> MayShare(nodes, specs, a, b)
    requires forall e :: e in edges && e.target == edge.target && e.targetHandle == edge.targetHandle ==>
      FindPort(specs[First(nodes, edge.target).value.body.kind].inputs, edge.targetHandle.value).value.multi
    ensures forall a, b :: a in edges + [edge] && b in edges + [edge] ==> MayShare(nodes, specs, a, b)
  {
    forall a, b | a in edges + [edge] && b in edges + [edge] ensures MayShare(nodes, specs, a, b) {
      if a in edges && b in edges { assert MayShare(nodes, specs, a, b); }
    }
  }

  lemma DistinctMore(ids: seq<nat>, id: nat)
    requires Distinct(ids) && id !in ids
    ensures Distinct(ids + [id])
  {
  }

  lemma BuiltMore(g: Canvas, specs: Specs, edge: Edge)
    requires Built(g, specs) && edge.id !in EdgeIds(g.edges) && Plugged(g.nodes, specs, edge)
    requires forall e :: e in g.edges && e.target == edge.target && e.targetHandle == edge.targetHandle ==>
      FindPort(specs[First(g.nodes, edge.target).value.body.kind].inputs, edge.targetHandle.value).value.multi
    ensures Built(g.(edges := g.edges + [edge]), specs)
  {
    EdgeIdsMore(g.edges, edge);
    NewEdgeShares(g.nodes, specs, g.edges, edge);
  }

  lemma EdgeIdsMore(edges: seq<Edge>, edge: Edge)
    requires Distinct(EdgeIds(edges)) && edge.id !in EdgeIds(edges)
    ensures Distinct(EdgeIds(edges + [edge]))
  {
    assert EdgeIds(edges + [edge]) == EdgeIds(edges) + [edge.id];
    DistinctMore(EdgeIds(edges), edge.id);
  }

  lemma ConnectKeeps(g: Canvas, specs: Specs, id: nat, source: nat, target: nat, th: Option<nat>, sh: Option<nat>)
    requires Built(g, specs) && id !in EdgeIds(g.edges) && Connected(g, specs, id, source, target, th, sh).Some?
    ensures Built(Connected(g, specs, id, source, target, th, sh).value, specs)
  {
    var edge := WiredEdge(g, specs, id, source, target, th, sh);
    BuiltMore(g, specs, edge);
  }

  lemma RemoveKeeps(g: Canvas, specs: Specs, id: nat)
    requires Built(g, specs) && Removed(g, id).Some?
    ensures Built(Removed(g, id).value, specs)
  {
    var g' := Removed(g, id).value;
    KeepDistinct(g.edges, (e: Edge) => e.source != id && e.target != id);
    KeepNodesDistinct(g.nodes, id);
    forall e | e in g'.edges ensures Plugged(g'.nodes, specs, e) {
      assert Plugged(g.nodes, specs, e);
      KeepNodesLookup(g.nodes, id, e.source);
      KeepNodesLookup(g.nodes, id, e.target);
    }
    forall a, b | a in g'.edges && b in g'.edges ensures MayShare(g'.nodes, specs, a, b) {
      assert MayShare(g.nodes, specs, a, b);
      KeepNodesLookup(g.nodes, id, a.target);
    }
  }

  // ---- configuration ----

  lemma {:induction false} FirstOfUpdated(nodes: seq<Node<Body>>, k: nat, n: Node<Body>, x: nat)
    requires k < |nodes| && nodes[k].id == n.id && First(nodes, n.id) == Some(nodes[k])
      && (forall i :: 0 <= i < k ==> nodes[i].id != n.id)
    ensures First(nodes[k := n], x) == if x == n.id then Some(n) else First(nodes, x)
    ensures Ids(nodes[k := n]) == Ids(nodes)
  {
    if k > 0 {
      FirstOfUpdated(nodes[1..], k - 1, n, x);
      assert nodes[k := n][1..] == nodes[1..][k - 1 := n];
    }
  }

  lemma {:induction false} PositionIsFirst(nodes: seq<Node<Body>>, id: nat)
    requires id in Ids(nodes)
    ensures forall i :: 0 <= i < Position(nodes, id) ==> nodes[i].id != id
  {
    if nodes[0].id != id {
      assert forall i :: 0 < i < |nodes| ==> Ids(nodes)[i] == Ids(nodes[1..])[i - 1];
      PositionIsFirst(nodes[1..], id);
    }
  }

  /** When every edge names its source port, rewiring only drops edges whose port is gone. */
  lemma {:induction false} RewiredIsKeep(edges: seq<Edge>, id: nat, only: Option<nat>, outs: seq<nat>)
    requires forall e :: e in edges ==> e.sourceHandle.Some?
    ensures Rewired(edges, id, only, outs) ==
      Keep(edges, (e: Edge) => e.source != id || (e.sourceHandle.Some? && e.sourceHandle.value in outs))
  {
    if edges != [] {
      var k := |edges| - 1;
      assert edges[k] in edges;
      forall e | e in edges[..k] ensures e in edges { }
      RewiredIsKeep(edges[..k], id, only, outs);
      assert edges[k].(sourceHandle := edges[k].sourceHandle) == edges[k];
    }
  }

  /** The edges after a patch: all of them, or those that still have their port. */
  lemma ConfiguredEdges(g: Canvas, specs: Specs, id: nat, patch: Patch)
    requires Built(g, specs) && Configured(g, specs, id, patch).Some?
    ensures var g' := Configured(g, specs, id, patch).value;
      var k := Position(g.nodes, id);
      var body := Patched(g.nodes[k].body, patch);
      && g'.nodes == g.nodes[k := Node(id, body)] && Usable(specs, body)
      && Distinct(EdgeIds(g'.edges))
      && (forall e :: e in g'.edges ==> e in g.edges)
      && (forall e :: e in g'.edges && e.source == id ==>
        e.sourceHandle.Some? && e.sourceHandle.value in EffectiveOutputs(body, specs[body.kind]).value)
  {
    var k := Position(g.nodes, id);
    var body := Patched(g.nodes[k].body, patch);
    var outs := EffectiveOutputs(body, specs[body.kind]).value;
    forall e | e in g.edges ensures Plugged(g.nodes, specs, e) && e.sourceHandle.Some? { }
    if body.kind == SECTION && patch.outputs.Some? {
      RewiredIsKeep(g.edges, id, DefaultSource(g, specs, id), outs);
      KeepDistinct(g.edges, (e: Edge) => e.source != id || (e.sourceHandle.Some? && e.sourceHandle.value in outs));
    } else {
      assert EffectiveOutputs(body, specs[body.kind]) == EffectiveOutputs(g.nodes[k].body, specs[body.kind]);
    }
  }

  lemma ConfigKeeps(g: Canvas, specs: Specs, id: nat, patch: Patch)
    requires Built(g, specs) && Configured(g, specs, id, patch).Some?
    ensures Built(Configured(g, specs, id, patch).value, specs)
  {
    var g' := Configured(g, specs, id, patch).value;
    var k := Position(g.nodes, id);
    var n := Node(id, Patched(g.nodes[k].body, patch));
    ConfiguredEdges(g, specs, id, patch);
    PositionIsFirst(g.nodes, id);
    FirstOfUpdated(g.nodes, k, n, id);
    forall e | e in g'.edges ensures Plugged(g'.nodes, specs, e) {
      assert Plugged(g.nodes, specs, e);
      FirstOfUpdated(g.nodes, k, n, e.source);
      FirstOfUpdated(g.nodes, k, n, e.target);
    }
    forall a, b | a in g'.edges && b in g'.edges ensures MayShare(g'.nodes, specs, a, b) {
      assert MayShare(g.nodes, specs, a, b);
      FirstOfUpdated(g.nodes, k, n, a.target);
    }
  }

  // ---- runs of edits ----

  datatype Edit =
    | Add(id: nat, body: Body)
    | Connect(id: nat, source: nat, target: nat, targetHandle: Option<nat>, sourceHandle: Option<nat>)
    | Configure(node: nat, patch: Patch)
    | Remove(node: nat)

  function Edited(g: Canvas, specs: Specs, edit: Edit): Option<Canvas> {
    match edit
    case Add(id, body) => AddedNode(g, specs, id, body)
    case Connect(id, source, target, th, sh) => Connected(g, specs, id, source, target, th, sh)
    case Configure(node, patch) => Configured(g, specs, node, patch)
    case Remove(node) => Removed(g, node)
  }

  /** A refused edit leaves the graph as it was. */
  function Applied(g: Canvas, specs: Specs, edit: Edit): Canvas {
    match Edited(g, specs, edit) case None => g case Some(g') => g'
  }

  function Run(g: Canvas, specs: Specs, edits: seq<Edit>): Canvas {
    if edits == [] then g else Applied(Run(g, specs, edits[..|edits| - 1]), specs, edits[|edits| - 1])
  }

  /** New nodes and edges are given ids that the graph does not have. */
  predicate Fresh(g: Canvas, edit: Edit) {
    match edit
    case Add(id, _) => id !in Ids(g.nodes)
    case Connect(id, _, _, _, _) => id !in EdgeIds(g.edges)
    case _ => true
  }

  ghost predicate AllFresh(g: Canvas, specs: Specs, edits: seq<Edit>) {
    forall i :: 0 <= i < |edits| ==> Fresh(Run(g, specs, edits[..i]), edits[i])
  }

  lemma EditKeeps(g: Canvas, specs: Specs, edit: Edit)
    requires Built(g, specs) && Fresh(g, edit)
    ensures Built(Applied(g, specs, edit), specs)
  {
    if Edited(g, specs, edit).Some? {
      match edit
      case Add(id, body) => AddKeeps(g, specs, id, body);
      case Connect(id, source, target, th, sh) => ConnectKeeps(g, specs, id, source, target, th, sh);
      case Configure(node, patch) => ConfigKeeps(g, specs, node, patch);
      case Remove(node) => RemoveKeeps(g, specs, node);
    }
  }

  lemma {:induction false} RunBuilds(specs: Specs, edits: seq<Edit>)
    requires AllFresh(EMPTY, specs, edits)
    ensures Built(Run(EMPTY, specs, edits), specs)
  {
    if edits != [] {
      var k := |edits| - 1;
      forall i | 0 <= i < k ensures Fresh(Run(EMPTY, specs, edits[..k][..i]), edits[..k][i]) {
        assert edits[..k][..i] == edits[..i];
        assert Fresh(Run(EMPTY, specs, edits[..i]), edits[i]);
      }
      RunBuilds(specs, edits[..k]);
      assert Fresh(Run(EMPTY, specs, edits[..k]), edits[k]);
      EditKeeps(Run(EMPTY, specs, edits[..k]), specs, edits[k]);
    }
  }

  /** From nothing, any run of edits with fresh ids leaves the checker nothing to report but unwired joins. */
  lemma EditorAgreesWithChecker(specs: Specs, edits: seq<Edit>)
    requires JoinSpec(specs) && AllFresh(EMPTY, specs, edits)
    ensures NearlyWellFormed(Run(EMPTY, specs, edits), specs, None)
  {
    RunBuilds(specs, edits);
    BuiltIsNearlyWellFormed(Run(EMPTY, specs, edits), specs, None);
  }

  lemma RepeatedLast(ids: seq<nat>, id: nat)
    requires id in ids
    ensures !Distinct(ids + [id])
  {
    var i :| 0 <= i < |ids| && ids[i] == id;
    assert (ids + [id])[i] == (ids + [id])[|ids|];
  }

  /** A node or an edge added under an id that is taken may be accepted by the editor; the checker reports it. */
  lemma StaleIdsDisagree(g: Canvas, specs: Specs, edit: Edit, target: Option<nat>)
    requires !Fresh(g, edit) && Edited(g, specs, edit).Some?
    ensures !NearlyWellFormed(Edited(g, specs, edit).value, specs, target)
  {
    var g' := Edited(g, specs, edit).value;
    match edit
    case Add(id, body) =>
      IdsOfMore(g.nodes, Node(id, body));
      RepeatedLast(Ids(g.nodes), id);
    case Connect(id, _, _, _, _) =>
      assert EdgeIds(g'.edges) == EdgeIds(g.edges) + [id];
      RepeatedLast(EdgeIds(g.edges), id);
  }

  /**
   * An edit of a built graph that the editor accepts leaves the checker nothing to report but unwired joins if and only
   * if a node or edge it adds has an id that the graph does not have.
   */
  lemma AcceptedEditExactly(g: Canvas, specs: Specs, edit: Edit, target: Option<nat>)
    requires Built(g, specs) && JoinSpec(specs) && Edited(g, specs, edit).Some?
    requires target.Some? ==> target.value in Ids(Edited(g, specs, edit).value.nodes)
    ensures NearlyWellFormed(Edited(g, specs, edit).value, specs, target) <==> Fresh(g, edit)
  {
    if Fresh(g, edit) {
      EditKeeps(g, specs, edit);
      BuiltIsNearlyWellFormed(Edited(g, specs, edit).value, specs, target);
    } else {
      StaleIdsDisagree(g, specs, edit, target);
    }
  }

  /** Removing a node undoes adding it, when its id was fresh and nothing has been connected to it. */
  lemma RemoveUndoesAdd(g: Canvas, specs: Specs, id: nat, body: Body)
    requires Built(g, specs) && id !in Ids(g.nodes) && AddedNode(g, specs, id, body).Some?
    ensures Removed(AddedNode(g, specs, id, body).value, id) == Some(g)
  {
    var n := Node(id, body);
    IdsOfMore(g.nodes, n);
    assert (Ids(g.nodes) + [id])[|g.nodes|] == id;
    KeepsAllNodes(g.nodes, id);
    assert (g.nodes + [n])[..|g.nodes|] == g.nodes;
    forall e | e in g.edges ensures e.source != id && e.target != id {
      assert Plugged(g.nodes, specs, e);
    }
    KeepsAllEdges(g.edges, id);
  }

  lemma {:induction false} KeepsAllNodes(nodes: seq<Node<Body>>, id: nat)
    requires id !in Ids(nodes)
    ensures KeepNodes(nodes, id) == nodes
  {
    if nodes != [] {
      var k := |nodes| - 1;
      assert nodes == nodes[..k] + [nodes[k]];
      IdsOfMore(nodes[..k], nodes[k]);
      assert Ids(nodes)[k] == nodes[k].id;
      KeepsAllNodes(nodes[..k], id);
    }
  }

  lemma {:induction false} KeepsAllEdges(edges: seq<Edge>, id: nat)
    requires forall e :: e in edges ==> e.source != id && e.target != id
    ensures Keep(edges, (e: Edge) => e.source != id && e.target != id) == edges
  {
    if edges != [] {
      var k := |edges| - 1;
      assert edges == edges[..k] + [edges[k]];
      assert edges[k] in edges;
      KeepsAllEdges(edges[..k], id);
    }
  }

  // ---- the working graph ----

  class WorkingGraph {
    var nodes: seq<Node<Body>>
    var edges: seq<Edge>

    function Contents(): Canvas
      reads this
    {
      Graph(nodes, edges)
    }

    constructor ()
      ensures Contents() == EMPTY
    {
      nodes, edges := [], [];
    }

    method AddNode(specs: Specs, id: nat, body: Body) returns (ok: bool)
      modifies this
      ensures ok <==> old(AddedNode(Contents(), specs, id, body)).Some?
      ensures Contents() == old(Applied(Contents(), specs, Add(id, body)))
    {
      if body.kind !in specs { return false; }
      var outs := EffectiveOutputs(body, specs[body.kind]);
      if outs.None? { return false; }
      nodes := nodes + [Node(id, body)];
      return true;
    }

    method ConnectNodes(specs: Specs, id: nat, source: nat, target: nat, th: Option<nat>, sh: Option<nat>)
      returns (ok: bool)
      modifies this`edges
      ensures ok <==> old(Connected(Contents(), specs, id, source, target, th, sh)).Some?
      ensures Contents() == old(Applied(Contents(), specs, Connect(id, source, target, th, sh)))
    {
      var wire := Wire(Contents(), specs, source, target, th, sh);
      if wire.None? { return false; }
      var (output, port) := wire.value;
      if exists e :: e in edges && SameWire(Contents(), specs, e, source, output, target, port.id) { return false; }
      if !port.multi && exists e :: e in edges && SameInput(Contents(), specs, e, target, port.id) { return false; }
      edges := edges + [Edge(id, source, target, Some(output), Some(port.id))];
      return true;
    }

    method SetConfig(specs: Specs, id: nat, patch: Patch) returns (ok: bool, removed: nat)
      modifies this
      ensures ok <==> old(Configured(Contents(), specs, id, patch)).Some?
      ensures Contents() == old(Applied(Contents(), specs, Configure(id, patch)))
      ensures removed == |old(edges)| - |edges|
    {
      removed := 0;
      if id !in Ids(nodes) { return false, 0; }
      var k := Position(nodes, id);
      var body := Patched(nodes[k].body, patch);
      if body.kind !in specs { return false, 0; }
      var outs := EffectiveOutputs(body, specs[body.kind]);
      if outs.None? { return false, 0; }
      var only := DefaultSource(Contents(), specs, id);
      nodes := nodes[k := Node(id, body)];
      if body.kind == SECTION && patch.outputs.Some? {
        var retained := [];
        for i := 0 to |edges|
          invariant nodes == old(nodes)[k := Node(id, body)] && edges == old(edges)
          invariant retained == Rewired(edges[..i], id, only, outs.value) && |retained| + removed == i
        {
          assert edges[..i + 1][..i] == edges[..i];
          var edge := edges[i];
          if edge.source != id {
            retained := retained + [edge];
          } else {
            var prior := HandleOr(edge.sourceHandle, only);
            if prior.Some? && prior.value in outs.value {
              retained := retained + [edge.(sourceHandle := prior)];
            } else {
              removed := removed + 1;
            }
          }
        }
        assert edges[..|edges|] == edges;
        edges := retained;
      }
      return true, removed;
    }

    method RemoveNode(id: nat) returns (ok: bool, removed: int)
      modifies this
      ensures ok <==> id in old(Ids(nodes))
      ensures Contents() == old(Applied(Contents(), map[], Remove(id)))
      ensures removed == |old(edges)| - |edges|
    {
      if id !in Ids(nodes) { return false, 0; }
      var kept := Keep(edges, (e: Edge) => e.source != id && e.target != id);
      removed := |edges| - |kept|;
      nodes, edges := KeepNodes(nodes, id), kept;
      return true, removed;
    }

    /** `fresh_id`: the first numbered name that neither a node nor an edge has. */
    method FreshId(name: nat -> nat) returns (id: nat)
      requires forall i, j :: name(i) == name(j) ==> i == j
      ensures id !in Ids(nodes) && id !in EdgeIds(edges)
      ensures exists i ::
        i >= 1 && id == name(i) && forall k :: 1 <= k < i ==> name(k) in Ids(nodes) || name(k) in EdgeIds(edges)
    {
      var taken := (set x | x in Ids(nodes)) + (set x | x in EdgeIds(edges));
      ghost var left := taken;
      var i := 1;
      while name(i) in taken
        invariant i >= 1 && forall k :: 1 <= k < i ==> name(k) in taken
        invariant left <= taken && forall k :: k >= i && name(k) in taken ==> name(k) in left
        decreases |left|
      {
        left := left - {name(i)};
        i := i + 1;
      }
      return name(i);
    }
  }
}
