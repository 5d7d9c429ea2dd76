/**
 * The editing operations on a working graph, and why they agree with the
 * checker: whatever is built from nothing with fresh ids is well formed, but
 * for joins whose inputs are not wired up yet.
 */
module Editor {
  import opened Options
  import opened Graphs
  import opened Checker

  // ---- the operations; None where they refuse ----

  function AddedNode(g: Canvas, specs: Specs, id: nat, body: Body): Option<Canvas> {
    if body.kind !in specs || EffectiveOutputs(body, specs[body.kind]).None? then None
    else Some(g.(nodes := g.nodes + [Node(id, body)]))
  }

  /** `_target_port`: the named input, or the first one when the name matches none. */
  function TargetPort(specs: Specs, kind: nat, handle: Option<nat>): Option<Port> {
    if kind !in specs || specs[kind].inputs == [] then None
    else
      match (match handle case None => None case Some(h) => FindPort(specs[kind].inputs, h))
      case None => Some(specs[kind].inputs[0])
      case Some(p) => Some(p)
  }

  function HandleOr(handle: Option<nat>, otherwise: Option<nat>): Option<nat> {
    if handle.Some? then handle else otherwise
  }

  /** The output an edge is to leave from: the one named, or the only one. */
  function SourcePort(outs: seq<nat>, handle: Option<nat>): Option<nat> {
    match handle
    case None => if |outs| == 1 then Some(outs[0]) else None
    case Some(h) => if h in outs then Some(h) else None
  }

  /** The ports that `connect` settles on, or None where it refuses before looking at other edges. */
  function Wire(g: Canvas, specs: Specs, source: nat, target: nat, targetHandle: Option<nat>, sourceHandle: Option<nat>)
    : Option<(nat, Port)>
  {
    match (First(g.nodes, source), First(g.nodes, target))
    case (Some(src), Some(tgt)) =>
      if tgt.body.kind == JOIN && targetHandle.None? then None
      else
        var port := TargetPort(specs, tgt.body.kind, targetHandle);
        if port.None? || (targetHandle.Some? && port.value.id != targetHandle.value) || src.body.kind !in specs then
          None
        else
          var outs := EffectiveOutputs(src.body, specs[src.body.kind]);
          if outs.None? || SourcePort(outs.value, sourceHandle).None? then None
          else Some((SourcePort(outs.value, sourceHandle).value, port.value))
    case _ => None
  }

  /** The output that an edge without a source handle is taken to leave from. */
  function DefaultSource(g: Canvas, specs: Specs, source: nat): Option<nat> {
    match First(g.nodes, source)
    case None => None
    case Some(src) =>
      if src.body.kind !in specs then None
      else
        match EffectiveOutputs(src.body, specs[src.body.kind])
        case None => None
        case Some(outs) => if |outs| == 1 then Some(outs[0]) else None
  }

  function DefaultTarget(g: Canvas, specs: Specs, target: nat): Option<nat> {
    match First(g.nodes, target)
    case None => None
    case Some(tgt) => (match TargetPort(specs, tgt.body.kind, None) case None => None case Some(p) => Some(p.id))
  }

  predicate SameInput(g: Canvas, specs: Specs, e: Edge, target: nat, port: nat) {
    e.target == target && HandleOr(e.targetHandle, DefaultTarget(g, specs, target)) == Some(port)
  }

  predicate SameWire(g: Canvas, specs: Specs, e: Edge, source: nat, output: nat, target: nat, port: nat) {
    && e.source == source && HandleOr(e.sourceHandle, DefaultSource(g, specs, source)) == Some(output)
    && SameInput(g, specs, e, target, port)
  }

  function Connected(g: Canvas, specs: Specs, id: nat, source: nat, target: nat, targetHandle: Option<nat>,
                     sourceHandle: Option<nat>): Option<Canvas>
  {
    match Wire(g, specs, source, target, targetHandle, sourceHandle)
    case None => None
    case Some((output, port)) =>
      if exists e :: e in g.edges && SameWire(g, specs, e, source, output, target, port.id) then None
      else if !port.multi && exists e :: e in g.edges && SameInput(g, specs, e, target, port.id) then None
      else Some(g.(edges := g.edges + [Edge(id, source, target, Some(output), Some(port.id))]))
  }

  function Keep(edges: seq<Edge>, keep: Edge -> bool): (r: seq<Edge>)
    ensures forall e :: e in r <==> e in edges && keep(e)
  {
    if edges == [] then []
    else
      var last := edges[|edges| - 1];
      assert edges == edges[..|edges| - 1] + [last];
      var rest := Keep(edges[..|edges| - 1], keep);
      if keep(last) then rest + [last] else rest
  }

  function KeepNodes(nodes: seq<Node<Body>>, id: nat): (r: seq<Node<Body>>)
    ensures forall n :: n in r <==> n in nodes && n.id != id
  {
    if nodes == [] then []
    else
      var last := nodes[|nodes| - 1];
      assert nodes == nodes[..|nodes| - 1] + [last];
      var rest := KeepNodes(nodes[..|nodes| - 1], id);
      if last.id != id then rest + [last] else rest
  }

  function Removed(g: Canvas, id: nat): Option<Canvas> {
    if id !in Ids(g.nodes) then None
    else Some(Graph(KeepNodes(g.nodes, id), Keep(g.edges, (e: Edge) => e.source != id && e.target != id)))
  }

  /** A configuration patch: a new output declaration, if it has one, and the other settings. */
  datatype Patch = Patch(outputs: Option<Outputs>, settings: nat)

  function Patched(b: Body, patch: Patch): Body {
    Body(b.kind, if patch.outputs.Some? then patch.outputs.value else b.outputs, patch.settings)
  }

  /** Edges out of a section whose outputs changed: kept, with the port named, when the port is still there. */
  function Rewired(edges: seq<Edge>, id: nat, only: Option<nat>, outs: seq<nat>): seq<Edge> {
    if edges == [] then []
    else
      var last := edges[|edges| - 1];
      var rest := Rewired(edges[..|edges| - 1], id, only, outs);
      var prior := HandleOr(last.sourceHandle, only);
      if last.source != id then rest + [last]
      else if prior.Some? && prior.value in outs then rest + [last.(sourceHandle := prior)]
      else rest
  }

  /** The position of the first node of an id. */
  function Position(nodes: seq<Node<Body>>, id: nat): (k: nat)
    requires id in Ids(nodes)
    ensures k < |nodes| && First(nodes, id) == Some(nodes[k]) && nodes[k].id == id
  {
    if nodes[0].id == id then 0
    else
      assert forall i :: 0 < i < |nodes| ==> Ids(nodes)[i] == Ids(nodes[1..])[i - 1];
      1 + Position(nodes[1..], id)
  }

  function Configured(g: Canvas, specs: Specs, id: nat, patch: Patch): Option<Canvas> {
    if id !in Ids(g.nodes) then None
    else
      var k := Position(g.nodes, id);
      var body := Patched(g.nodes[k].body, patch);
      if body.kind !in specs then None
      else
        match EffectiveOutputs(body, specs[body.kind])
        case None => None
        case Some(outs) =>
          var nodes := g.nodes[k := Node(id, body)];
          if body.kind == SECTION && patch.outputs.Some? then
            Some(Graph(nodes, Rewired(g.edges, id, DefaultSource(g, specs, id), outs)))
          else Some(g.(nodes := nodes))
  }

  // ---- what the editor keeps ----

  /** The built-in join: two inputs, a and b, one edge each. */
  ghost predicate JoinSpec(specs: Specs) {
    JOIN in specs ==> forall p :: p in specs[JOIN].inputs ==> !p.multi && (p.id == PORT_A || p.id == PORT_B)
  }

  ghost predicate Usable(specs: Specs, b: Body) {
    b.kind in specs && EffectiveOutputs(b, specs[b.kind]).Some?
  }

  /** Both ends of an edge are nodes, and it names a port of each. */
  ghost predicate Plugged(nodes: seq<Node<Body>>, specs: Specs, e: Edge) {
    && e.source in Ids(nodes) && e.target in Ids(nodes)
    && (var b := First(nodes, e.source).value.body;
        Usable(specs, b) && e.sourceHandle.Some? && e.sourceHandle.value in EffectiveOutputs(b, specs[b.kind]).value)
    && (var b := First(nodes, e.target).value.body;
        b.kind in specs && e.targetHandle.Some? && FindPort(specs[b.kind].inputs, e.targetHandle.value).Some?)
  }

  /** Two edges may land on one input only when it takes several. */
  ghost predicate MayShare(nodes: seq<Node<Body>>, specs: Specs, a: Edge, b: Edge)
    requires Plugged(nodes, specs, a)
  {
    a != b && a.target == b.target && a.targetHandle == b.targetHandle ==>
      FindPort(specs[First(nodes, a.target).value.body.kind].inputs, a.targetHandle.value).value.multi
  }

  ghost predicate Built(g: Canvas, specs: Specs) {
    && Distinct(Ids(g.nodes)) && Distinct(EdgeIds(g.edges))
    && (forall n :: n in g.nodes ==> Usable(specs, n.body))
    && (forall e :: e in g.edges ==> Plugged(g.nodes, specs, e))
    && (forall a, b :: a in g.edges && b in g.edges ==> MayShare(g.nodes, specs, a, b))
  }

  lemma DistinctEdges(edges: seq<Edge>, i: nat, j: nat)
    requires Distinct(EdgeIds(edges)) && i < j < |edges|
    ensures edges[i] != edges[j]
  {
    assert EdgeIds(edges)[i] != EdgeIds(edges)[j];
  }

  lemma BuiltInputsFree(g: Canvas, specs: Specs)
    requires Built(g, specs)
    ensures InputsFree(g, specs)
  {
    forall i, j | 0 <= i < j < |g.edges| ensures !Clash(g, specs, i, j) {
      DistinctEdges(g.edges, i, j);
      var a, b := g.edges[i], g.edges[j];
      assert Plugged(g.nodes, specs, a) && Plugged(g.nodes, specs, b) && MayShare(g.nodes, specs, b, a);
    }
  }

  lemma {:induction false} LandedAtMostOne(es: seq<Edge>, port: nat)
    requires forall i, j :: 0 <= i < j < |es| ==> !(es[i].targetHandle == Some(port) == es[j].targetHandle)
    ensures |OnPort(es, port)| <= 1
    ensures OnPort(es, port) != [] ==> exists i :: 0 <= i < |es| && es[i].targetHandle == Some(port)
  {
    if es != [] {
      LandedAtMostOne(es[..|es| - 1], port);
    }
  }

  lemma {:induction false} IncomingDistinct(edges: seq<Edge>, n: nat)
    requires Distinct(EdgeIds(edges))
    ensures Distinct(EdgeIds(Incoming(edges, n)))
  {
    if edges != [] {
      var k := |edges| - 1;
      assert forall i :: 0 <= i < k ==> EdgeIds(edges)[i] == EdgeIds(edges[..k])[i];
      IncomingDistinct(edges[..k], n);
      var rest := Incoming(edges[..k], n);
      forall i | 0 <= i < |rest| ensures rest[i].id != edges[k].id {
        assert rest[i] in edges[..k];
        var j :| 0 <= j < k && edges[..k][j] == rest[i];
        assert EdgeIds(edges)[j] != EdgeIds(edges)[k];
      }
    }
  }

  lemma BuiltJoinUncrowded(g: Canvas, specs: Specs, n: Node<Body>)
    requires Built(g, specs) && JoinSpec(specs) && n in g.nodes && n.body.kind == JOIN && JOIN in specs
    ensures JoinUncrowded(g.edges, n.id)
  {
    var es := Incoming(g.edges, n.id);
    SameNode(g.nodes, n);
    forall e | e in es ensures JoinPort(e.targetHandle) {
      assert Plugged(g.nodes, specs, e);
    }
    IncomingDistinct(g.edges, n.id);
    forall i, j | 0 <= i < j < |es| ensures es[i].targetHandle != es[j].targetHandle {
      DistinctEdges(es, i, j);
      assert es[i] in es && es[j] in es;
      assert Plugged(g.nodes, specs, es[i]) && MayShare(g.nodes, specs, es[i], es[j]);
    }
    LandedAtMostOne(es, PORT_A);
    LandedAtMostOne(es, PORT_B);
  }

  /** With distinct ids, a node is the first of its id. */
  lemma {:induction false} SameNode(nodes: seq<Node<Body>>, n: Node<Body>)
    requires Distinct(Ids(nodes)) && n in nodes
    ensures First(nodes, n.id) == Some(n)
  {
    if nodes[0].id == n.id {
      var i :| 0 <= i < |nodes| && nodes[i] == n;
      assert Ids(nodes)[i] == Ids(nodes)[0];
    } else {
      assert forall i :: 0 < i < |nodes| ==> Ids(nodes)[i] == Ids(nodes[1..])[i - 1];
      assert n in nodes[1..];
      SameNode(nodes[1..], n);
    }
  }

  /** What the editor keeps is enough for the checker: nothing but unwired joins is left to report. */
  lemma BuiltIsNearlyWellFormed(g: Canvas, specs: Specs, target: Option<nat>)
    requires Built(g, specs) && JoinSpec(specs) && (target.Some? ==> target.value in Ids(g.nodes))
    ensures NearlyWellFormed(g, specs, target)
  {
    forall e | e in g.edges ensures EndpointsExist(g, e) && SourceResolves(g, specs, e) && TargetResolves(g, specs, e) {
      assert Plugged(g.nodes, specs, e);
    }
    BuiltInputsFree(g, specs);
    forall n | n in g.nodes && n.body.kind == JOIN && JOIN in specs ensures JoinUncrowded(g.edges, n.id) {
      BuiltJoinUncrowded(g, specs, n);
    }
  }
}
