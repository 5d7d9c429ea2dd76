/**
 * The structural checker: the errors it lists for a graph, against a
 * declarative account of what a well-formed graph is.
 */
module Checker {
  import opened Options
  import opened Graphs

  datatype Port = Port(id: nat, multi: bool)
  datatype Spec = Spec(inputs: seq<Port>, outputs: seq<nat>)
  type Specs = map<nat, Spec>

  /** A section may declare its own outputs; a declaration that is no list of proper port ids is malformed. */
  datatype Outputs = Undeclared | Declared(ports: seq<nat>) | Malformed
  datatype Body = Body(kind: nat, outputs: Outputs, settings: nat)

  const JOIN: nat := 0
  const SECTION: nat := 1
  const PORT_IN: nat := 2

  type Canvas = Graph<Body>

  /** `effective_output_ports_for_node`; None where it raises. */
  function EffectiveOutputs(b: Body, spec: Spec): (r: Option<seq<nat>>)
    ensures r.Some? ==> r.value != [] && |r.value| <= MAX_OUTPUTS && Distinct(r.value)
  {
    var ports :=
      if b.kind != SECTION then Some(spec.outputs)
      else match b.outputs
        case Undeclared => Some(spec.outputs)
        case Declared(ps) => Some(ps)
        case Malformed => None;
    if ports.None? || ports.value == [] || |ports.value| > MAX_OUTPUTS || !Distinct(ports.value) then None else ports
  }

  /** The first node of an id, as the checker's dictionary keeps it. */
  function First(nodes: seq<Node<Body>>, id: nat): (r: Option<Node<Body>>)
    ensures r.Some? <==> id in Ids(nodes)
    ensures r.Some? ==> r.value in nodes && r.value.id == id
  {
    if nodes == [] then None
    else if nodes[0].id == id then Some(nodes[0])
    else
      var r := First(nodes[1..], id);
      assert forall i :: 0 < i < |nodes| ==> Ids(nodes)[i] == Ids(nodes[1..])[i - 1];
      r
  }

  function FindPort(ports: seq<Port>, id: nat): (r: Option<Port>)
    ensures r.Some? ==> r.value in ports && r.value.id == id
    ensures r.None? ==> forall p :: p in ports ==> p.id != id
  {
    if ports == [] then None else if ports[0].id == id then Some(ports[0]) else FindPort(ports[1..], id)
  }

  /** `_port` on inputs: the named port, or without a name the conventional one, or else the first. */
  function InputPort(spec: Spec, handle: Option<nat>): Option<Port> {
    match handle
    case Some(h) => FindPort(spec.inputs, h)
    case None =>
      if spec.inputs == [] then None
      else if FindPort(spec.inputs, PORT_IN).Some? then FindPort(spec.inputs, PORT_IN) else Some(spec.inputs[0])
  }

  // ---- what a well-formed graph is ----

  ghost predicate OutputsDeclared(g: Canvas, specs: Specs) {
    forall n :: n in g.nodes && n.body.kind in specs ==> EffectiveOutputs(n.body, specs[n.body.kind]).Some?
  }

  predicate EndpointsExist(g: Canvas, e: Edge) {
    e.source in Ids(g.nodes) && e.target in Ids(g.nodes)
  }

  /** A known source names one of its outputs, or has only one. */
  predicate SourceResolves(g: Canvas, specs: Specs, e: Edge)
    requires EndpointsExist(g, e)
  {
    var b := First(g.nodes, e.source).value.body;
    b.kind in specs ==>
      match EffectiveOutputs(b, specs[b.kind])
      case None => false
      case Some(outs) => if e.sourceHandle.Some? then e.sourceHandle.value in outs else |outs| == 1
  }

  /** A known target other than a join has the input port that the edge names or implies. */
  predicate TargetResolves(g: Canvas, specs: Specs, e: Edge)
    requires EndpointsExist(g, e)
  {
    var b := First(g.nodes, e.target).value.body;
    b.kind in specs && b.kind != JOIN ==> InputPort(specs[b.kind], e.targetHandle).Some?
  }

  /** The input port an edge lands on: its node and port, and whether the port takes several edges. */
  datatype Slot = Nowhere | Slot(node: nat, port: nat, multi: bool)

  function Landing(g: Canvas, specs: Specs, e: Edge): Slot {
    if !EndpointsExist(g, e) then Nowhere
    else
      var b := First(g.nodes, e.target).value.body;
      if b.kind !in specs || b.kind == JOIN then Nowhere
      else
        match InputPort(specs[b.kind], e.targetHandle)
        case None => Nowhere
        case Some(p) => Slot(e.target, p.id, p.multi)
  }

  ghost predicate Clash(g: Canvas, specs: Specs, i: nat, j: nat)
    requires i < |g.edges| && j < |g.edges|
  {
    var a, b := Landing(g, specs, g.edges[i]), Landing(g, specs, g.edges[j]);
    a.Slot? && b.Slot? && a.node == b.node && a.port == b.port && !b.multi
  }

  ghost predicate InputsFree(g: Canvas, specs: Specs) {
    forall i, j :: 0 <= i < j < |g.edges| ==> !Clash(g, specs, i, j)
  }

  function EdgeIds(edges: seq<Edge>): (r: seq<nat>)
    ensures |r| == |edges| && forall i :: 0 <= i < |r| ==> r[i] == edges[i].id
  {
    seq(|edges|, i requires 0 <= i < |edges| => edges[i].id)
  }

  /** Well formed but for joins that are not wired up yet. */
  ghost predicate NearlyWellFormed(g: Canvas, specs: Specs, target: Option<nat>) {
    && Distinct(Ids(g.nodes)) && Distinct(EdgeIds(g.edges))
    && OutputsDeclared(g, specs)
    && (target.Some? ==> target.value in Ids(g.nodes))
    && (forall e :: e in g.edges ==> EndpointsExist(g, e) && SourceResolves(g, specs, e) && TargetResolves(g, specs, e))
    && InputsFree(g, specs)
    && (forall n :: n in g.nodes && n.body.kind == JOIN && JOIN in specs ==> JoinUncrowded(g.edges, n.id))
  }

  ghost predicate WellFormed(g: Canvas, specs: Specs, target: Option<nat>) {
    && NearlyWellFormed(g, specs, target)
    && (forall n :: n in g.nodes && n.body.kind == JOIN && JOIN in specs ==> JoinWired(g.edges, n.id))
  }

  // ---- the checker ----

  datatype Error =
    | DuplicateNode(id: nat)
    | InvalidOutputs(id: nat)
    | DuplicateEdge(id: nat)
    | NoTargetNode(id: nat)
    | MissingSource(id: nat)
    | MissingTarget(id: nat)
    | NoSourcePort(id: nat)
    | NoInputPort(id: nat)
    | OccupiedInput(id: nat)
    | BadJoinHandle(id: nat)
    | CrowdedJoin(id: nat, port: nat)
    | UnwiredJoin(id: nat, port: nat)

  ghost predicate OnlyUnwired(errors: seq<Error>) {
    forall x :: x in errors ==> x.UnwiredJoin?
  }

  /** The ids that occur more than once, each reported once. */
  method Duplicates(ids: seq<nat>) returns (dups: seq<nat>)
    ensures dups == [] <==> Distinct(ids)
    ensures Distinct(dups) && forall x :: x in dups <==> multiset(ids)[x] > 1
  {
    var seen: set<nat> := {};
    dups := [];
    for i := 0 to |ids|
      invariant forall x :: x in seen <==> x in ids[..i]
      invariant dups == [] <==> Distinct(ids[..i])
      invariant Distinct(dups) && forall x :: x in dups <==> multiset(ids[..i])[x] > 1
    {
      assert ids[..i + 1] == ids[..i] + [ids[i]];
      if ids[i] in seen && ids[i] !in dups { dups := dups + [ids[i]]; }
      seen := seen + {ids[i]};
    }
    assert ids[..|ids|] == ids;
  }

  method OutputErrors(g: Canvas, specs: Specs) returns (errors: seq<Error>)
    ensures errors == [] <==> OutputsDeclared(g, specs)
    ensures OnlyUnwired(errors) ==> errors == []
  {
    errors := [];
    for i := 0 to |g.nodes|
      invariant forall x :: x in errors ==> x.InvalidOutputs?
      invariant errors == [] <==> forall k :: 0 <= k < i && g.nodes[k].body.kind in specs ==>
        EffectiveOutputs(g.nodes[k].body, specs[g.nodes[k].body.kind]).Some?
    {
      var n := g.nodes[i];
      if n.body.kind in specs && EffectiveOutputs(n.body, specs[n.body.kind]).None? {
        errors := errors + [InvalidOutputs(n.id)];
      }
    }
    assert errors != [] ==> errors[0] in errors;
  }

  /** One edge's own errors: its endpoints, its source port, its target port. */
  method EdgeErrors(g: Canvas, specs: Specs, e: Edge) returns (errors: seq<Error>)
    ensures errors == [] <==> EndpointsExist(g, e) && SourceResolves(g, specs, e) && TargetResolves(g, specs, e)
    ensures forall x :: x in errors ==> !x.UnwiredJoin?
  {
    errors := [];
    var source, target := First(g.nodes, e.source), First(g.nodes, e.target);
    if source.None? { errors := [MissingSource(e.id)]; }
    if target.None? { errors := errors + [MissingTarget(e.id)]; }
    if source.None? || target.None? { return; }
    var kind := source.value.body.kind;
    if kind in specs {
      var outs := EffectiveOutputs(source.value.body, specs[kind]);
      if outs.None? {
        errors := [NoSourcePort(e.id)];
      } else if e.sourceHandle.None? {
        if |outs.value| > 1 { errors := [NoSourcePort(e.id)]; }
      } else if e.sourceHandle.value !in outs.value {
        errors := [NoSourcePort(e.id)];
      }
    }
    kind := target.value.body.kind;
    if kind in specs && kind != JOIN && InputPort(specs[kind], e.targetHandle).None? {
      errors := errors + [NoInputPort(e.id)];
    }
  }

  /** One pass over the edges, remembering which inputs are taken. */
  method OccupancyErrors(g: Canvas, specs: Specs) returns (errors: seq<Error>)
    ensures errors == [] <==> InputsFree(g, specs)
    ensures forall x :: x in errors ==> !x.UnwiredJoin?
  {
    errors := [];
    var occupied: set<(nat, nat)> := {};
    for j := 0 to |g.edges|
      invariant forall x :: x in errors ==> !x.UnwiredJoin?
      invariant forall slot :: slot in occupied <==> Taken(g, specs, j, slot)
      invariant errors == [] <==> forall i, k :: 0 <= i < k < j ==> !Clash(g, specs, i, k)
    {
      var slot := Landing(g, specs, g.edges[j]);
      TakenNext(g, specs, j);
      if slot.Slot? {
        var key := (slot.node, slot.port);
        if !slot.multi && key in occupied {
          var i := TakenBy(g, specs, j, key);
          assert Clash(g, specs, i, j);
          errors := errors + [OccupiedInput(g.edges[j].id)];
        } else {
          NoClash(g, specs, j);
          occupied := occupied + {key};
        }
      } else {
        NoClash(g, specs, j);
      }
    }
  }

  /** One of the first `j` edges lands on this input. */
  ghost predicate Taken(g: Canvas, specs: Specs, j: nat, slot: (nat, nat))
    requires j <= |g.edges|
  {
    exists i :: 0 <= i < j && LandsOn(g, specs, i, slot)
  }

  ghost predicate LandsOn(g: Canvas, specs: Specs, i: nat, slot: (nat, nat))
    requires i < |g.edges|
  {
    var l := Landing(g, specs, g.edges[i]);
    l.Slot? && (l.node, l.port) == slot
  }

  lemma TakenBy(g: Canvas, specs: Specs, j: nat, slot: (nat, nat)) returns (i: nat)
    requires j <= |g.edges| && Taken(g, specs, j, slot)
    ensures i < j && LandsOn(g, specs, i, slot)
  {
    i :| 0 <= i < j && LandsOn(g, specs, i, slot);
  }

  lemma TakenNext(g: Canvas, specs: Specs, j: nat)
    requires j < |g.edges|
    ensures forall slot :: Taken(g, specs, j + 1, slot) <==> Taken(g, specs, j, slot) || LandsOn(g, specs, j, slot)
  {
    forall slot ensures Taken(g, specs, j + 1, slot) <==> Taken(g, specs, j, slot) || LandsOn(g, specs, j, slot) {
      if LandsOn(g, specs, j, slot) { assert Taken(g, specs, j + 1, slot); }
      if Taken(g, specs, j, slot) {
        var i := TakenBy(g, specs, j, slot);
        assert Taken(g, specs, j + 1, slot);
      }
    }
  }

  lemma NoClash(g: Canvas, specs: Specs, j: nat)
    requires j < |g.edges|
    requires var l := Landing(g, specs, g.edges[j]); l.Slot? && !l.multi ==> !Taken(g, specs, j, (l.node, l.port))
    ensures forall i :: 0 <= i < j ==> !Clash(g, specs, i, j)
  {
    forall i | 0 <= i < j ensures !Clash(g, specs, i, j) {
      if Clash(g, specs, i, j) {
        var l := Landing(g, specs, g.edges[j]);
        assert LandsOn(g, specs, i, (l.node, l.port));
      }
    }
  }

  /** `_join_input_errors`. */
  method JoinErrors(edges: seq<Edge>, n: nat) returns (errors: seq<Error>)
    ensures errors == [] <==> JoinWired(edges, n)
    ensures OnlyUnwired(errors) <==> JoinUncrowded(edges, n)
  {
    var es := Incoming(edges, n);
    errors := [];
    for i := 0 to |es|
      invariant errors == [] <==> forall k :: 0 <= k < i ==> JoinPort(es[k].targetHandle)
      invariant OnlyUnwired(errors) ==> errors == []
    {
      if !JoinPort(es[i].targetHandle) {
        var x := BadJoinHandle(es[i].id);
        assert x in errors + [x];
        errors := errors + [x];
      }
    }
    assert (forall e :: e in es ==> JoinPort(e.targetHandle)) <==> errors == [];
    var a := PortErrors(n, PORT_A, |OnPort(es, PORT_A)|);
    var b := PortErrors(n, PORT_B, |OnPort(es, PORT_B)|);
    OnlyUnwiredJoins(errors, a, b);
    errors := errors + a + b;
  }

  lemma OnlyUnwiredJoins(x: seq<Error>, a: seq<Error>, b: seq<Error>)
    ensures OnlyUnwired(x + a + b) <==> OnlyUnwired(x) && OnlyUnwired(a) && OnlyUnwired(b)
  {
    assert forall e :: e in x || e in a || e in b ==> e in x + a + b;
  }

  method PortErrors(n: nat, port: nat, count: nat) returns (errors: seq<Error>)
    ensures errors == [] <==> count == 1
    ensures OnlyUnwired(errors) <==> count <= 1
  {
    errors := if count == 0 then [UnwiredJoin(n, port)] else if count > 1 then [CrowdedJoin(n, port)] else [];
    assert count > 1 ==> errors[0] in errors;
  }

  method AllEdgeErrors(g: Canvas, specs: Specs) returns (errors: seq<Error>)
    ensures errors == [] <==>
      forall e :: e in g.edges ==> EndpointsExist(g, e) && SourceResolves(g, specs, e) && TargetResolves(g, specs, e)
    ensures forall x :: x in errors ==> !x.UnwiredJoin?
  {
    errors := [];
    for i := 0 to |g.edges|
      invariant errors == [] <==> forall k :: 0 <= k < i ==>
        EndpointsExist(g, g.edges[k]) && SourceResolves(g, specs, g.edges[k]) && TargetResolves(g, specs, g.edges[k])
      invariant forall x :: x in errors ==> !x.UnwiredJoin?
    {
      var more := EdgeErrors(g, specs, g.edges[i]);
      errors := errors + more;
    }
  }

  method AllJoinErrors(g: Canvas, specs: Specs) returns (errors: seq<Error>)
    ensures errors == [] <==>
      forall n :: n in g.nodes && n.body.kind == JOIN && JOIN in specs ==> JoinWired(g.edges, n.id)
    ensures OnlyUnwired(errors) <==>
      forall n :: n in g.nodes && n.body.kind == JOIN && JOIN in specs ==> JoinUncrowded(g.edges, n.id)
  {
    errors := [];
    for i := 0 to |g.nodes|
      invariant errors == [] <==> forall k :: 0 <= k < i && g.nodes[k].body.kind == JOIN && JOIN in specs ==>
        JoinWired(g.edges, g.nodes[k].id)
      invariant OnlyUnwired(errors) <==> forall k :: 0 <= k < i && g.nodes[k].body.kind == JOIN && JOIN in specs ==>
        JoinUncrowded(g.edges, g.nodes[k].id)
    {
      if g.nodes[i].body.kind == JOIN && JOIN in specs {
        var more := JoinErrors(g.edges, g.nodes[i].id);
        OnlyUnwiredJoins(errors, more, []);
        assert errors + more + [] == errors + more;
        errors := errors + more;
      }
    }
  }

  /**
   * `structural_errors`: no error at all exactly when the graph is well formed, and none but unwired join inputs
   * exactly when it is well formed apart from those.
   */
  method StructuralErrors(g: Canvas, specs: Specs, target: Option<nat>) returns (errors: seq<Error>)
    ensures errors == [] <==> WellFormed(g, specs, target)
    ensures OnlyUnwired(errors) <==> NearlyWellFormed(g, specs, target)
  {
    var nodes := Duplicates(Ids(g.nodes));
    var a := Label(nodes, (id: nat) => DuplicateNode(id));
    var b := OutputErrors(g, specs);
    var edges := Duplicates(EdgeIds(g.edges));
    var c := Label(edges, (id: nat) => DuplicateEdge(id));
    var d := if target.Some? && target.value !in Ids(g.nodes) then [NoTargetNode(target.value)] else [];
    var e := AllEdgeErrors(g, specs);
    var f := OccupancyErrors(g, specs);
    var h := AllJoinErrors(g, specs);
    OnlyUnwiredJoins(a, b, c);
    OnlyUnwiredJoins(a + b + c, d, e);
    OnlyUnwiredJoins(a + b + c + d + e, f, h);
    NoUnwired(a);
    NoUnwired(c);
    NoUnwired(d);
    NoUnwired(e);
    NoUnwired(f);
    errors := a + b + c + d + e + f + h;
  }

  lemma NoUnwired(errors: seq<Error>)
    requires forall x :: x in errors ==> !x.UnwiredJoin?
    ensures OnlyUnwired(errors) <==> errors == []
  {
    assert errors != [] ==> errors[0] in errors;
  }

  method Label(ids: seq<nat>, make: nat -> Error) returns (errors: seq<Error>)
    requires forall id :: !make(id).UnwiredJoin?
    ensures |errors| == |ids| && forall x :: x in errors ==> !x.UnwiredJoin?
  {
    errors := [];
    for i := 0 to |ids|
      invariant |errors| == i && forall x :: x in errors ==> !x.UnwiredJoin?
    {
      errors := errors + [make(ids[i])];
    }
  }
}
