/** Typed data graphs: nodes and the edges that feed them, and reachability against the edges. */
module Graphs {
  import opened Options

  datatype Edge = Edge(id: nat, source: nat, target: nat, sourceHandle: Option<nat>, targetHandle: Option<nat>)
  datatype Node<+C> = Node(id: nat, body: C)
  datatype Graph<+C> = Graph(nodes: seq<Node<C>>, edges: seq<Edge>)

  /** A node that declares no output port, or more than these, is refused. */
  const MAX_OUTPUTS: nat := 64

  /** Edges into a node, in the order of the edge array. */
  function Incoming(edges: seq<Edge>, n: nat): (r: seq<Edge>)
    ensures forall e :: e in r <==> e in edges && e.target == n
  {
    if edges == [] then []
    else
      var rest := Incoming(edges[..|edges| - 1], n);
      if edges[|edges| - 1].target == n then rest + [edges[|edges| - 1]] else rest
  }

  /** The edges that name a target port, in order. */
  function OnPort(edges: seq<Edge>, port: nat): seq<Edge> {
    if edges == [] then []
    else
      var rest := OnPort(edges[..|edges| - 1], port);
      if edges[|edges| - 1].targetHandle == Some(port) then rest + [edges[|edges| - 1]] else rest
  }

  // ---- the two input ports of a join ----

  const PORT_A: nat := 0
  const PORT_B: nat := 1

  predicate JoinPort(handle: Option<nat>) {
    handle == Some(PORT_A) || handle == Some(PORT_B)
  }

  /** Every edge into a join names one of its two ports, and neither port has two edges. */
  predicate JoinUncrowded(edges: seq<Edge>, n: nat) {
    var es := Incoming(edges, n);
    (forall e :: e in es ==> JoinPort(e.targetHandle)) && |OnPort(es, PORT_A)| <= 1 && |OnPort(es, PORT_B)| <= 1
  }

  predicate JoinWired(edges: seq<Edge>, n: nat) {
    JoinUncrowded(edges, n) && |OnPort(Incoming(edges, n), PORT_A)| == 1 && |OnPort(Incoming(edges, n), PORT_B)| == 1
  }

  function Sources(edges: seq<Edge>): (r: seq<nat>)
    ensures |r| == |edges| && forall i :: 0 <= i < |r| ==> r[i] == edges[i].source
  {
    seq(|edges|, i requires 0 <= i < |edges| => edges[i].source)
  }

  function Parents(edges: seq<Edge>, n: nat): seq<nat> {
    Sources(Incoming(edges, n))
  }

  ghost predicate Feeds(edges: seq<Edge>, p: nat, n: nat) {
    exists e :: e in edges && e.source == p && e.target == n
  }

  lemma ParentsFeed(edges: seq<Edge>, n: nat)
    ensures forall p :: p in Parents(edges, n) <==> Feeds(edges, p, n)
  {
    var es := Incoming(edges, n);
    forall p | Feeds(edges, p, n) ensures p in Parents(edges, n) {
      var e :| e in edges && e.source == p && e.target == n;
      var i :| 0 <= i < |es| && es[i] == e;
      assert Parents(edges, n)[i] == p;
    }
    forall p | p in Parents(edges, n) ensures Feeds(edges, p, n) {
      var i :| 0 <= i < |es| && Parents(edges, n)[i] == p;
      assert es[i] in edges;
    }
  }

  /** `m` is `k` edges upstream of `n`. */
  ghost predicate Steps(edges: seq<Edge>, n: nat, m: nat, k: nat)
    decreases k
  {
    if k == 0 then n == m else exists p :: Feeds(edges, p, n) && Steps(edges, p, m, k - 1)
  }

  ghost predicate Upstream(edges: seq<Edge>, n: nat, m: nat) {
    exists k :: Steps(edges, n, m, k)
  }

  ghost predicate StrictlyUpstream(edges: seq<Edge>, n: nat, m: nat) {
    exists k :: k >= 1 && Steps(edges, n, m, k)
  }

  /** A directed cycle lies somewhere upstream of `n`. */
  ghost predicate CycleAbove(edges: seq<Edge>, n: nat) {
    exists m :: Upstream(edges, n, m) && StrictlyUpstream(edges, m, m)
  }

  lemma {:induction false} StepsAdd(edges: seq<Edge>, n: nat, m: nat, l: nat, j: nat, k: nat)
    requires Steps(edges, n, m, j) && Steps(edges, m, l, k)
    ensures Steps(edges, n, l, j + k)
    decreases j
  {
    if j > 0 {
      var p :| Feeds(edges, p, n) && Steps(edges, p, m, j - 1);
      StepsAdd(edges, p, m, l, j - 1, k);
    }
  }

  lemma UpstreamSelf(edges: seq<Edge>, n: nat)
    ensures Upstream(edges, n, n)
  {
    assert Steps(edges, n, n, 0);
  }

  lemma UpstreamEdge(edges: seq<Edge>, n: nat, p: nat)
    requires Feeds(edges, p, n)
    ensures StrictlyUpstream(edges, n, p)
  {
    assert Steps(edges, p, p, 0);
    assert Steps(edges, n, p, 1);
  }

  lemma UpstreamTrans(edges: seq<Edge>, n: nat, m: nat, l: nat)
    requires Upstream(edges, n, m) && Upstream(edges, m, l)
    ensures Upstream(edges, n, l)
  {
    var j :| Steps(edges, n, m, j);
    var k :| Steps(edges, m, l, k);
    StepsAdd(edges, n, m, l, j, k);
  }

  lemma StrictTrans(edges: seq<Edge>, n: nat, m: nat, l: nat)
    requires StrictlyUpstream(edges, n, m) && StrictlyUpstream(edges, m, l)
    ensures StrictlyUpstream(edges, n, l)
  {
    var j :| j >= 1 && Steps(edges, n, m, j);
    var k :| k >= 1 && Steps(edges, m, l, k);
    StepsAdd(edges, n, m, l, j, k);
  }

  // ---- parents-first orders ----

  predicate Distinct(s: seq<nat>) {
    forall i, j :: 0 <= i < j < |s| ==> s[i] != s[j]
  }

  /** Each id once, and every parent of an id somewhere before it. */
  ghost predicate ParentsFirst(edges: seq<Edge>, order: seq<nat>) {
    && Distinct(order)
    && forall i, p :: 0 <= i < |order| && Feeds(edges, p, order[i]) ==> p in order[..i]
  }

  /** Whatever is upstream of a listed id is listed no later; strictly upstream, strictly earlier. */
  lemma {:induction false} UpstreamIsEarlier(edges: seq<Edge>, order: seq<nat>, i: nat, m: nat, k: nat)
    requires ParentsFirst(edges, order) && i < |order| && Steps(edges, order[i], m, k)
    ensures m in order[..i + 1] && (k >= 1 ==> m in order[..i])
    decreases k
  {
    if k == 0 {
      assert order[..i + 1][i] == m;
    } else {
      var p :| Feeds(edges, p, order[i]) && Steps(edges, p, m, k - 1);
      assert p in order[..i];
      var j :| 0 <= j < i && order[j] == p;
      UpstreamIsEarlier(edges, order, j, m, k - 1);
      assert order[..j + 1] <= order[..i];
    }
  }

  lemma NoCycleAboveListed(edges: seq<Edge>, order: seq<nat>, n: nat)
    requires ParentsFirst(edges, order) && n in order
    ensures !CycleAbove(edges, n)
  {
    if CycleAbove(edges, n) {
      var m :| Upstream(edges, n, m) && StrictlyUpstream(edges, m, m);
      var i :| 0 <= i < |order| && order[i] == n;
      var k :| Steps(edges, n, m, k);
      UpstreamIsEarlier(edges, order, i, m, k);
      var j :| 0 <= j < |order| && order[j] == m;
      var l :| l >= 1 && Steps(edges, m, m, l);
      UpstreamIsEarlier(edges, order, j, m, l);
    }
  }

  lemma UpstreamIsListed(edges: seq<Edge>, order: seq<nat>, n: nat, m: nat)
    requires ParentsFirst(edges, order) && n in order && Upstream(edges, n, m)
    ensures m in order
  {
    var i :| 0 <= i < |order| && order[i] == n;
    var k :| Steps(edges, n, m, k);
    UpstreamIsEarlier(edges, order, i, m, k);
  }

  // ---- node lookup ----

  function Ids<C>(nodes: seq<Node<C>>): (r: seq<nat>)
    ensures |r| == |nodes| && forall i :: 0 <= i < |r| ==> r[i] == nodes[i].id
  {
    seq(|nodes|, i requires 0 <= i < |nodes| => nodes[i].id)
  }

  /** The node a dictionary by id holds: the last one of that id. */
  function Lookup<C>(nodes: seq<Node<C>>, id: nat): (r: Option<Node<C>>)
    ensures r.Some? <==> id in Ids(nodes)
    ensures r.Some? ==> r.value in nodes && r.value.id == id
  {
    if nodes == [] then None
    else if nodes[|nodes| - 1].id == id then Some(nodes[|nodes| - 1])
    else
      var r := Lookup(nodes[..|nodes| - 1], id);
      assert forall i :: 0 <= i < |nodes| - 1 ==> Ids(nodes)[i] == Ids(nodes[..|nodes| - 1])[i];
      r
  }

  /** `x` is some listed node, or upstream of one. */
  ghost predicate FeedsOneOf<C>(edges: seq<Edge>, nodes: seq<Node<C>>, x: nat) {
    exists k :: 0 <= k < |nodes| && Upstream(edges, nodes[k].id, x)
  }

  ghost predicate CycleAboveOneOf<C>(edges: seq<Edge>, nodes: seq<Node<C>>) {
    exists k :: 0 <= k < |nodes| && CycleAbove(edges, nodes[k].id)
  }

  lemma FeedsOneOfSnoc<C>(edges: seq<Edge>, nodes: seq<Node<C>>, i: nat, x: nat)
    requires i < |nodes|
    ensures FeedsOneOf(edges, nodes[..i + 1], x) <==>
      FeedsOneOf(edges, nodes[..i], x) || Upstream(edges, nodes[i].id, x)
  {
    var a, b := nodes[..i], nodes[..i + 1];
    if FeedsOneOf(edges, a, x) {
      var k :| 0 <= k < |a| && Upstream(edges, a[k].id, x);
      assert b[k] == a[k];
    }
    if FeedsOneOf(edges, b, x) {
      var k :| 0 <= k < |b| && Upstream(edges, b[k].id, x);
      if k < i { assert a[k] == b[k]; }
    }
    assert b[i] == nodes[i];
  }

  /** No edge comes from an id that is not a node. */
  ghost predicate SourcesKnown<C>(g: Graph<C>) {
    forall e :: e in g.edges ==> e.source in Ids(g.nodes)
  }

  lemma {:induction false} UpstreamIsKnown<C>(g: Graph<C>, n: nat, m: nat, k: nat)
    requires SourcesKnown(g) && n in Ids(g.nodes) && Steps(g.edges, n, m, k)
    ensures m in Ids(g.nodes)
    decreases k
  {
    if k > 0 {
      var p :| Feeds(g.edges, p, n) && Steps(g.edges, p, m, k - 1);
      UpstreamIsKnown(g, p, m, k - 1);
    }
  }

  /** An id upstream of a node that is no node itself means an edge with an unknown source. */
  lemma DanglingUpstream<C>(g: Graph<C>, n: nat, x: nat)
    requires n in Ids(g.nodes) && Upstream(g.edges, n, x) && x !in Ids(g.nodes)
    ensures !SourcesKnown(g)
  {
    if SourcesKnown(g) {
      var k :| Steps(g.edges, n, x, k);
      UpstreamIsKnown(g, n, x, k);
    }
  }

  lemma DanglingSource<C>(g: Graph<C>, x: nat)
    requires FeedsOneOf(g.edges, g.nodes, x) && x !in Ids(g.nodes)
    ensures !SourcesKnown(g)
  {
    var i :| 0 <= i < |g.nodes| && Upstream(g.edges, g.nodes[i].id, x);
    assert Ids(g.nodes)[i] == g.nodes[i].id;
    DanglingUpstream(g, g.nodes[i].id, x);
  }

  lemma {:induction false} CountDistinct<C>(nodes: seq<Node<C>>, x: Node<C>)
    requires Distinct(Ids(nodes))
    ensures multiset(nodes)[x] == if x in nodes then 1 else 0
  {
    if nodes != [] {
      var n := |nodes| - 1;
      assert nodes == nodes[..n] + [nodes[n]];
      assert forall i :: 0 <= i < n ==> Ids(nodes[..n])[i] == Ids(nodes)[i];
      CountDistinct(nodes[..n], x);
    }
  }

  /** Two lists of nodes with the same ids, each once, drawn from one list are permutations of each other. */
  lemma SameIdsPermute<C>(a: seq<Node<C>>, b: seq<Node<C>>)
    requires Distinct(Ids(a)) && Distinct(Ids(b)) && (forall x :: x in a ==> x in b)
    requires forall i :: i in Ids(b) ==> i in Ids(a)
    ensures multiset(a) == multiset(b)
  {
    forall x ensures multiset(a)[x] == multiset(b)[x] {
      CountDistinct(a, x);
      CountDistinct(b, x);
      if x in b {
        var j :| 0 <= j < |b| && b[j] == x;
        assert Ids(b)[j] == x.id;
        assert x.id in Ids(a);
        var i :| 0 <= i < |a| && Ids(a)[i] == x.id;
        assert a[i] in b;
        var k :| 0 <= k < |b| && b[k] == a[i];
        assert Ids(b)[k] == x.id;
      }
    }
  }
}
