/**
 * Laying out an imported graph: a column per longest path from a root, rows
 * stacked within a column.
 */
module Layout {
  import opened Options
  import opened Graphs
  import Dfs

  /** Columns are 280 apart and rows 170, from (80, 80). */
  datatype Position = Position(x: int, y: int)

  function At(column: nat, row: nat): Position {
    Position(80 + 280 * column, 80 + 170 * row)
  }

  type Depths = map<nat, nat>

  function DepthOr0(depths: Depths, id: nat): nat {
    if id in depths then depths[id] else 0
  }

  /** Sources of edges into a node that are nodes themselves, other than the node. */
  function KnownParents(edges: seq<Edge>, ids: seq<nat>, n: nat): (r: seq<nat>)
    ensures forall p :: p in r <==> Feeds(edges, p, n) && p in ids && p != n
  {
    ParentsFeed(edges, n);
    KeepKnown(Parents(edges, n), ids, n)
  }

  function KeepKnown(ps: seq<nat>, ids: seq<nat>, n: nat): (r: seq<nat>)
    ensures forall p :: p in r <==> p in ps && p in ids && p != n
  {
    if ps == [] then []
    else (if ps[0] in ids && ps[0] != n then [ps[0]] else []) + KeepKnown(ps[1..], ids, n)
  }

  /** The greatest depth of some nodes; one less than nothing when there are none. */
  function Deepest(ps: seq<nat>, depths: Depths): (d: int)
    ensures d == -1 <==> ps == []
    ensures forall p :: p in ps ==> DepthOr0(depths, p) <= d
    ensures ps != [] ==> exists p :: p in ps && DepthOr0(depths, p) == d
  {
    if ps == [] then -1
    else
      var rest := Deepest(ps[1..], depths);
      if DepthOr0(depths, ps[0]) > rest then DepthOr0(depths, ps[0]) else rest
  }

  /** Every node's depth is one more than its deepest known parent's. */
  ghost predicate Scored(edges: seq<Edge>, ids: seq<nat>, n: nat, depths: Depths) {
    n in depths && depths[n] as int == 1 + Deepest(KnownParents(edges, ids, n), depths)
  }

  ghost predicate AllScored<C>(g: Graph<C>, depths: Depths) {
    forall x {:trigger Scored(g.edges, Ids(g.nodes), x, depths)} :: x in Ids(g.nodes) ==>
      Scored(g.edges, Ids(g.nodes), x, depths)
  }

  lemma {:induction false} SameDeepest(ps: seq<nat>, a: Depths, b: Depths)
    requires forall p :: p in ps ==> DepthOr0(a, p) == DepthOr0(b, p)
    ensures Deepest(ps, a) == Deepest(ps, b)
  {
    if ps != [] { SameDeepest(ps[1..], a, b); }
  }

  ghost predicate ScoredUpTo<C>(g: Graph<C>, order: seq<Node<C>>, i: nat, depths: Depths)
    requires i <= |order|
  {
    forall k {:trigger order[k]} :: 0 <= k < i ==> Scored(g.edges, Ids(g.nodes), order[k].id, depths)
  }

  /** Nodes are scored one after the other, each from the scores there are when its turn comes. */
  function Scores<C>(g: Graph<C>, order: seq<Node<C>>): Depths {
    if order == [] then map[] else Rescored(g, order[|order| - 1].id, Scores(g, order[..|order| - 1]))
  }

  function Rescored<C>(g: Graph<C>, n: nat, before: Depths): Depths {
    before[n := 1 + Deepest(KnownParents(g.edges, Ids(g.nodes), n), before)]
  }

  method Score<C>(g: Graph<C>, order: seq<Node<C>>) returns (depths: Depths)
    ensures depths == Scores(g, order)
  {
    depths := map[];
    for i := 0 to |order|
      invariant depths == Scores(g, order[..i])
    {
      assert order[..i + 1][..i] == order[..i];
      depths := Rescored(g, order[i].id, depths);
    }
    assert order[..|order|] == order;
  }

  /** Parents first, every node is scored from its parents' final scores. */
  lemma {:induction false} ScoresAreFinal<C>(g: Graph<C>, order: seq<Node<C>>, i: nat)
    requires ParentsFirst(g.edges, Ids(order)) && i <= |order|
    ensures ScoredUpTo(g, order, i, Scores(g, order[..i]))
  {
    if i > 0 {
      ScoresAreFinal(g, order, i - 1);
      assert order[..i][..i - 1] == order[..i - 1];
      ScoredNext(g, order, i - 1, Scores(g, order[..i - 1]), Scores(g, order[..i]));
    }
  }

  lemma StillScored<C>(g: Graph<C>, order: seq<Node<C>>, k: nat, i: nat, before: Depths, depths: Depths)
    requires ParentsFirst(g.edges, Ids(order)) && k <= i < |order|
    requires depths == Rescored(g, order[i].id, before)
    requires k < i ==> Scored(g.edges, Ids(g.nodes), order[k].id, before)
    ensures Scored(g.edges, Ids(g.nodes), order[k].id, depths)
  {
    assert Ids(order)[k] == order[k].id && Ids(order)[i] == order[i].id;
    var ps := KnownParents(g.edges, Ids(g.nodes), order[k].id);
    forall p | p in ps ensures p != order[i].id {
      assert p in Ids(order)[..k];
    }
    SameDeepest(ps, before, depths);
  }

  lemma ScoredNext<C>(g: Graph<C>, order: seq<Node<C>>, i: nat, before: Depths, depths: Depths)
    requires ParentsFirst(g.edges, Ids(order)) && i < |order| && ScoredUpTo(g, order, i, before)
    requires depths == Rescored(g, order[i].id, before)
    ensures ScoredUpTo(g, order, i + 1, depths)
  {
    forall k | 0 <= k <= i ensures Scored(g.edges, Ids(g.nodes), order[k].id, depths) {
      StillScored(g, order, k, i, before, depths);
    }
  }

  /** How many of these nodes are in a column. */
  function InColumn<C>(nodes: seq<Node<C>>, depths: Depths, column: nat): nat {
    if nodes == [] then 0
    else InColumn(nodes[..|nodes| - 1], depths, column) + if DepthOr0(depths, nodes[|nodes| - 1].id) == column then 1
      else 0
  }

  /** A node is placed below the nodes of its column that come before it. */
  function PlaceOf<C>(nodes: seq<Node<C>>, depths: Depths, i: nat): Position
    requires i < |nodes|
  {
    var column := DepthOr0(depths, nodes[i].id);
    At(column, InColumn(nodes[..i], depths, column))
  }

  method Stack<C>(nodes: seq<Node<C>>, depths: Depths) returns (positions: seq<Position>)
    ensures |positions| == |nodes| && forall i :: 0 <= i < |nodes| ==> positions[i] == PlaceOf(nodes, depths, i)
  {
    var perColumn: map<nat, nat> := map[];
    positions := [];
    for i := 0 to |nodes|
      invariant |positions| == i && forall k :: 0 <= k < i ==> positions[k] == PlaceOf(nodes, depths, k)
      invariant forall c: nat :: (if c in perColumn then perColumn[c] else 0) == InColumn(nodes[..i], depths, c)
    {
      var column := DepthOr0(depths, nodes[i].id);
      var row := if column in perColumn then perColumn[column] else 0;
      perColumn := perColumn[column := row + 1];
      positions := positions + [At(column, row)];
      assert nodes[..i + 1][..i] == nodes[..i];
    }
  }

  lemma {:induction false} ColumnFills<C>(nodes: seq<Node<C>>, depths: Depths, column: nat, i: nat, j: nat)
    requires i < j <= |nodes| && DepthOr0(depths, nodes[i].id) == column
    ensures InColumn(nodes[..i], depths, column) < InColumn(nodes[..j], depths, column)
    decreases j
  {
    assert nodes[..j][..j - 1] == nodes[..j - 1];
    if i < j - 1 { ColumnFills(nodes, depths, column, i, j - 1); }
  }

  /** No two nodes share a place, whatever their columns. */
  lemma PlacesAreDistinct<C>(nodes: seq<Node<C>>, depths: Depths, i: nat, j: nat)
    requires i < j < |nodes|
    ensures PlaceOf(nodes, depths, i) != PlaceOf(nodes, depths, j)
  {
    if DepthOr0(depths, nodes[i].id) == DepthOr0(depths, nodes[j].id) {
      ColumnFills(nodes, depths, DepthOr0(depths, nodes[i].id), i, j);
    }
  }

  datatype Result = Placed(positions: seq<Position>) | Failed

  /** `layout`: after a cycle is found the nodes are scored in list order; a dangling edge still raises. */
  method Place<C>(g: Graph<C>) returns (r: Result, ghost depths: Depths)
    ensures r.Failed? ==> !SourcesKnown(g) && !CycleAboveOneOf(g.edges, g.nodes)
    ensures r.Placed? ==>
      && |r.positions| == |g.nodes|
      && forall i :: 0 <= i < |g.nodes| ==> r.positions[i] == PlaceOf(g.nodes, depths, i)
    ensures r.Placed? && !CycleAboveOneOf(g.edges, g.nodes) ==> AllScored(g, depths)
    ensures CycleAboveOneOf(g.edges, g.nodes) ==> depths == Scores(g, g.nodes)
  {
    depths := map[];
    var topo := Dfs.TopoOrder(g);
    if topo.Unknown? {
      DanglingSource(g, topo.id);
      return Failed, depths;
    }
    var order := if topo.Cycle? then g.nodes else topo.nodes;
    var scores := Score(g, order);
    var positions := Stack(g.nodes, scores);
    depths := scores;
    r := Placed(positions);
    if topo.Ordered? {
      ScoresAreFinal(g, order, |order|);
      assert order[..|order|] == order;
      forall x | x in Ids(g.nodes) ensures Scored(g.edges, Ids(g.nodes), x, depths) {
        var k := Listed(g, order, x);
      }
    }
  }

  lemma Listed<C>(g: Graph<C>, order: seq<Node<C>>, x: nat) returns (k: nat)
    requires x in Ids(g.nodes) && forall y :: y in Ids(order) <==> FeedsOneOf(g.edges, g.nodes, y)
    ensures k < |order| && order[k].id == x
  {
    var i :| 0 <= i < |g.nodes| && Ids(g.nodes)[i] == x;
    UpstreamSelf(g.edges, x);
    assert g.nodes[i].id == x && FeedsOneOf(g.edges, g.nodes, x);
    k :| 0 <= k < |order| && Ids(order)[k] == x;
  }

  // ---- what the scores mean ----

  ghost predicate NoSelfLoop(edges: seq<Edge>) {
    forall x {:trigger Feeds(edges, x, x)} :: !Feeds(edges, x, x)
  }

  lemma AcyclicHasNoSelfLoop(edges: seq<Edge>)
    requires forall m :: !StrictlyUpstream(edges, m, m)
    ensures NoSelfLoop(edges)
  {
    forall x ensures !Feeds(edges, x, x) {
      if Feeds(edges, x, x) { UpstreamEdge(edges, x, x); }
    }
  }

  /** An edge between two nodes goes at least one column to the right. */
  lemma EdgesGoRight<C>(g: Graph<C>, depths: Depths, p: nat, n: nat)
    requires SourcesKnown(g) && NoSelfLoop(g.edges) && Feeds(g.edges, p, n) && Scored(g.edges, Ids(g.nodes), n, depths)
    ensures p in Ids(g.nodes) && p in KnownParents(g.edges, Ids(g.nodes), n)
      && DepthOr0(depths, p) < DepthOr0(depths, n)
  {
    assert !Feeds(g.edges, n, n);
  }

  lemma ParentIsLeft<C>(g: Graph<C>, depths: Depths, p: nat, n: nat)
    requires SourcesKnown(g) && NoSelfLoop(g.edges) && AllScored(g, depths) && n in Ids(g.nodes) && Feeds(g.edges, p, n)
    ensures p in Ids(g.nodes) && DepthOr0(depths, p) < DepthOr0(depths, n)
  {
    assert Scored(g.edges, Ids(g.nodes), n, depths);
    EdgesGoRight(g, depths, p, n);
  }

  /** A column is the length of a longest path from a root: no path upstream is longer... */
  lemma {:induction false} NoLongerPath<C>(g: Graph<C>, depths: Depths, n: nat, m: nat, k: nat)
    requires SourcesKnown(g) && NoSelfLoop(g.edges) && AllScored(g, depths) && n in Ids(g.nodes)
      && Steps(g.edges, n, m, k)
    ensures DepthOr0(depths, m) + k <= DepthOr0(depths, n)
    decreases k
  {
    if k > 0 {
      var p :| Feeds(g.edges, p, n) && Steps(g.edges, p, m, k - 1);
      ParentIsLeft(g, depths, p, n);
      NoLongerPath(g, depths, p, m, k - 1);
    }
  }

  /** A node in column 0 is a root; any other has a parent in the column before. */
  lemma DeepestParent<C>(g: Graph<C>, depths: Depths, n: nat) returns (p: nat)
    requires SourcesKnown(g) && NoSelfLoop(g.edges) && AllScored(g, depths) && n in Ids(g.nodes)
    ensures DepthOr0(depths, n) == 0 ==> forall x :: !Feeds(g.edges, x, n)
    ensures DepthOr0(depths, n) > 0 ==>
      Feeds(g.edges, p, n) && p in Ids(g.nodes) && DepthOr0(depths, p) + 1 == DepthOr0(depths, n)
  {
    assert Scored(g.edges, Ids(g.nodes), n, depths);
    var ps := KnownParents(g.edges, Ids(g.nodes), n);
    if ps == [] {
      p := n;
      forall x ensures !Feeds(g.edges, x, n) {
        if Feeds(g.edges, x, n) { EdgesGoRight(g, depths, x, n); }
      }
    } else {
      p :| p in ps && DepthOr0(depths, p) == Deepest(ps, depths);
    }
  }

  /** ... and one is that long. */
  lemma {:induction false} PathOfThatLength<C>(g: Graph<C>, depths: Depths, n: nat) returns (root: nat)
    requires SourcesKnown(g) && NoSelfLoop(g.edges) && AllScored(g, depths) && n in Ids(g.nodes)
    ensures Steps(g.edges, n, root, DepthOr0(depths, n)) && forall p :: !Feeds(g.edges, p, root)
    decreases DepthOr0(depths, n)
  {
    var p := DeepestParent(g, depths, n);
    root := n;
    if DepthOr0(depths, n) > 0 { root := PathOfThatLength(g, depths, p); }
  }

  /** A node scored in any order lands in column 0 exactly when it has no known parent. */
  lemma {:induction false} ScoredLast<C>(g: Graph<C>, order: seq<Node<C>>, x: nat)
    requires x in Ids(order)
    ensures DepthOr0(Scores(g, order), x) == 0 <==> KnownParents(g.edges, Ids(g.nodes), x) == []
  {
    var last := |order| - 1;
    if order[last].id != x {
      assert Ids(order[..last]) == Ids(order)[..last];
      ScoredLast(g, order[..last], x);
    } else {
      SomeParentCounts(KnownParents(g.edges, Ids(g.nodes), x), Scores(g, order[..last]));
    }
  }

  lemma SomeParentCounts(ps: seq<nat>, depths: Depths)
    ensures 1 + Deepest(ps, depths) == 0 <==> ps == []
  {
    if ps != [] { assert DepthOr0(depths, ps[0]) <= Deepest(ps, depths); }
  }

  ghost predicate SelfFed(edges: seq<Edge>, ids: seq<nat>, x: nat) {
    forall e :: e in edges && e.source in ids && e.target == x ==> e.source == x
  }

  lemma NoOtherParent(edges: seq<Edge>, ids: seq<nat>, x: nat)
    ensures KnownParents(edges, ids, x) == [] <==> SelfFed(edges, ids, x)
  {
    var ps := KnownParents(edges, ids, x);
    if ps != [] {
      assert ps[0] in ps;
      var e :| e in edges && e.source == ps[0] && e.target == x;
    } else {
      forall e | e in edges && e.source in ids && e.target == x ensures e.source == x {
        assert Feeds(edges, e.source, x) && e.source !in ps;
      }
    }
  }

  /**
   * A cyclic graph is meant to degrade to a single column. Scored in list order, its nodes all land in column 0 exactly
   * when no edge joins two different nodes.
   */
  lemma OneColumnExactly<C>(g: Graph<C>)
    ensures (forall x :: x in Ids(g.nodes) ==> DepthOr0(Scores(g, g.nodes), x) == 0) <==>
      forall e :: e in g.edges && e.source in Ids(g.nodes) && e.target in Ids(g.nodes) ==> e.source == e.target
  {
    forall x | x in Ids(g.nodes) ensures DepthOr0(Scores(g, g.nodes), x) == 0 <==> SelfFed(g.edges, Ids(g.nodes), x) {
      ScoredLast(g, g.nodes, x);
      NoOtherParent(g.edges, Ids(g.nodes), x);
    }
  }

  lemma DeepestAlike(ps: seq<nat>, depths: Depths, d: nat)
    requires ps != [] && forall p :: p in ps ==> DepthOr0(depths, p) == d
    ensures Deepest(ps, depths) == d
  {
  }

  lemma LoopIsCycle<C>(g: Graph<C>, a: nat, b: nat)
    requires Feeds(g.edges, a, b) && Feeds(g.edges, b, a) && g.nodes != [] && g.nodes[0].id == a
    ensures CycleAboveOneOf(g.edges, g.nodes)
  {
    assert Steps(g.edges, b, b, 0) && Steps(g.edges, a, a, 0);
    assert Steps(g.edges, b, a, 1);
    assert Steps(g.edges, a, a, 2);
    UpstreamSelf(g.edges, a);
    assert CycleAbove(g.edges, g.nodes[0].id);
  }

  /** Two nodes that feed each other. */
  ghost predicate Loop<C>(g: Graph<C>, a: Node<C>, b: Node<C>) {
    && a.id != b.id && g.nodes == [a, b]
    && g.edges == [Edge(0, a.id, b.id, None, None), Edge(1, b.id, a.id, None, None)]
  }

  lemma LoopFeeds<C>(g: Graph<C>, a: Node<C>, b: Node<C>)
    requires Loop(g, a, b)
    ensures Ids(g.nodes) == [a.id, b.id] && Feeds(g.edges, a.id, b.id) && Feeds(g.edges, b.id, a.id)
  {
    assert g.edges[0] in g.edges && g.edges[1] in g.edges;
  }

  lemma LoopParents<C>(g: Graph<C>, a: Node<C>, b: Node<C>, before: Depths)
    requires Loop(g, a, b)
    ensures 1 + Deepest(KnownParents(g.edges, Ids(g.nodes), a.id), before) == 1 + DepthOr0(before, b.id)
    ensures 1 + Deepest(KnownParents(g.edges, Ids(g.nodes), b.id), before) == 1 + DepthOr0(before, a.id)
  {
    LoopFeeds(g, a, b);
    var ofA, ofB := KnownParents(g.edges, Ids(g.nodes), a.id), KnownParents(g.edges, Ids(g.nodes), b.id);
    assert b.id in ofA && a.id in ofB;
    DeepestAlike(ofA, before, DepthOr0(before, b.id));
    DeepestAlike(ofB, before, DepthOr0(before, a.id));
  }

  lemma LoopScores<C>(g: Graph<C>, a: Node<C>, b: Node<C>)
    requires Loop(g, a, b)
    ensures Scores(g, g.nodes) == map[a.id := 1, b.id := 2]
  {
    LoopParents(g, a, b, map[]);
    LoopParents(g, a, b, map[a.id := 1]);
    assert g.nodes[..1] == [a] && [a][..0] == [];
    assert Scores(g, [a]) == map[a.id := 1];
  }

  /** Nodes that feed each other are a cycle, and land in two columns, neither of them the first. */
  lemma LoopSpreads<C>(g: Graph<C>, a: Node<C>, b: Node<C>)
    requires Loop(g, a, b)
    ensures CycleAboveOneOf(g.edges, g.nodes)
    ensures DepthOr0(Scores(g, g.nodes), a.id) == 1 && DepthOr0(Scores(g, g.nodes), b.id) == 2
  {
    LoopFeeds(g, a, b);
    LoopIsCycle(g, a.id, b.id);
    LoopScores(g, a, b);
  }
}
