/**
 * The explicit-stack depth-first search behind every graph traversal.
 *
 * A frame on the stack is a node to explore, or a node to finalise once
 * everything pushed above it has been dealt with. The nodes waiting to be
 * finalised are the grey ones, and they form one path upstream from the root.
 */
module Dfs {
  import opened Options
  import opened Graphs

  datatype Colour = Grey | Black
  datatype Frame = Frame(id: nat, done: bool)

  // ---- what holds between two turns of the loop ----

  /** Black nodes are the ordered ones; grey nodes are the ones waiting to be finalised. */
  ghost predicate Coloured(stack: seq<Frame>, state: map<nat, Colour>, order: seq<nat>) {
    && (forall x :: x in order <==> x in state && state[x] == Black)
    && (forall x :: Frame(x, true) in stack <==> x in state && state[x] == Grey)
  }

  /** A node waiting to be finalised occurs nowhere above its frame. */
  ghost predicate Fenced(stack: seq<Frame>) {
    forall j, i :: 0 <= j < i < |stack| && stack[j].done ==> stack[j].id != stack[i].id
  }

  ghost predicate OnStackAbove(stack: seq<Frame>, i: nat, p: nat) {
    exists k :: i < k < |stack| && stack[k].id == p
  }

  /** The parents of a node waiting to be finalised are ordered already, or still above it. */
  ghost predicate Pending(edges: seq<Edge>, stack: seq<Frame>, order: seq<nat>) {
    forall i, p :: 0 <= i < |stack| && stack[i].done && Feeds(edges, p, stack[i].id) ==>
      p in order || OnStackAbove(stack, i, p)
  }

  /** Whatever is above a node waiting to be finalised is strictly upstream of it. */
  ghost predicate Chained(edges: seq<Edge>, stack: seq<Frame>) {
    forall j, i :: 0 <= j < i < |stack| && stack[j].done ==> StrictlyUpstream(edges, stack[j].id, stack[i].id)
  }

  ghost predicate Rooted(edges: seq<Edge>, root: nat, stack: seq<Frame>, found: set<nat>) {
    && (forall i :: 0 <= i < |stack| ==> Upstream(edges, root, stack[i].id))
    && (forall x :: x in found ==> Upstream(edges, root, x))
  }

  /** The root's frame is at the bottom until the root is finalised, last of all. */
  ghost predicate Bottom(root: nat, stack: seq<Frame>, before: seq<nat>, order: seq<nat>) {
    && before <= order
    && (stack != [] ==> stack[0].id == root && (!stack[0].done ==> |stack| == 1 && order == before))
    && (stack == [] ==> root in order && (root !in before ==> order[|order| - 1] == root))
  }

  ghost predicate Searching(edges: seq<Edge>, root: nat, before: seq<nat>, stack: seq<Frame>,
                            state: map<nat, Colour>, order: seq<nat>) {
    && Coloured(stack, state, order)
    && ParentsFirst(edges, order)
    && Fenced(stack)
    && Pending(edges, stack, order)
    && Chained(edges, stack)
    && Bottom(root, stack, before, order)
    && Rooted(edges, root, stack, (set x | x in order) - (set x | x in before))
  }

  // ---- finalising the top frame ----

  lemma FinaliseKeepsOrder(edges: seq<Edge>, stack: seq<Frame>, state: map<nat, Colour>, order: seq<nat>)
    requires |stack| > 0 && stack[|stack| - 1].done
    requires Coloured(stack, state, order) && ParentsFirst(edges, order) && Pending(edges, stack, order)
    ensures ParentsFirst(edges, order + [stack[|stack| - 1].id])
  {
    var top := |stack| - 1;
    var n := stack[top].id;
    assert stack[top] == Frame(n, true);
    forall p | Feeds(edges, p, n) ensures p in order {
      assert p in order || OnStackAbove(stack, top, p);
    }
    var order' := order + [n];
    forall i, p | 0 <= i < |order'| && Feeds(edges, p, order'[i]) ensures p in order'[..i] {
      assert order'[..i] == if i < |order| then order[..i] else order;
    }
  }

  lemma FinaliseKeepsColours(stack: seq<Frame>, state: map<nat, Colour>, order: seq<nat>)
    requires |stack| > 0 && stack[|stack| - 1].done && Coloured(stack, state, order) && Fenced(stack)
    ensures Coloured(stack[..|stack| - 1], state[stack[|stack| - 1].id := Black], order + [stack[|stack| - 1].id])
  {
    var top := |stack| - 1;
    var n := stack[top].id;
    assert stack[top] == Frame(n, true);
    forall x ensures Frame(x, true) in stack[..top] <==> Frame(x, true) in stack && x != n {
      if Frame(x, true) in stack[..top] {
        var i :| 0 <= i < top && stack[i] == Frame(x, true);
      }
      if Frame(x, true) in stack && x != n {
        var i :| 0 <= i < |stack| && stack[i] == Frame(x, true);
        assert stack[..top][i] == Frame(x, true);
      }
    }
  }

  lemma PopKeepsPending(edges: seq<Edge>, stack: seq<Frame>, order: seq<nat>, order': seq<nat>)
    requires |stack| > 0 && Pending(edges, stack, order) && order <= order' && stack[|stack| - 1].id in order'
    ensures Pending(edges, stack[..|stack| - 1], order')
  {
    var rest := stack[..|stack| - 1];
    forall i, p | 0 <= i < |rest| && rest[i].done && Feeds(edges, p, rest[i].id)
      ensures p in order' || OnStackAbove(rest, i, p)
    {
      assert stack[i].done;
      if p !in order {
        var k :| i < k < |stack| && stack[k].id == p;
        if k < |rest| { assert rest[k].id == p; }
      }
    }
  }

  lemma PopKeepsShape(edges: seq<Edge>, stack: seq<Frame>)
    requires |stack| > 0 && Fenced(stack) && Chained(edges, stack)
    ensures Fenced(stack[..|stack| - 1]) && Chained(edges, stack[..|stack| - 1])
  {
  }

  lemma Finalise(edges: seq<Edge>, root: nat, before: seq<nat>, stack: seq<Frame>, state: map<nat, Colour>,
                 order: seq<nat>)
    requires Searching(edges, root, before, stack, state, order) && |stack| > 0 && stack[|stack| - 1].done
    ensures var n := stack[|stack| - 1].id;
      && n in state && state[n] == Grey
      && Searching(edges, root, before, stack[..|stack| - 1], state[n := Black], order + [n])
  {
    var n := stack[|stack| - 1].id;
    assert stack[|stack| - 1] == Frame(n, true);
    FinaliseKeepsOrder(edges, stack, state, order);
    FinaliseKeepsColours(stack, state, order);
    PopKeepsPending(edges, stack, order, order + [n]);
    PopKeepsShape(edges, stack);
  }

  // ---- skipping a node that is ordered already ----

  /** A node that the top frame asks to explore is never grey: the search has no frame of it further down. */
  lemma TopIsNotGrey(stack: seq<Frame>, state: map<nat, Colour>, order: seq<nat>)
    requires |stack| > 0 && !stack[|stack| - 1].done && Coloured(stack, state, order) && Fenced(stack)
    ensures var n := stack[|stack| - 1].id; n in state ==> n in order
  {
    var top := |stack| - 1;
    var n := stack[top].id;
    if n in state && state[n] == Grey {
      var i :| 0 <= i < |stack| && stack[i] == Frame(n, true);
    }
  }

  lemma Skip(edges: seq<Edge>, root: nat, before: seq<nat>, stack: seq<Frame>, state: map<nat, Colour>, order: seq<nat>)
    requires Searching(edges, root, before, stack, state, order)
    requires |stack| > 0 && !stack[|stack| - 1].done && stack[|stack| - 1].id in state
    ensures Searching(edges, root, before, stack[..|stack| - 1], state, order)
  {
    var rest := stack[..|stack| - 1];
    TopIsNotGrey(stack, state, order);
    PopKeepsPending(edges, stack, order, order);
    PopKeepsShape(edges, stack);
    forall x ensures Frame(x, true) in rest <==> Frame(x, true) in stack {
      if Frame(x, true) in stack {
        var i :| 0 <= i < |stack| && stack[i] == Frame(x, true);
        assert rest[i] == Frame(x, true);
      }
    }
  }

  // ---- exploring a new node ----

  /** The frames pushed for the parents that have not been met. */
  function Whites(ps: seq<nat>, state: map<nat, Colour>): (r: seq<Frame>)
    ensures forall f :: f in r <==> !f.done && f.id in ps && f.id !in state
  {
    if ps == [] then []
    else
      var n := |ps| - 1;
      var rest := Whites(ps[..n], state);
      assert ps == ps[..n] + [ps[n]];
      if ps[n] in state then rest else rest + [Frame(ps[n], false)]
  }

  /** The stack after the top frame has been turned into one that finalises, below the given frames. */
  function Opened(stack: seq<Frame>, above: seq<Frame>): seq<Frame>
    requires |stack| > 0
  {
    stack[..|stack| - 1] + [Frame(stack[|stack| - 1].id, true)] + above
  }

  lemma OpenedAt(stack: seq<Frame>, above: seq<Frame>)
    requires |stack| > 0
    ensures var s', top := Opened(stack, above), |stack| - 1;
      && |s'| == |stack| + |above|
      && (forall k :: 0 <= k < top ==> s'[k] == stack[k])
      && s'[top] == Frame(stack[top].id, true)
      && (forall k :: top < k < |s'| ==> s'[k] == above[k - top - 1] && s'[k] in above)
      && (forall k :: 0 <= k < |above| ==> s'[top + 1 + k] == above[k])
  {
  }

  lemma OpenKeepsShape(edges: seq<Edge>, stack: seq<Frame>, above: seq<Frame>)
    requires |stack| > 0 && Fenced(stack) && Chained(edges, stack)
    requires forall f :: f in above ==> !f.done && Feeds(edges, f.id, stack[|stack| - 1].id)
    requires forall f :: f in above ==>
      forall j :: 0 <= j < |stack| && (stack[j].done || j == |stack| - 1) ==> stack[j].id != f.id
    ensures Fenced(Opened(stack, above)) && Chained(edges, Opened(stack, above))
  {
    var s', top := Opened(stack, above), |stack| - 1;
    OpenedAt(stack, above);
    forall j, i | 0 <= j < i < |s'| && s'[j].done
      ensures s'[j].id != s'[i].id && StrictlyUpstream(edges, s'[j].id, s'[i].id)
    {
      if i > top {
        UpstreamEdge(edges, stack[top].id, s'[i].id);
        if j < top { StrictTrans(edges, stack[j].id, stack[top].id, s'[i].id); }
      }
    }
  }

  lemma OpenKeepsPending(edges: seq<Edge>, stack: seq<Frame>, order: seq<nat>, above: seq<Frame>)
    requires |stack| > 0 && !stack[|stack| - 1].done && Pending(edges, stack, order)
    requires forall f :: f in above ==> !f.done
    requires forall p :: Feeds(edges, p, stack[|stack| - 1].id) ==> p in order || Frame(p, false) in above
    ensures Pending(edges, Opened(stack, above), order)
  {
    var s', top := Opened(stack, above), |stack| - 1;
    OpenedAt(stack, above);
    forall i, p | 0 <= i < |s'| && s'[i].done && Feeds(edges, p, s'[i].id) && p !in order
      ensures OnStackAbove(s', i, p)
    {
      if i < top {
        assert stack[i].done;
        assert OnStackAbove(stack, i, p);
        var k :| i < k < |stack| && stack[k].id == p;
        assert s'[k].id == p;
      } else {
        assert Frame(p, false) in above;
        var k :| 0 <= k < |above| && above[k] == Frame(p, false);
        assert s'[top + 1 + k].id == p;
      }
    }
  }

  lemma OpenKeepsColours(stack: seq<Frame>, state: map<nat, Colour>, order: seq<nat>, above: seq<Frame>)
    requires |stack| > 0 && Coloured(stack, state, order)
    requires !stack[|stack| - 1].done && stack[|stack| - 1].id !in state
    requires forall f :: f in above ==> !f.done
    ensures Coloured(Opened(stack, above), state[stack[|stack| - 1].id := Grey], order)
  {
    var s', top := Opened(stack, above), |stack| - 1;
    var n := stack[top].id;
    OpenedAt(stack, above);
    forall x ensures Frame(x, true) in s' <==> Frame(x, true) in stack || x == n {
      if Frame(x, true) in stack {
        var i :| 0 <= i < |stack| && stack[i] == Frame(x, true);
        assert s'[i] == stack[i];
      }
    }
  }

  lemma OpenKeepsRoot(edges: seq<Edge>, root: nat, stack: seq<Frame>, above: seq<Frame>, found: set<nat>)
    requires |stack| > 0 && Rooted(edges, root, stack, found)
    requires forall f :: f in above ==> Feeds(edges, f.id, stack[|stack| - 1].id)
    ensures Rooted(edges, root, Opened(stack, above), found)
  {
    var s', top := Opened(stack, above), |stack| - 1;
    forall i | 0 <= i < |s'| ensures Upstream(edges, root, s'[i].id) {
      if i > top {
        assert s'[i] == above[i - top - 1];
        UpstreamEdge(edges, stack[top].id, s'[i].id);
        UpstreamTrans(edges, root, stack[top].id, s'[i].id);
      }
    }
  }

  lemma Open(edges: seq<Edge>, root: nat, before: seq<nat>, stack: seq<Frame>, state: map<nat, Colour>, order: seq<nat>)
    requires Searching(edges, root, before, stack, state, order)
    requires |stack| > 0 && !stack[|stack| - 1].done && stack[|stack| - 1].id !in state
    requires forall p :: Feeds(edges, p, stack[|stack| - 1].id) ==>
      p != stack[|stack| - 1].id && (p in state ==> state[p] == Black)
    ensures var n := stack[|stack| - 1].id;
      Searching(edges, root, before, Opened(stack, Whites(Parents(edges, n), state)), state[n := Grey], order)
  {
    var n := stack[|stack| - 1].id;
    var above := Whites(Parents(edges, n), state);
    ParentsFeed(edges, n);
    forall f | f in above
      ensures forall j :: 0 <= j < |stack| && (stack[j].done || j == |stack| - 1) ==> stack[j].id != f.id
    {
      forall j | 0 <= j < |stack| && stack[j].done ensures stack[j].id != f.id {
        assert stack[j] == Frame(stack[j].id, true);
      }
    }
    OpenKeepsShape(edges, stack, above);
    OpenKeepsPending(edges, stack, order, above);
    OpenKeepsColours(stack, state, order, above);
    OpenKeepsRoot(edges, root, stack, above, (set x | x in order) - (set x | x in before));
  }

  /** A grey parent closes a cycle, and the cycle is upstream of the root. */
  lemma GreyParentIsCycle(edges: seq<Edge>, root: nat, before: seq<nat>, stack: seq<Frame>,
                          state: map<nat, Colour>, order: seq<nat>, p: nat)
    requires Searching(edges, root, before, stack, state, order)
    requires |stack| > 0 && Feeds(edges, p, stack[|stack| - 1].id)
    requires p == stack[|stack| - 1].id || (p in state && state[p] == Grey)
    ensures CycleAbove(edges, root)
  {
    var top := |stack| - 1;
    var n := stack[top].id;
    UpstreamEdge(edges, n, p);
    if p != n {
      var i :| 0 <= i < |stack| && stack[i] == Frame(p, true);
      StrictTrans(edges, n, p, n);
    }
    assert Upstream(edges, root, n) && StrictlyUpstream(edges, n, n);
  }

  // ---- the search itself ----

  /** Pushes the parents not met yet; stops at a grey one, which closes a cycle. */
  method PushParents(ps: seq<nat>, n: nat, state: map<nat, Colour>, stack: seq<Frame>)
    returns (grey: Option<nat>, grown: seq<Frame>)
    requires |stack| > 0 && stack[|stack| - 1].id == n && n in state && state[n] == Grey
    ensures grey.Some? ==> grey.value in ps && grey.value in state && state[grey.value] == Grey
    ensures grey.None? ==> grown == Opened(stack, Whites(ps, state))
    ensures grey.None? ==> forall p :: p in ps && p in state ==> state[p] == Black
  {
    grown := stack[..|stack| - 1] + [Frame(n, true)];
    for i := 0 to |ps|
      invariant grown == Opened(stack, Whites(ps[..i], state))
      invariant forall k :: 0 <= k < i && ps[k] in state ==> state[ps[k]] == Black
    {
      assert ps[..i + 1][..i] == ps[..i];
      if ps[i] in state && state[ps[i]] == Grey { return Some(ps[i]), grown; }
      if ps[i] !in state { grown := grown + [Frame(ps[i], false)]; }
    }
    assert ps[..|ps|] == ps;
    grey := None;
  }

  /** Parents that are not met before `n` turns grey are the same as those not met after. */
  lemma {:induction false} WhitesWithout(ps: seq<nat>, n: nat, state: map<nat, Colour>)
    requires n !in ps
    ensures Whites(ps, state[n := Grey]) == Whites(ps, state)
  {
    if ps != [] {
      var k := |ps| - 1;
      assert ps == ps[..k] + [ps[k]];
      WhitesWithout(ps[..k], n, state);
    }
  }

  lemma Finished(edges: seq<Edge>, root: nat, before: seq<nat>, state: map<nat, Colour>, order: seq<nat>)
    requires Searching(edges, root, before, [], state, order)
    ensures !CycleAbove(edges, root)
    ensures forall x :: x in order <==> x in before || Upstream(edges, root, x)
    ensures root !in before ==> order != [] && order[|order| - 1] == root
  {
    NoCycleAboveListed(edges, order, root);
    forall x | Upstream(edges, root, x) ensures x in order {
      UpstreamIsListed(edges, order, root, x);
    }
  }

  lemma Started(edges: seq<Edge>, root: nat, state: map<nat, Colour>, before: seq<nat>)
    requires Coloured([], state, before) && ParentsFirst(edges, before)
    ensures Searching(edges, root, before, [Frame(root, false)], state, before)
  {
    UpstreamSelf(edges, root);
  }

  ghost predicate Within(edges: seq<Edge>, stack: seq<Frame>, universe: set<nat>) {
    (forall i :: 0 <= i < |stack| ==> stack[i].id in universe) && (forall p, n :: Feeds(edges, p, n) ==> p in universe)
  }

  lemma StartsWithin(edges: seq<Edge>, root: nat, keys: set<nat>) returns (universe: set<nat>)
    ensures Within(edges, [Frame(root, false)], universe) && keys <= universe
  {
    universe := {root} + (set e | e in edges :: e.source) + keys;
  }

  lemma OpenNext(edges: seq<Edge>, root: nat, before: seq<nat>, stack: seq<Frame>, state: map<nat, Colour>,
                 order: seq<nat>, universe: set<nat>)
    requires Searching(edges, root, before, stack, state, order)
    requires |stack| > 0 && !stack[|stack| - 1].done && stack[|stack| - 1].id !in state
    requires var n := stack[|stack| - 1].id;
      forall p :: p in Parents(edges, n) && p in state[n := Grey] ==> state[n := Grey][p] == Black
    ensures var n := stack[|stack| - 1].id;
      var grown := Opened(stack, Whites(Parents(edges, n), state[n := Grey]));
      && Searching(edges, root, before, grown, state[n := Grey], order)
      && (Within(edges, stack, universe) ==> Within(edges, grown, universe))
  {
    var n := stack[|stack| - 1].id;
    ParentsFeed(edges, n);
    WhitesWithout(Parents(edges, n), n, state);
    Open(edges, root, before, stack, state, order);
    OpenedWithin(edges, stack, Whites(Parents(edges, n), state), universe);
  }

  lemma OpenedWithin(edges: seq<Edge>, stack: seq<Frame>, above: seq<Frame>, universe: set<nat>)
    requires |stack| > 0 && forall f :: f in above ==> Feeds(edges, f.id, stack[|stack| - 1].id)
    ensures Within(edges, stack, universe) ==> Within(edges, Opened(stack, above), universe)
  {
    OpenedAt(stack, above);
  }

  /** One turn on a node not met yet: either a cycle upstream of the root, or the search goes on. */
  method Explore(edges: seq<Edge>, ghost root: nat, ghost before: seq<nat>, stack: seq<Frame>, state: map<nat, Colour>,
                 ghost order: seq<nat>, ghost universe: set<nat>) returns (cycle: bool, grown: seq<Frame>)
    requires Searching(edges, root, before, stack, state, order)
    requires |stack| > 0 && !stack[|stack| - 1].done && stack[|stack| - 1].id !in state
    ensures cycle ==> CycleAbove(edges, root)
    ensures !cycle ==> Searching(edges, root, before, grown, state[stack[|stack| - 1].id := Grey], order)
    ensures !cycle && Within(edges, stack, universe) ==> Within(edges, grown, universe)
  {
    var n := stack[|stack| - 1].id;
    var grey;
    grey, grown := PushParents(Parents(edges, n), n, state[n := Grey], stack);
    if grey.Some? {
      ParentsFeed(edges, n);
      GreyParentIsCycle(edges, root, before, stack, state, order, grey.value);
      return true, grown;
    }
    OpenNext(edges, root, before, stack, state, order, universe);
    return false, grown;
  }

  /** Adds every node upstream of `root` to `order`, or reports a cycle. */
  method Visit(root: nat, edges: seq<Edge>, state0: map<nat, Colour>, before: seq<nat>)
    returns (cycle: bool, state: map<nat, Colour>, order: seq<nat>)
    requires Coloured([], state0, before) && ParentsFirst(edges, before)
    ensures cycle <==> CycleAbove(edges, root)
    ensures !cycle ==> Coloured([], state, order) && ParentsFirst(edges, order) && before <= order
    ensures !cycle ==> forall x :: x in order <==> x in before || Upstream(edges, root, x)
    ensures !cycle && root !in before ==> order != [] && order[|order| - 1] == root
  {
    state, order := state0, before;
    var stack := [Frame(root, false)];
    Started(edges, root, state, before);
    ghost var universe := StartsWithin(edges, root, state0.Keys);
    while stack != []
      invariant Searching(edges, root, before, stack, state, order)
      invariant Within(edges, stack, universe) && state.Keys <= universe
      decreases universe - state.Keys, |stack|
    {
      var top := |stack| - 1;
      var n := stack[top].id;
      if stack[top].done {
        Finalise(edges, root, before, stack, state, order);
        state, order, stack := state[n := Black], order + [n], stack[..top];
      } else if n in state {
        Skip(edges, root, before, stack, state, order);
        stack := stack[..top];
      } else {
        cycle, stack := Explore(edges, root, before, stack, state, order, universe);
        if cycle { return; }
        state := state[n := Grey];
      }
    }
    cycle := false;
    Finished(edges, root, before, state, order);
  }

  // ---- upstream_chain, topo_order, is_acyclic ----

  /** An order of nodes, a cycle, or an id that an edge names and no node has. */
  datatype Traversal<C> = Ordered(nodes: seq<Node<C>>) | Cycle | Unknown(id: nat)

  method Resolve<C>(g: Graph<C>, order: seq<nat>) returns (r: Traversal<C>)
    ensures !r.Cycle?
    ensures r.Unknown? ==> r.id in order && r.id !in Ids(g.nodes)
    ensures r.Ordered? ==> Ids(r.nodes) == order && forall x :: x in r.nodes ==> Lookup(g.nodes, x.id) == Some(x)
  {
    var nodes := [];
    for i := 0 to |order|
      invariant Ids(nodes) == order[..i]
      invariant forall x :: x in nodes ==> Lookup(g.nodes, x.id) == Some(x)
    {
      match Lookup(g.nodes, order[i])
      case None => return Unknown(order[i]);
      case Some(node) =>
        assert Ids(nodes + [node]) == Ids(nodes) + [node.id];
        assert order[..i + 1] == order[..i] + [order[i]];
        nodes := nodes + [node];
    }
    assert order[..|order|] == order;
    return Ordered(nodes);
  }

  /**
   * `upstream_chain`: the target and everything that feeds it, each once, parents first and the target last. A cycle is
   * reported exactly when one is upstream of the target.
   */
  method UpstreamChain<C>(g: Graph<C>, target: nat) returns (r: Traversal<C>)
    ensures target !in Ids(g.nodes) ==> r == Ordered([])
    ensures target in Ids(g.nodes) ==> (r.Cycle? <==> CycleAbove(g.edges, target))
    ensures r.Unknown? ==> Upstream(g.edges, target, r.id) && r.id !in Ids(g.nodes)
    ensures target in Ids(g.nodes) && r.Ordered? ==>
      && ParentsFirst(g.edges, Ids(r.nodes))
      && (forall x :: x in Ids(r.nodes) <==> Upstream(g.edges, target, x))
      && r.nodes != [] && r.nodes[|r.nodes| - 1].id == target
      && (forall x :: x in r.nodes ==> Lookup(g.nodes, x.id) == Some(x))
  {
    if Lookup(g.nodes, target).None? { return Ordered([]); }
    var cycle, state, order := Visit(target, g.edges, map[], []);
    if cycle { return Cycle; }
    r := Resolve(g, order);
  }

  /** The order after searching from each of the nodes: all that feeds them, parents first, and no cycle met. */
  ghost predicate Collected<C>(edges: seq<Edge>, nodes: seq<Node<C>>, state: map<nat, Colour>, order: seq<nat>) {
    && Coloured([], state, order)
    && ParentsFirst(edges, order)
    && !CycleAboveOneOf(edges, nodes)
    && (forall x :: x in order <==> FeedsOneOf(edges, nodes, x))
  }

  lemma CollectOne<C>(edges: seq<Edge>, nodes: seq<Node<C>>, i: nat, state: map<nat, Colour>, order: seq<nat>,
                      state': map<nat, Colour>, order': seq<nat>)
    requires i < |nodes| && Collected(edges, nodes[..i], state, order) && !CycleAbove(edges, nodes[i].id)
    requires Coloured([], state', order') && ParentsFirst(edges, order')
    requires forall x :: x in order' <==> x in order || Upstream(edges, nodes[i].id, x)
    ensures Collected(edges, nodes[..i + 1], state', order')
  {
    var a, b := nodes[..i], nodes[..i + 1];
    forall k | 0 <= k < |b| ensures !CycleAbove(edges, b[k].id) {
      if k < i { assert b[k] == a[k]; }
    }
    forall x ensures x in order' <==> FeedsOneOf(edges, nodes[..i + 1], x) {
      FeedsOneOfSnoc(edges, nodes, i, x);
    }
  }

  /** `topo_order`: one search per node, over shared colours. */
  method TopoOrder<C>(g: Graph<C>) returns (r: Traversal<C>)
    ensures r.Cycle? <==> CycleAboveOneOf(g.edges, g.nodes)
    ensures r.Unknown? ==> r.id !in Ids(g.nodes) && FeedsOneOf(g.edges, g.nodes, r.id)
    ensures r.Ordered? ==>
      && ParentsFirst(g.edges, Ids(r.nodes))
      && (forall x :: x in Ids(r.nodes) <==> FeedsOneOf(g.edges, g.nodes, x))
      && (forall x :: x in r.nodes ==> Lookup(g.nodes, x.id) == Some(x))
  {
    var order: seq<nat>, state: map<nat, Colour> := [], map[];
    for i := 0 to |g.nodes|
      invariant Collected(g.edges, g.nodes[..i], state, order)
    {
      var cycle, state', order' := Visit(g.nodes[i].id, g.edges, state, order);
      if cycle { return Cycle; }
      CollectOne(g.edges, g.nodes, i, state, order, state', order');
      state, order := state', order';
    }
    assert g.nodes[..|g.nodes|] == g.nodes;
    r := Resolve(g, order);
  }

  /** With distinct ids and no dangling edge, the order is a permutation of the graph's nodes. */
  lemma TopoIsPermutation<C>(g: Graph<C>, nodes: seq<Node<C>>)
    requires Distinct(Ids(g.nodes)) && SourcesKnown(g)
    requires ParentsFirst(g.edges, Ids(nodes)) && (forall x :: x in nodes ==> x in g.nodes)
    requires forall x :: x in Ids(nodes) <==> FeedsOneOf(g.edges, g.nodes, x)
    ensures multiset(nodes) == multiset(g.nodes)
  {
    forall i | i in Ids(g.nodes) ensures i in Ids(nodes) {
      var k :| 0 <= k < |g.nodes| && Ids(g.nodes)[k] == i;
      UpstreamSelf(g.edges, i);
      assert Upstream(g.edges, g.nodes[k].id, i);
    }
    SameIdsPermute(nodes, g.nodes);
  }

  datatype Verdict = Acyclic | Cyclic | Dangling

  /** `is_acyclic`: only the cycle is caught; an unknown id still escapes. */
  method IsAcyclic<C>(g: Graph<C>) returns (v: Verdict)
    ensures v == Cyclic <==> CycleAboveOneOf(g.edges, g.nodes)
    ensures v == Dangling ==> !SourcesKnown(g)
    ensures SourcesKnown(g) && (forall e :: e in g.edges ==> e.target in Ids(g.nodes)) ==>
      (v == Acyclic <==> forall m :: !StrictlyUpstream(g.edges, m, m))
  {
    var r := TopoOrder(g);
    v := if r.Cycle? then Cyclic else if r.Unknown? then Dangling else Acyclic;
    if r.Unknown? && SourcesKnown(g) {
      var i :| 0 <= i < |g.nodes| && Upstream(g.edges, g.nodes[i].id, r.id);
      var k :| Steps(g.edges, g.nodes[i].id, r.id, k);
      assert Ids(g.nodes)[i] == g.nodes[i].id;
      UpstreamIsKnown(g, g.nodes[i].id, r.id, k);
    }
    if forall e :: e in g.edges ==> e.target in Ids(g.nodes) { CyclesAreAbove(g); }
  }

  /** When edges end in nodes, a cycle anywhere is a cycle above some node. */
  lemma CyclesAreAbove<C>(g: Graph<C>)
    requires forall e :: e in g.edges ==> e.target in Ids(g.nodes)
    ensures CycleAboveOneOf(g.edges, g.nodes) <==> exists m :: StrictlyUpstream(g.edges, m, m)
  {
    if m :| StrictlyUpstream(g.edges, m, m) {
      var k :| k >= 1 && Steps(g.edges, m, m, k);
      var p :| Feeds(g.edges, p, m) && Steps(g.edges, p, m, k - 1);
      var i :| 0 <= i < |g.nodes| && Ids(g.nodes)[i] == m;
      UpstreamSelf(g.edges, m);
      assert CycleAbove(g.edges, g.nodes[i].id);
    }
  }
}
