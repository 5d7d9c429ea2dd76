/**
 * Grain: the columns on which a node's output rows are claimed to be distinct,
 * computed from the graph alone, against what the engine produces.
 */
module Grain {
  import opened Options
  import opened Graphs
  import opened Operators
  import Dfs

  datatype Info = Info(columns: Option<seq<Column>>, known: bool, verified: bool)

  const UNKNOWN := Info(None, false, false)

  // ---- sources ----

  datatype Confidence = Declared | Verified | Inferred | Other
  datatype TableKey = TableKey(columns: seq<Column>, confidence: Confidence)

  /** The catalog's keys for a dataset; no entry when the dataset is not registered. */
  type Catalog = map<nat, seq<TableKey>>

  function Rank(c: Confidence): nat {
    match c case Declared => 0 case Verified => 1 case Inferred => 2 case Other => 3
  }

  /** The first key of the lowest rank. */
  function Best(keys: seq<TableKey>): (k: TableKey)
    requires keys != []
    ensures k in keys && forall x :: x in keys ==> Rank(k.confidence) <= Rank(x.confidence)
  {
    if |keys| == 1 then keys[0]
    else
      var b := Best(keys[..|keys| - 1]);
      var last := keys[|keys| - 1];
      assert keys == keys[..|keys| - 1] + [last];
      if Rank(last.confidence) < Rank(b.confidence) then last else b
  }

  function SourceGrain(uri: Option<nat>, catalog: Catalog): Info {
    match uri
    case None => UNKNOWN
    case Some(u) =>
      if u !in catalog || catalog[u] == [] then UNKNOWN
      else
        var b := Best(catalog[u]);
        Info(Some(b.columns), true, b.confidence in {Declared, Verified})
  }

  // ---- one node ----

  /** `_survives_select`: the claim is about the `select` text alone. */
  predicate SurvivesSelect(items: seq<Item>, columns: seq<Column>) {
    items == [] || items == [Star] || forall c :: c in columns ==> Bare(c) in items
  }

  function Group(k: Kind): seq<Column>
    requires k.Aggregate?
  {
    if k.groupBy != [] then k.groupBy else k.snakeGroupBy
  }

  /** `_grain_for`, given the grain of the node's first parent. */
  function GrainFor(k: Kind, parent: Info, catalog: Catalog): Info {
    match k
    case Source(uri) => SourceGrain(uri, catalog)
    case Filter => parent
    case Sort => parent
    case Sample(_) => parent
    case VectorSearch => parent
    case Write => parent
    case Select(select, _) =>
      if parent.known && parent.columns.Some? && SurvivesSelect(select, parent.columns.value) then parent else UNKNOWN
    case Transform(mode, _, _) => if mode == FilterRows then parent else UNKNOWN
    case Dedup(on) => if on != [] then Info(Some(on), true, true) else parent
    case Aggregate(_, _, _) => Info(Some(Group(k)), true, true)
    case _ => UNKNOWN
  }

  /** What a known and verified grain says of a relation. */
  ghost predicate Holds(info: Info, r: Relation) {
    info.known && info.verified && info.columns.Some? ==> Key(r, info.columns.value)
  }

  /** At this node, whatever grain is true of the input, the grain computed is true of the output. */
  ghost predicate StepIsSound(op: Op)
    requires !op.kind.Source?
  {
    forall parent, catalog, ins, limit, out ::
      Produces(op, ins, limit, out) && ins != [] && WellFormed(ins[0]) && Holds(parent, ins[0]) ==>
        Holds(GrainFor(op.kind, parent, catalog), out.main)
  }

  // ---- select: which columns come through untouched ----

  /** The first item to provide a column of this name copies it from the input. */
  predicate Keeps(items: seq<Item>, c: Column) {
    items != [] &&
    match items[0]
    case Star => true
    case Bare(d) => d == c || Keeps(items[1..], c)
    case Derived(a) => a != c && Keeps(items[1..], c)
  }

  lemma AtLongerRow(columns: seq<Column>, row: Row, more: seq<Column>, extra: Row, c: Column)
    requires |row| == |columns|
    ensures At(columns + more, row + extra, c) == if c in columns then At(columns, row, c) else At(more, extra, c)
    ensures c in columns ==> At(columns, row, c).Some?
  {
    if columns == [] {
      assert columns + more == more && row + extra == extra;
    } else {
      AtLongerRow(columns[1..], row[1..], more, extra, c);
      assert (columns + more)[1..] == columns[1..] + more && (row + extra)[1..] == row[1..] + extra;
    }
  }

  lemma {:induction false} KeptCellsAreCopied(items: seq<Item>, columns: seq<Column>, row: Row, out: Row, c: Column)
    requires Projects(items, columns, row, out) && Keeps(items, c) && |row| == |columns| && c in columns
    ensures At(ColumnsOf(items, columns), out, c) == At(columns, row, c)
  {
    match items[0]
    case Star =>
      assert out == row + out[|row|..];
      AtLongerRow(columns, row, ColumnsOf(items[1..], columns), out[|row|..], c);
    case Bare(d) => if d != c { KeptCellsAreCopied(items[1..], columns, row, out[1..], c); }
    case Derived(_) => KeptCellsAreCopied(items[1..], columns, row, out[1..], c);
  }

  lemma ProjectionKeepsKey(items: seq<Item>, r: Relation, out: Relation, key: seq<Column>)
    requires Projected(items, r, out) && WellFormed(r) && Key(r, key)
    requires forall c :: c in key ==> Keeps(items, c)
    ensures Key(out, key)
  {
    forall i, j | 0 <= i < j < |out.rows| ensures Differ(out.columns, out.rows[i], out.rows[j], key) {
      assert Differ(r.columns, r.rows[i], r.rows[j], key);
      var c :| c in key && At(r.columns, r.rows[i], c) != At(r.columns, r.rows[j], c);
      KeptCellsAreCopied(items, r.columns, r.rows[i], out.rows[i], c);
      KeptCellsAreCopied(items, r.columns, r.rows[j], out.rows[j], c);
    }
  }

  /** The columns that `_survives_select` would let through. */
  predicate Claims(k: Kind, c: Column)
    requires k.Select?
  {
    k.select == [] || k.select == [Star] || Bare(c) in k.select
  }

  /**
   * The node's configuration means the same here as in the engine. It fails for a bypassed re-keying node, for a
   * select whose claimed column is lost or shadowed (the claim ignores the `expr` spelling), for a group list that only
   * the engine sees, and for a library transform that does more than drop rows.
   */
  ghost predicate Faithful(op: Op) {
    match op.kind
    case Select(_, _) =>
      op.bypassed || EffectiveSelect(op.kind) == []
        || forall c :: Claims(op.kind, c) ==> Keeps(EffectiveSelect(op.kind), c)
    case Transform(mode, _, _) => op.bypassed || mode != FilterRows || EffectiveMode(op.kind) == None
      || EffectiveMode(op.kind) == Some(FilterRows)
    case Dedup(on) => on == [] || !op.bypassed
    case Aggregate(_, _, _) => !op.bypassed && forall c :: c in EffectiveGroup(op.kind) ==> c in Group(op.kind)
    case _ => true
  }

  lemma ScoringKeepsKey(r: Relation, out: Relation, key: seq<Column>)
    requires Scored(r, out) && WellFormed(r) && Key(r, key)
    ensures Key(out, key)
  {
    var drawn: Relation, score: Column :|
      && DrawnFrom(r, drawn)
      && out.columns == r.columns + [score]
      && |out.rows| == |drawn.rows|
      && forall i :: 0 <= i < |out.rows| ==>
        |out.rows[i]| == |r.columns| + 1 && out.rows[i][..|r.columns|] == drawn.rows[i];
    DrawingKeepsKey(r, drawn, key);
    var n := |r.columns|;
    forall i, j | 0 <= i < j < |out.rows| ensures Differ(out.columns, out.rows[i], out.rows[j], key) {
      assert Differ(drawn.columns, drawn.rows[i], drawn.rows[j], key);
      var c :| c in key && At(drawn.columns, drawn.rows[i], c) != At(drawn.columns, drawn.rows[j], c);
      assert out.rows[i] == drawn.rows[i] + out.rows[i][n..] && out.rows[j] == drawn.rows[j] + out.rows[j][n..];
      AtLongerRow(r.columns, drawn.rows[i], [score], out.rows[i][n..], c);
      AtLongerRow(r.columns, drawn.rows[j], [score], out.rows[j][n..], c);
    }
  }

  lemma WiderKey(r: Relation, narrow: seq<Column>, wide: seq<Column>)
    requires Key(r, narrow) && forall c :: c in narrow ==> c in wide
    ensures Key(r, wide)
  {
    forall i, j | 0 <= i < j < |r.rows| ensures Differ(r.columns, r.rows[i], r.rows[j], wide) {
      assert Differ(r.columns, r.rows[i], r.rows[j], narrow);
      var c :| c in narrow && At(r.columns, r.rows[i], c) != At(r.columns, r.rows[j], c);
      assert c in wide;
    }
  }

  lemma FaithfulStep(op: Op, parent: Info, catalog: Catalog, ins: seq<Relation>, limit: nat, out: Output)
    requires !op.kind.Source? && Faithful(op)
    requires Produces(op, ins, limit, out) && ins != [] && WellFormed(ins[0]) && Holds(parent, ins[0])
    ensures Holds(GrainFor(op.kind, parent, catalog), out.main)
  {
    var info := GrainFor(op.kind, parent, catalog);
    if info.known && info.verified && info.columns.Some? && !op.bypassed {
      var key := info.columns.value;
      match op.kind
      case Select(_, _) =>
        if EffectiveSelect(op.kind) != [] { ProjectionKeepsKey(EffectiveSelect(op.kind), ins[0], out.main, key); }
      case VectorSearch => ScoringKeepsKey(ins[0], out.main, key);
      case Aggregate(_, _, _) => WiderKey(out.main, EffectiveGroup(op.kind), key);
      case Dedup(on) => if on == [] { DrawingKeepsKey(ins[0], out.main, key); }
      case Filter => DrawingKeepsKey(ins[0], out.main, key);
      case Sort => DrawingKeepsKey(ins[0], out.main, key);
      case Sample(_) => DrawingKeepsKey(ins[0], out.main, key);
      case Transform(_, _, _) => DrawingKeepsKey(ins[0], out.main, key);
      case _ =>
    }
  }

  // ---- and only then: a run that breaks the claim of every unfaithful node ----

  const TWINS := Relation([], [[], []])

  lemma TwinsHaveNoKey(key: seq<Column>)
    ensures !Key(TWINS, key)
  {
    assert !Differ(TWINS.columns, TWINS.rows[0], TWINS.rows[1], key);
  }

  /** A row that is zero everywhere but in the columns named `c`. */
  function Marked(columns: seq<Column>, c: Column, v: int): (row: Row)
    ensures |row| == |columns|
  {
    seq(|columns|, i requires 0 <= i < |columns| => if columns[i] == c then v else 0)
  }

  /** Two rows that differ in column `c` alone. */
  function Pair(columns: seq<Column>, c: Column): (r: Relation)
    ensures WellFormed(r)
  {
    Relation(columns, [Marked(columns, c, 0), Marked(columns, c, 1)])
  }

  lemma {:induction false} MarkedAt(columns: seq<Column>, c: Column, v: int, d: Column)
    ensures At(columns, Marked(columns, c, v), d) == if d !in columns then None else if d == c then Some(v) else Some(0)
  {
    if columns != [] {
      MarkedAt(columns[1..], c, v, d);
      assert Marked(columns, c, v)[1..] == Marked(columns[1..], c, v);
    }
  }

  lemma PairKey(columns: seq<Column>, c: Column, key: seq<Column>)
    requires c in columns
    ensures Key(Pair(columns, c), key) <==> c in key
  {
    var r := Pair(columns, c);
    forall d ensures At(columns, r.rows[0], d) != At(columns, r.rows[1], d) <==> d == c {
      MarkedAt(columns, c, 0, d);
      MarkedAt(columns, c, 1, d);
    }
    assert Key(r, key) <==> Differ(columns, r.rows[0], r.rows[1], key);
  }

  /** The projection that computes zero wherever the items compute anything. */
  function Projection(items: seq<Item>, columns: seq<Column>, row: Row): Row {
    if items == [] then []
    else
      (match items[0]
       case Star => row
       case Bare(c) => [match At(columns, row, c) case None => 0 case Some(v) => v]
       case Derived(_) => [0])
      + Projection(items[1..], columns, row)
  }

  lemma {:induction false} ProjectionProjects(items: seq<Item>, columns: seq<Column>, row: Row)
    requires |row| == |columns| && forall c :: Bare(c) in items ==> At(columns, row, c).Some?
    ensures Projects(items, columns, row, Projection(items, columns, row))
  {
    if items != [] {
      ProjectionProjects(items[1..], columns, row);
      var out := Projection(items, columns, row);
      match items[0]
      case Star => assert out[|row|..] == Projection(items[1..], columns, row);
      case _ => assert out[1..] == Projection(items[1..], columns, row);
    }
  }

  /** A column that is not kept cannot tell two input rows apart. */
  lemma {:induction false} LostCellsAgree(items: seq<Item>, columns: seq<Column>, a: Row, b: Row, c: Column)
    requires !Keeps(items, c) && |a| == |columns| == |b|
    ensures At(ColumnsOf(items, columns), Projection(items, columns, a), c) ==
            At(ColumnsOf(items, columns), Projection(items, columns, b), c)
  {
    if items != [] && items[0] != Derived(c) {
      LostCellsAgree(items[1..], columns, a, b, c);
    }
  }

  function BareColumns(items: seq<Item>): (r: seq<Column>)
    ensures forall c :: c in r <==> Bare(c) in items
  {
    if items == [] then []
    else (if items[0].Bare? then [items[0].column] else []) + BareColumns(items[1..])
  }

  /** Both rows of a pair, projected: every bare item finds its column there. */
  lemma ProjectedPair(items: seq<Item>, columns: seq<Column>, c: Column) returns (out: Relation)
    requires columns == [c] + BareColumns(items)
    ensures var r := Pair(columns, c);
      && out.columns == ColumnsOf(items, columns) && Projected(items, r, out)
      && out.rows == [Projection(items, columns, r.rows[0]), Projection(items, columns, r.rows[1])]
  {
    var r := Pair(columns, c);
    forall i | 0 <= i < 2 ensures Projects(items, columns, r.rows[i], Projection(items, columns, r.rows[i])) {
      forall d | Bare(d) in items ensures At(columns, r.rows[i], d).Some? { MarkedAt(columns, c, i, d); }
      ProjectionProjects(items, columns, r.rows[i]);
    }
    out := Relation(ColumnsOf(items, columns),
      [Projection(items, columns, r.rows[0]), Projection(items, columns, r.rows[1])]);
  }

  lemma UnfaithfulSelect(op: Op, c: Column, limit: nat, catalog: Catalog)
    requires op.kind.Select? && !op.bypassed && EffectiveSelect(op.kind) != []
    requires Claims(op.kind, c) && !Keeps(EffectiveSelect(op.kind), c)
    ensures !StepIsSound(op)
  {
    var items := EffectiveSelect(op.kind);
    var columns := [c] + BareColumns(items);
    var r := Pair(columns, c);
    PairKey(columns, c, [c]);
    var out := ProjectedPair(items, columns, c);
    LostCellsAgree(items, columns, r.rows[0], r.rows[1], c);
    assert !Differ(out.columns, out.rows[0], out.rows[1], [c]);
    assert Produces(op, [r], limit, Output(out, []));
    assert !Holds(GrainFor(op.kind, Info(Some([c]), true, true), catalog), out);
  }

  lemma UnfaithfulTransform(op: Op, limit: nat, catalog: Catalog)
    requires op.kind.Transform? && !Faithful(op)
    ensures !StepIsSound(op)
  {
    var r := Pair([0], 0);
    PairKey([0], 0, [0]);
    var out := Relation([0], [[0], [0]]);
    assert !Differ(out.columns, out.rows[0], out.rows[1], [0]);
    assert EffectiveMode(op.kind).Some? && EffectiveMode(op.kind).value != FilterRows;
    assert Produces(op, [r], limit, Output(out, []));
    assert !Holds(GrainFor(op.kind, Info(Some([0]), true, true), catalog), out);
  }

  lemma UnfaithfulGroup(op: Op, c: Column, limit: nat, catalog: Catalog)
    requires op.kind.Aggregate? && !op.bypassed && c in EffectiveGroup(op.kind) && c !in Group(op.kind)
    ensures !StepIsSound(op)
  {
    var group := EffectiveGroup(op.kind);
    var r := Pair(group, c);
    PairKey(group, c, group);
    PairKey(group, c, Group(op.kind));
    assert Groups(group, r, r);
    assert Produces(op, [r], limit, Output(r, []));
    assert Holds(UNKNOWN, r) && !Holds(GrainFor(op.kind, UNKNOWN, catalog), r);
  }

  lemma UnfaithfulBypass(op: Op, limit: nat, catalog: Catalog)
    requires op.bypassed && (op.kind.Aggregate? || (op.kind.Dedup? && op.kind.on != []))
    ensures !StepIsSound(op)
  {
    assert Produces(op, [TWINS], limit, Output(TWINS, []));
    TwinsHaveNoKey(GrainFor(op.kind, UNKNOWN, catalog).columns.value);
    assert Holds(UNKNOWN, TWINS) && !Holds(GrainFor(op.kind, UNKNOWN, catalog), TWINS);
  }

  /** A node's grain is sound over all inputs exactly when its configuration is read as the engine reads it. */
  lemma StepIsSoundExactly(op: Op)
    requires !op.kind.Source?
    ensures StepIsSound(op) <==> Faithful(op)
  {
    if Faithful(op) {
      forall parent, catalog, ins, limit, out |
        Produces(op, ins, limit, out) && ins != [] && WellFormed(ins[0]) && Holds(parent, ins[0])
        ensures Holds(GrainFor(op.kind, parent, catalog), out.main)
      {
        FaithfulStep(op, parent, catalog, ins, limit, out);
      }
    } else {
      match op.kind
      case Select(_, _) =>
        var c :| Claims(op.kind, c) && !Keeps(EffectiveSelect(op.kind), c);
        UnfaithfulSelect(op, c, 0, map[]);
      case Transform(_, _, _) => UnfaithfulTransform(op, 0, map[]);
      case Dedup(_) => UnfaithfulBypass(op, 0, map[]);
      case Aggregate(_, _, _) =>
        if op.bypassed {
          UnfaithfulBypass(op, 0, map[]);
        } else {
          var c :| c in EffectiveGroup(op.kind) && c !in Group(op.kind);
          UnfaithfulGroup(op, c, 0, map[]);
        }
    }
  }

  // ---- whole graphs ----

  /** The grain of the node that an operator's first edge comes from. */
  function ParentGrain(g: OpGraph, n: nat, grains: map<nat, Info>): Info {
    var ps := Parents(g.edges, n);
    if ps != [] && ps[0] in grains then grains[ps[0]] else UNKNOWN
  }

  ghost predicate Entered(g: OpGraph, n: Node<Op>, catalog: Catalog, grains: map<nat, Info>) {
    n.id in grains && grains[n.id] == GrainFor(n.body.kind, ParentGrain(g, n.id, grains), catalog)
  }

  /** Each node of the chain has the grain its kind makes of its first parent's. */
  ghost predicate Propagated(g: OpGraph, chain: seq<Node<Op>>, catalog: Catalog, grains: map<nat, Info>) {
    && (forall x :: x in grains <==> x in Ids(chain))
    && forall n :: n in chain ==> Entered(g, n, catalog, grains)
  }

  /** The catalog's declared and verified keys are keys of what the sources deliver. */
  ghost predicate KeysAreTrue(g: OpGraph, catalog: Catalog, outs: map<nat, Output>) {
    forall n :: n in g.nodes && n.id in outs ==>
      match n.body.kind
      case Source(Some(uri)) =>
        uri in catalog ==> forall k :: k in catalog[uri] && k.confidence in {Declared, Verified} ==>
          Key(outs[n.id].main, k.columns)
      case _ => true
  }

  /** The kinds whose grain is made of their first parent's. */
  predicate HandsGrainOn(k: Kind) {
    k.Filter? || k.Sort? || k.Sample? || k.VectorSearch? || k.Write? || k.Select? || k.Transform?
      || (k.Dedup? && k.on == [])
  }

  /** `x` is `k` first edges above `n`, through nodes that hand their grain on. */
  ghost predicate HandsDown(g: OpGraph, x: nat, n: nat, k: nat)
    decreases k
  {
    if k == 0 then x == n
    else
      && Lookup(g.nodes, n).Some? && HandsGrainOn(Lookup(g.nodes, n).value.body.kind)
      && Incoming(g.edges, n) != [] && HandsDown(g, x, Incoming(g.edges, n)[0].source, k - 1)
  }

  /** Every node that has a part in a node's grain is read here as the engine reads it. */
  ghost predicate ReadFaithfully(g: OpGraph, n: nat) {
    forall x, k :: HandsDown(g, x, n, k) && Lookup(g.nodes, x).Some? ==>
      Lookup(g.nodes, x).value.body.kind.Source? || Faithful(Lookup(g.nodes, x).value.body)
  }

  lemma HandedDown(g: OpGraph, n: Node<Op>, m: nat)
    requires ReadFaithfully(g, n.id) && Lookup(g.nodes, n.id) == Some(n) && HandsGrainOn(n.body.kind)
    requires Incoming(g.edges, n.id) != [] && Incoming(g.edges, n.id)[0].source == m
    ensures ReadFaithfully(g, m)
  {
    forall x: nat, k: nat | HandsDown(g, x, m, k) && Lookup(g.nodes, x).Some?
      ensures Lookup(g.nodes, x).value.body.kind.Source? || Faithful(Lookup(g.nodes, x).value.body)
    {
      assert HandsDown(g, x, n.id, k + 1);
    }
  }

  /** The nodes that feed a target, parents first. */
  ghost predicate Chain(g: OpGraph, chain: seq<Node<Op>>) {
    && ParentsFirst(g.edges, Ids(chain))
    && forall n :: n in chain ==> Lookup(g.nodes, n.id) == Some(n)
  }

  lemma SourceIsSound(g: OpGraph, catalog: Catalog, outs: map<nat, Output>, n: Node<Op>)
    requires KeysAreTrue(g, catalog, outs) && n in g.nodes && n.id in outs && n.body.kind.Source?
    ensures Holds(SourceGrain(n.body.kind.uri, catalog), outs[n.id].main)
  {
  }

  /** The first edge of a chain's node comes from an earlier node of the chain. */
  lemma FirstParentIndex(g: OpGraph, chain: seq<Node<Op>>, i: nat) returns (j: nat)
    requires ParentsFirst(g.edges, Ids(chain)) && i < |chain| && Incoming(g.edges, chain[i].id) != []
    ensures j < i && chain[j].id == Incoming(g.edges, chain[i].id)[0].source
  {
    var es := Incoming(g.edges, chain[i].id);
    assert es[0] in es;
    assert Feeds(g.edges, es[0].source, Ids(chain)[i]);
    assert es[0].source in Ids(chain)[..i];
    j :| 0 <= j < i && Ids(chain)[j] == es[0].source;
  }

  /** What a node other than a join reads first: the output of its first edge's source. */
  lemma ReadsFirst(g: OpGraph, outs: map<nat, Output>, n: Node<Op>, m: Node<Op>, ins: seq<Relation>)
    requires ReadsInputs(g, outs, n, ins) && ins != [] && !n.body.kind.Join?
    requires Incoming(g.edges, n.id) != [] && m.id == Incoming(g.edges, n.id)[0].source
      && Lookup(g.nodes, m.id) == Some(m)
    ensures m.id in outs && (ins[0] == outs[m.id].main || Ports(m.body.kind) > 1)
  {
  }

  lemma GrainStep(g: OpGraph, chain: seq<Node<Op>>, catalog: Catalog, grains: map<nat, Info>, limit: nat,
                  outs: map<nat, Output>, n: Node<Op>, m: Node<Op>, ins: seq<Relation>)
    requires Propagated(g, chain, catalog, grains) && n in chain && m in chain && n.id in outs && m.id in outs
    requires Incoming(g.edges, n.id) != [] && m.id == Incoming(g.edges, n.id)[0].source
    requires Produces(n.body, ins, limit, outs[n.id]) && ins != [] && WellFormed(ins[0])
    requires !n.body.kind.Source? && Faithful(n.body)
    requires ins[0] == outs[m.id].main || Ports(m.body.kind) > 1
    requires m.id in grains && Holds(grains[m.id], outs[m.id].main)
    ensures n.id in grains && Holds(grains[n.id], outs[n.id].main)
  {
    FirstInputHolds(g, chain, catalog, grains, outs, m, ins[0]);
    assert ParentGrain(g, n.id, grains) == grains[m.id];
    FaithfulStep(n.body, grains[m.id], catalog, ins, limit, outs[n.id]);
  }

  /** A kind that does not hand its parent's grain on claims the same whatever that grain is. */
  lemma OwnGrain(op: Op, parent: Info, catalog: Catalog, ins: seq<Relation>, limit: nat, out: Output)
    requires !RunsRegardless(op.kind) && !HandsGrainOn(op.kind) && Faithful(op)
    requires Produces(op, ins, limit, out) && WellFormed(ins[0])
    ensures Holds(GrainFor(op.kind, parent, catalog), out.main)
  {
    FaithfulStep(op, UNKNOWN, catalog, ins, limit, out);
    assert GrainFor(op.kind, parent, catalog) == GrainFor(op.kind, UNKNOWN, catalog);
  }

  lemma FirstIsWellFormed(g: OpGraph, limit: nat, outs: map<nat, Output>, n: Node<Op>, ins: seq<Relation>)
    requires IsRun(g, limit, outs) && ReadsInputs(g, outs, n, ins) && ins != []
    ensures WellFormed(ins[0])
  {
    var e := InputEdges(g, n)[0];
    AlongIsWellFormed(e, Lookup(g.nodes, e.source).value.body, outs[e.source]);
  }

  /**
   * A known and verified grain is true of what its node delivers, in every run in which the catalog's keys are true,
   * when the nodes that have a part in it are read as the engine reads them.
   */
  lemma {:induction false} GrainIsSound(g: OpGraph, chain: seq<Node<Op>>, catalog: Catalog, grains: map<nat, Info>,
                                        limit: nat, outs: map<nat, Output>, i: nat)
    requires IsRun(g, limit, outs) && KeysAreTrue(g, catalog, outs)
    requires Chain(g, chain) && Propagated(g, chain, catalog, grains)
    requires i < |chain| && chain[i].id in outs && ReadFaithfully(g, chain[i].id)
    ensures chain[i].id in grains && Holds(grains[chain[i].id], outs[chain[i].id].main)
    decreases i, 1
  {
    var n := chain[i];
    assert n in chain && Entered(g, n, catalog, grains);
    if n.body.kind.Source? {
      SourceIsSound(g, catalog, outs, n);
    } else if !RunsRegardless(n.body.kind) {
      var ins := InputsOf(g, limit, outs, n);
      FirstIsWellFormed(g, limit, outs, n, ins);
      assert HandsDown(g, n.id, n.id, 0);
      if HandsGrainOn(n.body.kind) {
        HandedGrainIsSound(g, chain, catalog, grains, limit, outs, i, ins);
      } else {
        OwnGrain(n.body, ParentGrain(g, n.id, grains), catalog, ins, limit, outs[n.id]);
      }
    }
  }

  lemma {:induction false} HandedGrainIsSound(g: OpGraph, chain: seq<Node<Op>>, catalog: Catalog, grains: map<nat,
                                              Info>,
                                              limit: nat, outs: map<nat, Output>, i: nat, ins: seq<Relation>)
    requires IsRun(g, limit, outs) && KeysAreTrue(g, catalog, outs)
    requires Chain(g, chain) && Propagated(g, chain, catalog, grains)
    requires i < |chain| && chain[i].id in outs && ReadFaithfully(g, chain[i].id)
    requires HandsGrainOn(chain[i].body.kind) && Faithful(chain[i].body)
    requires Reads(g, outs, InputEdges(g, chain[i]), ins) && ins != [] && WellFormed(ins[0])
    requires Produces(chain[i].body, ins, limit, outs[chain[i].id])
    ensures chain[i].id in grains && Holds(grains[chain[i].id], outs[chain[i].id].main)
    decreases i, 0
  {
    var n := chain[i];
    var j := FirstParentIndex(g, chain, i);
    assert n in chain && chain[j] in chain;
    HandedDown(g, n, chain[j].id);
    ReadsFirst(g, outs, n, chain[j], ins);
    GrainIsSound(g, chain, catalog, grains, limit, outs, j);
    GrainStep(g, chain, catalog, grains, limit, outs, n, chain[j], ins);
  }

  /** Where there are several output ports there is no claim: the grain is unknown. */
  lemma FirstInputHolds(g: OpGraph, chain: seq<Node<Op>>, catalog: Catalog, grains: map<nat, Info>,
                        outs: map<nat, Output>, m: Node<Op>, r: Relation)
    requires Propagated(g, chain, catalog, grains) && m in chain && m.id in outs
    requires r == outs[m.id].main || Ports(m.body.kind) > 1
    requires m.id in grains && Holds(grains[m.id], outs[m.id].main)
    ensures Holds(grains[m.id], r)
  {
    assert grains[m.id] == GrainFor(m.body.kind, ParentGrain(g, m.id, grains), catalog);
  }

  datatype Result = Found(info: Info) | Failed

  /** A known and verified grain is true of the target's output in this run. */
  ghost predicate SoundFor(info: Info, g: OpGraph, catalog: Catalog, target: nat, limit: nat, outs: map<nat, Output>) {
    IsRun(g, limit, outs) && KeysAreTrue(g, catalog, outs) && target in outs ==> Holds(info, outs[target].main)
  }

  /** A later entry does not disturb the grain of an earlier node's first parent. */
  lemma EarlierParents(g: OpGraph, nodes: seq<Node<Op>>, k: nat, i: nat, grains: map<nat, Info>, info: Info)
    requires ParentsFirst(g.edges, Ids(nodes)) && k <= i < |nodes|
    ensures ParentGrain(g, nodes[k].id, grains[nodes[i].id := info]) == ParentGrain(g, nodes[k].id, grains)
  {
    var ps := Parents(g.edges, nodes[k].id);
    if ps != [] {
      ParentsFeed(g.edges, nodes[k].id);
      assert ps[0] in Ids(nodes)[..k];
      assert Ids(nodes)[i] == nodes[i].id;
    }
  }

  /** The entries of the first `i` nodes, as their kinds make them of their first parents'. */
  ghost predicate Filled(g: OpGraph, nodes: seq<Node<Op>>, i: nat, catalog: Catalog, grains: map<nat, Info>)
    requires i <= |nodes|
  {
    && (forall x :: x in grains <==> x in Ids(nodes)[..i])
    && forall k :: 0 <= k < i ==> Entered(g, nodes[k], catalog, grains)
  }

  lemma EnteredStays(g: OpGraph, nodes: seq<Node<Op>>, k: nat, i: nat, catalog: Catalog, grains: map<nat, Info>,
                     info: Info)
    requires ParentsFirst(g.edges, Ids(nodes)) && k < i < |nodes| && Entered(g, nodes[k], catalog, grains)
    ensures Entered(g, nodes[k], catalog, grains[nodes[i].id := info])
  {
    EarlierParents(g, nodes, k, i, grains, info);
    assert Ids(nodes)[k] == nodes[k].id && Ids(nodes)[i] == nodes[i].id;
  }

  lemma FillKeys(ids: seq<nat>, i: nat, grains: map<nat, Info>, grains': map<nat, Info>)
    requires i < |ids| && (forall x :: x in grains <==> x in ids[..i]) && grains'.Keys == grains.Keys + {ids[i]}
    ensures forall x :: x in grains' <==> x in ids[..i + 1]
  {
    assert ids[..i + 1] == ids[..i] + [ids[i]];
  }

  lemma EnteredLast(g: OpGraph, nodes: seq<Node<Op>>, i: nat, catalog: Catalog, grains: map<nat, Info>, info: Info)
    requires ParentsFirst(g.edges, Ids(nodes)) && i < |nodes|
    requires info == GrainFor(nodes[i].body.kind, ParentGrain(g, nodes[i].id, grains), catalog)
    ensures Entered(g, nodes[i], catalog, grains[nodes[i].id := info])
  {
    EarlierParents(g, nodes, i, i, grains, info);
  }

  lemma AllEntered(g: OpGraph, nodes: seq<Node<Op>>, i: nat, catalog: Catalog, grains: map<nat, Info>, info: Info)
    requires ParentsFirst(g.edges, Ids(nodes)) && i < |nodes|
    requires forall k :: 0 <= k < i ==> Entered(g, nodes[k], catalog, grains)
    requires info == GrainFor(nodes[i].body.kind, ParentGrain(g, nodes[i].id, grains), catalog)
    ensures forall k :: 0 <= k < i + 1 ==> Entered(g, nodes[k], catalog, grains[nodes[i].id := info])
  {
    forall k | 0 <= k < i + 1 ensures Entered(g, nodes[k], catalog, grains[nodes[i].id := info]) {
      if k < i {
        EnteredStays(g, nodes, k, i, catalog, grains, info);
      } else {
        EnteredLast(g, nodes, i, catalog, grains, info);
      }
    }
  }

  lemma FillOne(g: OpGraph, nodes: seq<Node<Op>>, i: nat, catalog: Catalog, grains: map<nat, Info>, info: Info)
    requires ParentsFirst(g.edges, Ids(nodes)) && i < |nodes| && Filled(g, nodes, i, catalog, grains)
    requires info == GrainFor(nodes[i].body.kind, ParentGrain(g, nodes[i].id, grains), catalog)
    ensures Filled(g, nodes, i + 1, catalog, grains[nodes[i].id := info])
  {
    FillKeys(Ids(nodes), i, grains, grains[nodes[i].id := info]);
    AllEntered(g, nodes, i, catalog, grains, info);
  }

  method FillGrains(g: OpGraph, nodes: seq<Node<Op>>, catalog: Catalog) returns (grains: map<nat, Info>)
    requires ParentsFirst(g.edges, Ids(nodes))
    ensures Propagated(g, nodes, catalog, grains)
  {
    grains := map[];
    for i := 0 to |nodes|
      invariant Filled(g, nodes, i, catalog, grains)
    {
      var n := nodes[i];
      var ps := Parents(g.edges, n.id);
      var parent := if ps != [] && ps[0] in grains then grains[ps[0]] else UNKNOWN;
      var info := GrainFor(n.body.kind, parent, catalog);
      FillOne(g, nodes, i, catalog, grains, info);
      grains := grains[n.id := info];
    }
    assert Ids(nodes)[..|nodes|] == Ids(nodes);
  }

  /**
   * `grain_of`: one dictionary, filled parents first. The answer is sound on every run in which the catalog's declared
   * and verified keys are true, provided every node that has a part in it is read here as the engine reads it.
   */
  method GrainOf(g: OpGraph, target: nat, catalog: Catalog)
    returns (r: Result, ghost chain: seq<Node<Op>>, ghost grains: map<nat, Info>)
    ensures r.Failed? ==> target in Ids(g.nodes) && (CycleAbove(g.edges, target) || !SourcesKnown(g))
    ensures target !in Ids(g.nodes) ==> r == Found(UNKNOWN)
    ensures r.Found? && target in Ids(g.nodes) ==>
      && Propagated(g, chain, catalog, grains) && (forall x :: x in Ids(chain) <==> Upstream(g.edges, target, x))
      && target in grains && r.info == grains[target]
    ensures r.Found? && ReadFaithfully(g, target) ==>
      forall limit: nat, outs: map<nat, Output> :: SoundFor(r.info, g, catalog, target, limit, outs)
  {
    chain, grains := [], map[];
    var traversal := Dfs.UpstreamChain(g, target);
    if !traversal.Ordered? {
      if traversal.Unknown? { DanglingUpstream(g, target, traversal.id); }
      return Failed, chain, grains;
    }
    var computed := FillGrains(g, traversal.nodes, catalog);
    r := Found(if target in computed then computed[target] else UNKNOWN);
    chain, grains := traversal.nodes, computed;
    if target in Ids(g.nodes) {
      AnswerIsSound(g, target, catalog, chain, grains);
    } else {
      UnknownIsSound(g, catalog, target);
    }
  }

  lemma UnknownIsSound(g: OpGraph, catalog: Catalog, target: nat)
    ensures forall limit: nat, outs: map<nat, Output> :: SoundFor(UNKNOWN, g, catalog, target, limit, outs)
  {
  }

  lemma AnswerIsSound(g: OpGraph, target: nat, catalog: Catalog, chain: seq<Node<Op>>, grains: map<nat, Info>)
    requires ParentsFirst(g.edges, Ids(chain)) && Propagated(g, chain, catalog, grains)
    requires forall x :: x in Ids(chain) <==> Upstream(g.edges, target, x)
    requires forall n :: n in chain ==> Lookup(g.nodes, n.id) == Some(n)
    ensures target in grains
    ensures ReadFaithfully(g, target) ==>
      forall limit: nat, outs: map<nat, Output> :: SoundFor(grains[target], g, catalog, target, limit, outs)
  {
    UpstreamSelf(g.edges, target);
    var i :| 0 <= i < |chain| && Ids(chain)[i] == target;
    assert chain[i] in chain;
    if ReadFaithfully(g, target) {
      forall limit: nat, outs: map<nat, Output> ensures SoundFor(grains[target], g, catalog, target, limit, outs) {
        if IsRun(g, limit, outs) && KeysAreTrue(g, catalog, outs) && target in outs {
          GrainIsSound(g, chain, catalog, grains, limit, outs, i);
        }
      }
    }
  }
}
