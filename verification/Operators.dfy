/**
 * What the execution engine's operators produce, as relations between their
 * inputs and their output. User code, predicates, aggregates and orderings are
 * left open: an operator may produce anything its kind allows.
 */
module Operators {
  import opened Options
  import opened Graphs

  type Column = nat
  type Row = seq<int>
  datatype Relation = Relation(columns: seq<Column>, rows: seq<Row>)

  // ---- cells and keys ----

  /** The cell a column name selects in a row: the first column of that name. */
  function At(columns: seq<Column>, row: Row, c: Column): (v: Option<int>)
    ensures v.Some? ==> c in columns
  {
    if columns == [] || row == [] then None
    else if columns[0] == c then Some(row[0])
    else At(columns[1..], row[1..], c)
  }

  ghost predicate WellFormed(r: Relation) {
    forall i :: 0 <= i < |r.rows| ==> |r.rows[i]| == |r.columns|
  }

  ghost predicate Differ(columns: seq<Column>, a: Row, b: Row, key: seq<Column>) {
    exists c :: c in key && At(columns, a, c) != At(columns, b, c)
  }

  /** Rows are pairwise distinct on the columns; on no columns at all, there is at most one row. */
  ghost predicate Key(r: Relation, key: seq<Column>) {
    forall i, j :: 0 <= i < j < |r.rows| ==> Differ(r.columns, r.rows[i], r.rows[j], key)
  }

  // ---- rows drawn from an input ----

  /** Every row of `out` is a row of `r`, each from a position of its own. */
  ghost predicate Draws(r: Relation, out: Relation, idx: seq<nat>) {
    && out.columns == r.columns
    && |idx| == |out.rows|
    && Distinct(idx)
    && forall k :: 0 <= k < |idx| ==> idx[k] < |r.rows| && out.rows[k] == r.rows[idx[k]]
  }

  ghost predicate DrawnFrom(r: Relation, out: Relation) {
    exists idx :: Draws(r, out, idx)
  }

  lemma DifferIsSymmetric(columns: seq<Column>, a: Row, b: Row, key: seq<Column>)
    requires Differ(columns, a, b, key)
    ensures Differ(columns, b, a, key)
  {
    var c :| c in key && At(columns, a, c) != At(columns, b, c);
    assert At(columns, b, c) != At(columns, a, c);
  }

  lemma DrawingKeepsKey(r: Relation, out: Relation, key: seq<Column>)
    requires DrawnFrom(r, out) && Key(r, key)
    ensures Key(out, key)
  {
    var idx :| Draws(r, out, idx);
    forall i, j | 0 <= i < j < |out.rows| ensures Differ(out.columns, out.rows[i], out.rows[j], key) {
      assert idx[i] != idx[j];
      if idx[i] > idx[j] { DifferIsSymmetric(r.columns, r.rows[idx[j]], r.rows[idx[i]], key); }
    }
  }

  /** Distinct numbers below n are at most n. */
  lemma {:induction false} Pigeonhole(idx: seq<nat>, n: nat)
    requires Distinct(idx) && forall k :: 0 <= k < |idx| ==> idx[k] < n
    ensures |idx| <= n
  {
    if idx != [] {
      assert idx[0] < n;
      if k :| 0 <= k < |idx| && idx[k] == n - 1 {
        Pigeonhole(idx[..k] + idx[k + 1..], n - 1);
      } else {
        Pigeonhole(idx, n - 1);
      }
    }
  }

  lemma DrawingNeverGrows(r: Relation, out: Relation)
    requires DrawnFrom(r, out)
    ensures |out.rows| <= |r.rows|
  {
    var idx :| Draws(r, out, idx);
    Pigeonhole(idx, |r.rows|);
  }

  // ---- projections ----

  /** One item of a select list: every column, a column by its bare name, or anything computed under an alias. */
  datatype Item = Star | Bare(column: Column) | Derived(name: Column)

  function ColumnsOf(items: seq<Item>, columns: seq<Column>): seq<Column> {
    if items == [] then []
    else
      (match items[0]
       case Star => columns
       case Bare(c) => [c]
       case Derived(a) => [a])
      + ColumnsOf(items[1..], columns)
  }

  /** Computed cells are left open; the others are copied. */
  ghost predicate Projects(items: seq<Item>, columns: seq<Column>, row: Row, out: Row) {
    if items == [] then out == []
    else
      match items[0]
      case Star => row <= out && Projects(items[1..], columns, row, out[|row|..])
      case Bare(c) => out != [] && At(columns, row, c) == Some(out[0]) && Projects(items[1..], columns, row, out[1..])
      case Derived(_) => out != [] && Projects(items[1..], columns, row, out[1..])
  }

  ghost predicate Projected(items: seq<Item>, r: Relation, out: Relation) {
    && out.columns == ColumnsOf(items, r.columns)
    && |out.rows| == |r.rows|
    && forall i :: 0 <= i < |r.rows| ==> Projects(items, r.columns, r.rows[i], out.rows[i])
  }

  // ---- operators ----

  datatype Mode = Map | FilterRows | FlatMap | MapBatches
  datatype OnError = Raise | SkipRow | OtherPolicy
  /** A transform's code: its own, or an exact library version, which may be unavailable. */
  datatype Code = Inline | Library(mode: Option<Mode>)
  datatype UnionMode = All | DistinctRows | OtherUnion
  datatype ChartShape = RawPoints | Grouped | UngroupedCount

  type PortCount = n: nat | 1 <= n <= MAX_OUTPUTS witness 1

  /** An extension is a section or a plugin's kind, with as many output ports as it declares. */
  datatype Kind =
    | Source(uri: Option<nat>)
    | Filter
    | Dedup(on: seq<Column>)
    | Assert
    | Select(select: seq<Item>, expr: seq<Item>)
    | Sort
    | Write
    | Window
    | Fill
    | Chart(shape: ChartShape)
    | Sample(n: Option<int>)
    | Union(unionMode: UnionMode)
    | Transform(mode: Mode, onError: OnError, code: Code)
    | Metric
    | VectorSearch
    | Aggregate(groupBy: seq<Column>, group: seq<Column>, snakeGroupBy: seq<Column>)
    | Join
    | Opaque
    | Extension(outputs: PortCount)

  datatype Op = Op(kind: Kind, bypassed: bool)

  /** What a node delivers: the relation on its first output port, and those on the others, port by port. */
  datatype Output = Output(main: Relation, others: seq<Relation>)

  function Ports(k: Kind): PortCount {
    match k
    case Assert => 2
    case Extension(outputs) => outputs
    case _ => 1
  }

  function SumRows(ins: seq<Relation>): nat {
    if ins == [] then 0 else SumRows(ins[..|ins| - 1]) + |ins[|ins| - 1].rows|
  }

  function Min(a: int, b: int): int {
    if a < b then a else b
  }

  /** The rows a sample asks for: a negative number asks for none, and no number for the engine's own limit. */
  function Requested(n: Option<int>, limit: nat): nat {
    match n
    case None => limit
    case Some(k) => if k < 0 then 0 else k
  }

  function EffectiveSelect(k: Kind): seq<Item>
    requires k.Select?
  {
    if k.select != [] then k.select else k.expr
  }

  function EffectiveGroup(k: Kind): seq<Column>
    requires k.Aggregate?
  {
    if k.groupBy != [] then k.groupBy else k.group
  }

  function EffectiveMode(k: Kind): Option<Mode>
    requires k.Transform?
  {
    match k.code
    case Inline => Some(k.mode)
    case Library(m) => m
  }

  ghost predicate Transforms(mode: Mode, onError: OnError, r: Relation, out: Relation) {
    match mode
    case Map =>
      if onError == Raise then |out.rows| == |r.rows| else if onError == SkipRow then |out.rows| <= |r.rows| else true
    case FilterRows => DrawnFrom(r, out)
    case _ => true
  }

  /** One row per value of the group columns that occurs in the input; one row in all when there are none. */
  ghost predicate Groups(group: seq<Column>, r: Relation, out: Relation) {
    && Key(out, group)
    && (group == [] ==> |out.rows| == 1)
    && group <= out.columns
    && (forall i :: 0 <= i < |out.rows| && group != [] ==> GroupOccurs(out, i, r, group))
    && (forall j :: 0 <= j < |r.rows| && group != [] ==> GroupOccurs(r, j, out, group))
  }

  /** The key of row `i` of one relation is the key of some row of another. */
  ghost predicate GroupOccurs(a: Relation, i: nat, b: Relation, key: seq<Column>)
    requires i < |a.rows|
  {
    exists j :: 0 <= j < |b.rows| && forall c :: c in key ==> At(a.columns, a.rows[i], c) == At(b.columns, b.rows[j], c)
  }

  /** The engine's output for an operator that is not bypassed, its first input being `r`. */
  ghost predicate Runs(k: Kind, r: Relation, ins: seq<Relation>, limit: nat, out: Output) {
    match k
    case Source(_) => true
    case Filter => DrawnFrom(r, out.main)
    case Dedup(on) => DrawnFrom(r, out.main) && (on != [] ==> Key(out.main, on))
    case Assert => DrawnFrom(r, out.main) && out.others == [r]
    case Select(_, _) =>
      if EffectiveSelect(k) == [] then out.main == r else Projected(EffectiveSelect(k), r, out.main)
    case Sort => DrawnFrom(r, out.main) && |out.main.rows| == |r.rows|
    case Write => out.main == r
    case Window => |out.main.rows| == |r.rows|
    case Fill => |out.main.rows| == |r.rows|
    case Chart(shape) =>
      (match shape
       case RawPoints => |out.main.rows| == |r.rows|
       case Grouped => |out.main.rows| <= |r.rows|
       case UngroupedCount => |out.main.rows| == 1)
    case Sample(n) => DrawnFrom(r, out.main) && |out.main.rows| == Min(Requested(n, limit), |r.rows|)
    case Union(mode) =>
      if |ins| == 1 then out.main == r
      else if mode == DistinctRows then |out.main.rows| <= SumRows(ins)
      else |out.main.rows| == SumRows(ins)
    case Transform(_, onError, _) =>
      EffectiveMode(k).Some? && Transforms(EffectiveMode(k).value, onError, r, out.main)
    case Metric => |out.main.rows| == 1
    case VectorSearch => Scored(r, out.main)
    case Aggregate(_, _, _) => Groups(EffectiveGroup(k), r, out.main)
    case Join => true
    case Opaque => true
    case Extension(_) => true
  }

  /** Rows drawn from the input, each with its similarity in a last column. */
  ghost predicate Scored(r: Relation, out: Relation) {
    exists drawn: Relation, score: Column ::
      && DrawnFrom(r, drawn)
      && out.columns == r.columns + [score]
      && |out.rows| == |drawn.rows|
      && forall i :: 0 <= i < |out.rows| ==>
        |out.rows[i]| == |r.columns| + 1 && out.rows[i][..|r.columns|] == drawn.rows[i]
  }

  /** Sources, and sections and plugin kinds, run before the engine looks at a bypass or asks for an input. */
  predicate RunsRegardless(k: Kind) {
    k.Source? || k.Extension?
  }

  /** A bypassed node hands on one relation, which is refused where the node declares several output ports. */
  predicate Buildable(op: Op) {
    op.bypassed && !RunsRegardless(op.kind) ==> Ports(op.kind) == 1
  }

  /**
   * A node delivers as many relations as it declares output ports. A bypassed node hands on its first input; a node of
   * most kinds cannot run without one.
   */
  ghost predicate Produces(op: Op, ins: seq<Relation>, limit: nat, out: Output) {
    && Buildable(op) && |out.others| + 1 == Ports(op.kind)
    && (!RunsRegardless(op.kind) ==>
          ins != [] && if op.bypassed then out.main == ins[0] else Runs(op.kind, ins[0], ins, limit, out))
  }

  // ---- runs of a graph ----

  /** Output ports are numbered; an assertion's violations are on port 0, and every row it read on port 1. */
  const MAIN: nat := 0
  const PASS: nat := 1

  type OpGraph = Graph<Op>

  /** An edge has to name one of its source's output ports, unless the source has only one. */
  predicate Names(edge: Edge, source: Op) {
    && Buildable(source)
    && match edge.sourceHandle
       case None => Ports(source.kind) == 1
       case Some(p) => p < Ports(source.kind)
  }

  /** What flows along an edge, if anything can. */
  function Along(edge: Edge, source: Op, out: Output): Option<Relation> {
    if !Names(edge, source) then None
    else if edge.sourceHandle.None? || edge.sourceHandle.value == MAIN then Some(out.main)
    else if edge.sourceHandle.value <= |out.others| then Some(out.others[edge.sourceHandle.value - 1])
    else None
  }

  /** The edges whose relations the engine reads, in its order: a join reads port a, then port b, and a source none. */
  function InputEdges(g: OpGraph, n: Node<Op>): seq<Edge> {
    var es := Incoming(g.edges, n.id);
    if n.body.kind.Source? then []
    else if n.body.kind.Join? then OnPort(es, PORT_A) + OnPort(es, PORT_B)
    else es
  }

  /** The relations an operator read, edge by edge, from what the sources delivered. */
  ghost predicate Reads(g: OpGraph, outs: map<nat, Output>, es: seq<Edge>, ins: seq<Relation>) {
    && |ins| == |es|
    && forall i :: 0 <= i < |es| ==>
      && es[i].source in outs
      && Lookup(g.nodes, es[i].source).Some?
      && Along(es[i], Lookup(g.nodes, es[i].source).value.body, outs[es[i].source]) == Some(ins[i])
  }

  /** What a node read; a join reads nothing unless each of its ports has one edge, and no edge another port. */
  ghost predicate ReadsInputs(g: OpGraph, outs: map<nat, Output>, n: Node<Op>, ins: seq<Relation>) {
    (n.body.kind.Join? ==> JoinWired(g.edges, n.id)) && Reads(g, outs, InputEdges(g, n), ins)
  }

  /** Every delivered output is one its operator may produce from what its inputs delivered. */
  ghost predicate IsRun(g: OpGraph, limit: nat, outs: map<nat, Output>) {
    && (forall n :: n in outs ==> WellFormed(outs[n].main) && forall r :: r in outs[n].others ==> WellFormed(r))
    && (forall n :: n in g.nodes && n.id in outs ==> RanFrom(g, limit, outs, n))
  }

  lemma AlongIsWellFormed(e: Edge, source: Op, out: Output)
    requires WellFormed(out.main) && forall r :: r in out.others ==> WellFormed(r)
    ensures Along(e, source, out).Some? ==> WellFormed(Along(e, source, out).value)
  {
  }

  ghost predicate RanFrom(g: OpGraph, limit: nat, outs: map<nat, Output>, n: Node<Op>)
    requires n.id in outs
  {
    exists ins :: ReadsInputs(g, outs, n, ins) && Produces(n.body, ins, limit, outs[n.id])
  }

  lemma InputsOf(g: OpGraph, limit: nat, outs: map<nat, Output>, n: Node<Op>) returns (ins: seq<Relation>)
    requires IsRun(g, limit, outs) && n in g.nodes && n.id in outs
    ensures ReadsInputs(g, outs, n, ins) && Produces(n.body, ins, limit, outs[n.id])
  {
    assert RanFrom(g, limit, outs, n);
    ins :| ReadsInputs(g, outs, n, ins) && Produces(n.body, ins, limit, outs[n.id]);
  }
}
