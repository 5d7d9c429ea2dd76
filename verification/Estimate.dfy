/**
 * Output sizes estimated from the graph and whatever counts are known, against
 * the number of rows that the engine's operators produce.
 */
module Estimate {
  import opened Options
  import opened Graphs
  import opened Operators
  import Dfs

  datatype Confidence = Exact | Bounded | Unknown
  datatype Size = Size(rows: Option<int>, bytes: Option<int>, confidence: Confidence)

  /** Bytes per row, when the column types settle it. */
  type Width = Option<nat>

  /** Counts and column widths known before anything runs. */
  datatype Evidence = Evidence(actuals: map<nat, nat>, counted: map<nat, nat>, widths: map<nat, Width>)

  datatype Entry = Entry(size: Size, width: Width)

  const DEFAULT_ROW_BYTES: nat := 64

  function Sized(rows: Option<int>, confidence: Confidence, width: Width): Size {
    Size(rows, if rows.Some? && width.Some? then Some(rows.value * width.value) else None, confidence)
  }

  function NotKnown(width: Width): Size {
    Sized(None, Unknown, width)
  }

  // ---- the size of one node, given those of its inputs ----

  function AtMost(ins: seq<Size>, width: Width): Size {
    if ins == [] || ins[0].confidence == Unknown then
      Sized(if ins == [] then None else ins[0].rows, Unknown, width)
    else Sized(ins[0].rows, Bounded, width)
  }

  function AsMany(ins: seq<Size>, width: Width): Size {
    if ins == [] then NotKnown(width) else Sized(ins[0].rows, ins[0].confidence, width)
  }

  function TotalRows(ins: seq<Size>): int {
    if ins == [] then 0
    else TotalRows(ins[..|ins| - 1]) + (match ins[|ins| - 1].rows case None => 0 case Some(r) => r)
  }

  function SampleSize(n: Option<int>, ins: seq<Size>, width: Width): Size {
    match n
    case None => if ins == [] then NotKnown(width) else ins[0]
    case Some(k) =>
      var known := ins != [] && ins[0].rows.Some?;
      var rows := if known then Min(k, ins[0].rows.value) else k;
      Sized(Some(rows), if known && ins[0].rows.value <= k then ins[0].confidence else Bounded, width)
  }

  predicate AllKnown(ss: seq<Size>) {
    forall i :: 0 <= i < |ss| ==> ss[i].rows.Some? && ss[i].confidence != Unknown
  }

  function UnionSize(mode: UnionMode, ins: seq<Size>, width: Width): Size {
    if ins == [] || !AllKnown(ins) then NotKnown(width)
    else
      var exact := (|ins| == 1 || mode == All) && forall i :: 0 <= i < |ins| ==> ins[i].confidence == Exact;
      Sized(Some(TotalRows(ins)), if exact then Exact else Bounded, width)
  }

  function TransformSize(mode: Option<Mode>, onError: OnError, ins: seq<Size>, width: Width): Size {
    match mode
    case Some(Map) =>
      if onError == Raise then AsMany(ins, width) else if onError == SkipRow then AtMost(ins, width)
        else NotKnown(width)
    case Some(FilterRows) => AtMost(ins, width)
    case _ => NotKnown(width)
  }

  /** The kinds whose estimate keeps the input's row count, as it is or as a bound. */
  function KindSize(k: Kind, counted: Option<nat>, ins: seq<Size>, width: Width): Size {
    match k
    case Source(_) => (match counted case None => NotKnown(width) case Some(c) => Sized(Some(c), Exact, width))
    case Sample(n) => SampleSize(n, ins, width)
    case Union(mode) => UnionSize(mode, ins, width)
    case Filter => AtMost(ins, width)
    case Dedup(_) => AtMost(ins, width)
    case Assert => AtMost(ins, width)
    case Select(_, _) => AsMany(ins, width)
    case Sort => AsMany(ins, width)
    case Write => AsMany(ins, width)
    case Chart(_) => AsMany(ins, width)
    case Window => AsMany(ins, width)
    case Fill => AsMany(ins, width)
    case Transform(_, onError, _) => TransformSize(EffectiveMode(k), onError, ins, width)
    case Metric => Sized(Some(1), Bounded, width)
    case _ => NotKnown(width)
  }

  function OpSize(op: Op, counted: Option<nat>, ins: seq<Size>, width: Width): Size {
    if op.bypassed then (if ins == [] then NotKnown(width) else ins[0]) else KindSize(op.kind, counted, ins, width)
  }

  /** A measured count is not reused for a transform that does not promise one row out per row in. */
  predicate Reusable(op: Op) {
    op.kind.Transform? ==> !op.bypassed && EffectiveMode(op.kind) == Some(Map) && op.kind.onError == Raise
  }

  // ---- what a right estimate is ----

  /** Unknown says nothing, bounded is an upper bound, and an exact count is the count (when `strict`). */
  ghost predicate Right(s: Size, count: nat, strict: bool) {
    && (s.rows.None? <==> s.confidence == Unknown)
    && (s.rows.Some? ==> count <= s.rows.value)
    && (strict && s.confidence == Exact ==> s.rows == Some(count))
  }

  /** All output ports of a node are covered by its one estimate. */
  ghost predicate RightFor(s: Size, out: Output, strict: bool) {
    Right(s, |out.main.rows|, strict) && forall r :: r in out.others ==> Right(s, |r.rows|, strict)
  }

  ghost predicate AllRight(ss: seq<Size>, ins: seq<Relation>, strict: bool) {
    |ss| == |ins| && forall i :: 0 <= i < |ss| ==> Right(ss[i], |ins[i].rows|, strict)
  }

  ghost predicate StepIsRight(op: Op, limit: nat, strict: bool) {
    forall ss, ins, out, width :: ins != [] && AllRight(ss, ins, strict) && Produces(op, ins, limit, out) ==>
      RightFor(OpSize(op, None, ss, width), out, strict)
  }

  /**
   * Where the estimate and the engine count alike. A sample of a negative number is estimated below zero rows; a sample
   * of no stated number is estimated at its whole input; a chart has a row per group, and one row of nothing at all; a
   * bypassed section or plugin kind runs all the same.
   */
  predicate CountsAlike(op: Op, strict: bool) {
    if op.bypassed then !op.kind.Extension?
    else
    match op.kind
    case Sample(n) => (n.None? ==> !strict) && (n.Some? ==> 0 <= n.value)
    case Chart(shape) => shape == RawPoints || (shape == Grouped && !strict)
    case _ => true
  }

  lemma {:induction false} SumIsRight(ss: seq<Size>, ins: seq<Relation>, strict: bool)
    requires AllRight(ss, ins, strict) && forall i :: 0 <= i < |ss| ==> ss[i].rows.Some?
    ensures SumRows(ins) <= TotalRows(ss)
    ensures strict && (forall i :: 0 <= i < |ss| ==> ss[i].confidence == Exact) ==> SumRows(ins) == TotalRows(ss)
  {
    if ss != [] {
      var n := |ss| - 1;
      SumIsRight(ss[..n], ins[..n], strict);
      assert Right(ss[n], |ins[n].rows|, strict);
    }
  }

  lemma UnionIsRight(mode: UnionMode, ss: seq<Size>, ins: seq<Relation>, count: nat, width: Width, strict: bool)
    requires ins != [] && AllRight(ss, ins, strict)
    requires count <= SumRows(ins) && (|ins| == 1 || mode != DistinctRows ==> count == SumRows(ins))
    ensures Right(UnionSize(mode, ss, width), count, strict)
  {
    if AllKnown(ss) { SumIsRight(ss, ins, strict); }
  }

  lemma OneInput(r: Relation)
    ensures SumRows([r]) == |r.rows|
  {
    assert [r][..0] == [];
  }

  lemma CountedAlike(op: Op, limit: nat, ss: seq<Size>, ins: seq<Relation>, out: Output, width: Width, strict: bool)
    requires CountsAlike(op, strict) && !op.kind.Source?
    requires ins != [] && AllRight(ss, ins, strict) && Produces(op, ins, limit, out)
    ensures RightFor(OpSize(op, None, ss, width), out, strict)
  {
    assert Right(ss[0], |ins[0].rows|, strict);
    if !op.bypassed {
      match op.kind
      case Union(mode) =>
        OneInput(ins[0]);
        UnionIsRight(mode, ss, ins, |out.main.rows|, width, strict);
      case Filter => DrawingNeverGrows(ins[0], out.main);
      case Dedup(_) => DrawingNeverGrows(ins[0], out.main);
      case Assert => DrawingNeverGrows(ins[0], out.main);
      case Transform(_, onError, _) =>
        if EffectiveMode(op.kind) == Some(FilterRows) { DrawingNeverGrows(ins[0], out.main); }
      case _ =>
    }
  }

  // ---- and where they do not ----

  function Rows(n: nat): (r: Relation)
    ensures |r.rows| == n
  {
    Relation([], seq(n, _ => []))
  }

  lemma DrawSome(n: nat, m: nat)
    requires m <= n
    ensures DrawnFrom(Rows(n), Rows(m))
  {
    assert Draws(Rows(n), Rows(m), seq(m, i => i));
  }

  /** `first` rows on the first output port, and `rest` on every other. */
  function Delivers(k: Kind, first: nat, rest: nat): Output {
    Output(Rows(first), seq(Ports(k) - 1, _ => Rows(rest)))
  }

  /** One input of `n` rows, counted exactly, of which the operator makes `m` rows and the estimate something else. */
  lemma Miscount(op: Op, limit: nat, strict: bool) returns (n: nat, m: nat)
    requires !op.kind.Source? && !CountsAlike(op, strict)
    ensures forall ins :: ins != [] && ins[0] == Rows(n) ==> Produces(op, ins, limit, Delivers(op.kind, m, m))
    ensures forall counted, ss, width :: ss != [] && ss[0] == Size(Some(n), None, Exact) ==>
      !RightFor(OpSize(op, counted, ss, width), Delivers(op.kind, m, m), strict)
  {
    match op.kind
    case Sample(None) =>
      n, m := limit + 1, limit;
      DrawSome(n, m);
    case Sample(Some(_)) =>
      n, m := 0, 0;
      DrawSome(n, m);
    case Chart(shape) => n, m := if shape == UngroupedCount then 0 else 2, 1;
    case Extension(_) => n, m := 0, 1;
  }

  /** The estimate of an operator is right on all inputs exactly when the operator is counted alike. */
  lemma StepIsRightExactly(op: Op, limit: nat, strict: bool)
    requires !op.kind.Source?
    ensures StepIsRight(op, limit, strict) <==> CountsAlike(op, strict)
  {
    if CountsAlike(op, strict) {
      forall ss, ins, out, width | ins != [] && AllRight(ss, ins, strict) && Produces(op, ins, limit, out)
        ensures RightFor(OpSize(op, None, ss, width), out, strict)
      {
        CountedAlike(op, limit, ss, ins, out, width, strict);
      }
    } else {
      var n, m := Miscount(op, limit, strict);
      assert AllRight([Size(Some(n), None, Exact)], [Rows(n)], strict);
      assert Produces(op, [Rows(n)], limit, Delivers(op.kind, m, m));
      assert !RightFor(OpSize(op, None, [Size(Some(n), None, Exact)], None), Delivers(op.kind, m, m), strict);
    }
  }

  // ---- widths ----

  predicate PassThrough(k: Kind) {
    k.Filter? || k.Dedup? || k.Assert? || k.Select? || k.Sort? || k.Write? || k.Chart? || k.Window? || k.Fill?
      || k.Sample? || k.Union?
  }

  /** `a` claims no less than `b`: an unknown width claims the most. */
  predicate AtLeast(a: Width, b: Width) {
    a.None? || (b.Some? && b.value <= a.value)
  }

  /** The widest of the inputs; unknown as soon as one is. */
  function Widest(ws: seq<Width>): (w: Width)
    requires ws != []
    ensures forall x :: x in ws ==> AtLeast(w, x)
    ensures w in ws
  {
    if |ws| == 1 then ws[0]
    else
      var w := Widest(ws[..|ws| - 1]);
      var last := ws[|ws| - 1];
      assert ws == ws[..|ws| - 1] + [last];
      if AtLeast(w, last) then w else last
  }

  /** A node's own width, from its columns, widened to its inputs' where the operator hands columns through. */
  function OpWidth(op: Op, own: Width, ws: seq<Width>): Width {
    if ws == [] then own
    else if op.bypassed then Widest(ws)
    else if PassThrough(op.kind) then
      (if Widest(ws).None? then None else if own.None? then own else if own.value < Widest(ws).value then Widest(ws)
        else own)
    else own
  }

  // ---- one node of the graph ----

  type Entries = map<nat, Entry>

  function InputSizes(es: seq<Edge>, entries: Entries): seq<Size> {
    if es == [] then []
    else
      var rest := InputSizes(es[..|es| - 1], entries);
      var p := es[|es| - 1].source;
      if p in entries then rest + [entries[p].size] else rest
  }

  function InputWidths(es: seq<Edge>, entries: Entries): seq<Width> {
    if es == [] then []
    else
      var rest := InputWidths(es[..|es| - 1], entries);
      var p := es[|es| - 1].source;
      if p in entries then rest + [entries[p].width] else rest
  }

  function Get<T>(m: map<nat, T>, k: nat): Option<T> {
    if k in m then Some(m[k]) else None
  }

  function OwnWidth(n: nat, ev: Evidence): Width {
    if n in ev.widths then ev.widths[n] else Some(DEFAULT_ROW_BYTES)
  }

  predicate Measured(n: Node<Op>, ev: Evidence) {
    n.id in ev.actuals && Reusable(n.body)
  }

  function NodeEntry(g: OpGraph, n: Node<Op>, ev: Evidence, entries: Entries): Entry {
    var es := Incoming(g.edges, n.id);
    var width := OpWidth(n.body, OwnWidth(n.id, ev), InputWidths(es, entries));
    if Measured(n, ev) then Entry(Sized(Some(ev.actuals[n.id]), Exact, width), width)
    else Entry(OpSize(n.body, Get(ev.counted, n.id), InputSizes(es, entries), width), width)
  }

  ghost predicate Entered(g: OpGraph, n: Node<Op>, ev: Evidence, entries: Entries) {
    n.id in entries && entries[n.id] == NodeEntry(g, n, ev, entries)
  }

  /** Every node of the order, and no other, has the entry that its inputs' entries make. */
  ghost predicate Estimated(g: OpGraph, order: seq<Node<Op>>, ev: Evidence, entries: Entries) {
    && (forall x :: x in entries <==> x in Ids(order))
    && forall n :: n in order ==> Entered(g, n, ev, entries)
  }

  /** An order that a traversal of the graph gives, whole or cut down to what feeds a target. */
  ghost predicate Ordering(g: OpGraph, order: seq<Node<Op>>) {
    && ParentsFirst(g.edges, Ids(order))
    && forall n :: n in order ==> Lookup(g.nodes, n.id) == Some(n)
  }

  lemma {:induction false} SameInputs(es: seq<Edge>, a: Entries, b: Entries)
    requires forall e :: e in es ==>
      (e.source in a <==> e.source in b) && (e.source in a ==> a[e.source] == b[e.source])
    ensures InputSizes(es, a) == InputSizes(es, b) && InputWidths(es, a) == InputWidths(es, b)
  {
    if es != [] {
      var n := |es| - 1;
      assert es[n] in es;
      forall e | e in es[..n] ensures e in es { }
      SameInputs(es[..n], a, b);
    }
  }

  lemma SameEntry(g: OpGraph, n: Node<Op>, ev: Evidence, a: Entries, b: Entries)
    requires forall p :: Feeds(g.edges, p, n.id) ==> (p in a <==> p in b) && (p in a ==> a[p] == b[p])
    ensures NodeEntry(g, n, ev, a) == NodeEntry(g, n, ev, b)
  {
    var es := Incoming(g.edges, n.id);
    forall e | e in es ensures (e.source in a <==> e.source in b) && (e.source in a ==> a[e.source] == b[e.source]) {
      assert Feeds(g.edges, e.source, n.id);
    }
    SameInputs(es, a, b);
  }

  // ---- the pass ----

  ghost predicate Filled(g: OpGraph, order: seq<Node<Op>>, i: nat, ev: Evidence, entries: Entries)
    requires i <= |order|
  {
    && (forall x :: x in entries <==> x in Ids(order)[..i])
    && forall k :: 0 <= k < i ==> Entered(g, order[k], ev, entries)
  }

  /** A later entry does not disturb an earlier one. */
  lemma EarlierEntry(g: OpGraph, order: seq<Node<Op>>, k: nat, i: nat, ev: Evidence, entries: Entries, entry: Entry)
    requires ParentsFirst(g.edges, Ids(order)) && k <= i < |order|
    ensures NodeEntry(g, order[k], ev, entries[order[i].id := entry]) == NodeEntry(g, order[k], ev, entries)
    ensures k < i ==> order[k].id != order[i].id
  {
    assert Ids(order)[k] == order[k].id && Ids(order)[i] == order[i].id;
    forall p | Feeds(g.edges, p, order[k].id) ensures p != order[i].id {
      assert p in Ids(order)[..k];
    }
    SameEntry(g, order[k], ev, entries[order[i].id := entry], entries);
  }

  lemma FillOne(g: OpGraph, order: seq<Node<Op>>, i: nat, ev: Evidence, entries: Entries, entry: Entry)
    requires ParentsFirst(g.edges, Ids(order)) && i < |order| && Filled(g, order, i, ev, entries)
    requires entry == NodeEntry(g, order[i], ev, entries)
    ensures Filled(g, order, i + 1, ev, entries[order[i].id := entry])
  {
    assert Ids(order)[..i + 1] == Ids(order)[..i] + [order[i].id];
    forall k | 0 <= k <= i ensures Entered(g, order[k], ev, entries[order[i].id := entry]) {
      EarlierEntry(g, order, k, i, ev, entries, entry);
      if k < i { assert Entered(g, order[k], ev, entries); }
    }
  }

  method FillEntries(g: OpGraph, order: seq<Node<Op>>, ev: Evidence) returns (entries: Entries)
    requires ParentsFirst(g.edges, Ids(order))
    ensures Estimated(g, order, ev, entries)
  {
    entries := map[];
    for i := 0 to |order|
      invariant Filled(g, order, i, ev, entries)
    {
      var entry := NodeEntry(g, order[i], ev, entries);
      FillOne(g, order, i, ev, entries, entry);
      entries := entries[order[i].id := entry];
    }
    assert Ids(order)[..|order|] == Ids(order);
  }

  // ---- the answer for a node does not depend on how much of the graph the pass covers ----

  /** What feeds a listed node is listed. */
  ghost predicate Closed(g: OpGraph, order: seq<Node<Op>>) {
    forall n, p :: n in Ids(order) && Feeds(g.edges, p, n) ==> p in Ids(order)
  }

  lemma {:induction false} ConeAgrees(g: OpGraph, whole: seq<Node<Op>>, cone: seq<Node<Op>>, ev: Evidence,
                                      a: Entries, b: Entries, i: nat)
    requires Ordering(g, whole) && Ordering(g, cone) && Closed(g, cone) && Closed(g, whole)
    requires Estimated(g, whole, ev, a) && Estimated(g, cone, ev, b)
    requires i < |cone| && cone[i].id in a
    ensures cone[i].id in b && a[cone[i].id] == b[cone[i].id]
  {
    var n := cone[i];
    assert n in cone && Ids(cone)[i] == n.id;
    var k :| 0 <= k < |whole| && Ids(whole)[k] == n.id;
    assert whole[k] in whole && whole[k] == n;
    forall p | Feeds(g.edges, p, n.id) ensures p in a && p in b && a[p] == b[p] {
      assert p in Ids(cone)[..i];
      var j :| 0 <= j < i && Ids(cone)[j] == p;
      assert p in Ids(whole);
      ConeAgrees(g, whole, cone, ev, a, b, j);
    }
    SameEntry(g, n, ev, a, b);
    assert Entered(g, n, ev, a) && Entered(g, n, ev, b);
  }

  // ---- whole graphs: every estimate is right in every run ----

  /** A measured count is that of some output port: it is kept under the node, whichever port was counted. */
  ghost predicate CountOf(out: Output, rows: nat) {
    rows == |out.main.rows| || exists r :: r in out.others && rows == |r.rows|
  }

  /** Measured and counted rows are rows that the node delivers. */
  ghost predicate EvidenceHolds(n: Node<Op>, ev: Evidence, out: Output) {
    && (Measured(n, ev) ==> CountOf(out, ev.actuals[n.id]))
    && (n.body.kind.Source? && !n.body.bypassed && n.id in ev.counted ==> ev.counted[n.id] == |out.main.rows|)
  }

  ghost predicate EvidenceIsTrue(g: OpGraph, ev: Evidence, outs: map<nat, Output>) {
    forall n :: n in g.nodes && n.id in outs ==> EvidenceHolds(n, ev, outs[n.id])
  }

  /** Every edge the node reads names an output port of its source, and the node can be built on what they carry. */
  ghost predicate CanRun(g: OpGraph, n: Node<Op>) {
    && Buildable(n.body)
    && (n.body.kind.Join? ==> JoinWired(g.edges, n.id))
    && (RunsRegardless(n.body.kind) || InputEdges(g, n) != [])
    && forall e :: e in InputEdges(g, n) ==>
      Lookup(g.nodes, e.source).Some? && Names(e, Lookup(g.nodes, e.source).value.body)
  }

  /**
   * A node that cannot run is never wrong. Any other is counted alike, and so is what it hands on: a bypassed join
   * hands on the relation on port a, and the estimate of the first edge; a bypassed source, section or plugin kind
   * hands on nothing; a measured count is that of one output port, and the estimate of all.
   */
  ghost predicate Alike(g: OpGraph, n: Node<Op>, ev: Evidence, strict: bool) {
    CanRun(g, n) ==>
      if Measured(n, ev) then Ports(n.body.kind) == 1
      else if RunsRegardless(n.body.kind) then n.body.bypassed ==> Incoming(g.edges, n.id) == []
      else CountsAlike(n.body, strict) && (n.body.kind.Join? && n.body.bypassed ==> FirstEdgesAgree(g, n))
  }

  /** The edge that is read first and the edge that is stored first come from one node. */
  ghost predicate FirstEdgesAgree(g: OpGraph, n: Node<Op>) {
    InputEdges(g, n) != [] && Incoming(g.edges, n.id) != []
      && InputEdges(g, n)[0].source == Incoming(g.edges, n.id)[0].source
  }

  lemma {:induction false} InputSizesAt(es: seq<Edge>, entries: Entries)
    requires forall e :: e in es ==> e.source in entries
    ensures |InputSizes(es, entries)| == |es| == |InputWidths(es, entries)|
    ensures forall i :: 0 <= i < |es| ==>
      InputSizes(es, entries)[i] == entries[es[i].source].size
        && InputWidths(es, entries)[i] == entries[es[i].source].width
  {
    if es != [] {
      var n := |es| - 1;
      assert es[n] in es;
      forall e | e in es[..n] ensures e in es { }
      InputSizesAt(es[..n], entries);
    }
  }

  lemma AlongIsRight(s: Size, e: Edge, op: Op, out: Output, strict: bool)
    requires RightFor(s, out, strict) && Along(e, op, out).Some?
    ensures Right(s, |Along(e, op, out).value.rows|, strict)
  {
  }

  /** What the edges into a node carry is what the entries of their sources say. */
  ghost predicate EdgesAreRight(g: OpGraph, es: seq<Edge>, entries: Entries, outs: map<nat, Output>, strict: bool) {
    forall e :: e in es && e.source in outs ==> EdgeIsRight(g, e, entries, outs[e.source], strict)
  }

  ghost predicate EdgeIsRight(g: OpGraph, e: Edge, entries: Entries, out: Output, strict: bool) {
    Lookup(g.nodes, e.source).Some? ==>
      var carried := Along(e, Lookup(g.nodes, e.source).value.body, out);
      e.source in entries && (carried.Some? ==> Right(entries[e.source].size, |carried.value.rows|, strict))
  }

  lemma InputsAllRight(g: OpGraph, n: Node<Op>, entries: Entries, outs: map<nat, Output>, ins: seq<Relation>,
                       strict: bool)
    requires !RunsRegardless(n.body.kind) && !n.body.kind.Join? && ReadsInputs(g, outs, n, ins)
    requires forall e :: e in Incoming(g.edges, n.id) ==> e.source in entries
    requires EdgesAreRight(g, Incoming(g.edges, n.id), entries, outs, strict)
    ensures AllRight(InputSizes(Incoming(g.edges, n.id), entries), ins, strict)
  {
    var es := Incoming(g.edges, n.id);
    InputSizesAt(es, entries);
    assert forall i :: 0 <= i < |es| ==> es[i] in es;
  }

  /** The node ran on inputs whose entries are right, and the evidence about it is true. */
  ghost predicate NodeRuns(g: OpGraph, n: Node<Op>, ev: Evidence, entries: Entries, limit: nat, outs: map<nat, Output>,
                           ins: seq<Relation>, strict: bool)
  {
    && n.id in outs && EvidenceHolds(n, ev, outs[n.id])
    && ReadsInputs(g, outs, n, ins) && Produces(n.body, ins, limit, outs[n.id])
    && (forall e :: e in Incoming(g.edges, n.id) ==> e.source in entries)
    && EdgesAreRight(g, Incoming(g.edges, n.id), entries, outs, strict)
  }

  lemma JoinSize(op: Op, counted: Option<nat>, ss: seq<Size>, width: Width, out: Output, strict: bool)
    requires op.kind.Join? && out.others == []
    requires op.bypassed ==> ss != [] && Right(ss[0], |out.main.rows|, strict)
    ensures RightFor(OpSize(op, counted, ss, width), out, strict)
  {
  }

  lemma {:induction false} OnPortListed(es: seq<Edge>, port: nat)
    ensures forall e :: e in OnPort(es, port) ==> e in es
  {
    if es != [] { OnPortListed(es[..|es| - 1], port); }
  }

  lemma InputEdgesListed(g: OpGraph, n: Node<Op>)
    ensures forall e :: e in InputEdges(g, n) ==> e in Incoming(g.edges, n.id)
  {
    OnPortListed(Incoming(g.edges, n.id), PORT_A);
    OnPortListed(Incoming(g.edges, n.id), PORT_B);
  }

  /** A bypassed join's estimate is that of the node whose relation it reads first. */
  lemma JoinIsRight(g: OpGraph, n: Node<Op>, ev: Evidence, entries: Entries, limit: nat, outs: map<nat, Output>,
                    ins: seq<Relation>, width: Width, strict: bool)
    requires NodeRuns(g, n, ev, entries, limit, outs, ins, strict) && n.body.kind.Join?
    requires n.body.bypassed ==> FirstEdgesAgree(g, n)
    ensures RightFor(OpSize(n.body, Get(ev.counted, n.id), InputSizes(Incoming(g.edges, n.id), entries), width),
      outs[n.id], strict)
  {
    var es := Incoming(g.edges, n.id);
    InputSizesAt(es, entries);
    if n.body.bypassed {
      var e := InputEdges(g, n)[0];
      InputEdgesListed(g, n);
      assert e in es && e.source in outs;
      assert Right(entries[e.source].size, |ins[0].rows|, strict);
      assert InputSizes(es, entries)[0] == entries[es[0].source].size;
    }
    JoinSize(n.body, Get(ev.counted, n.id), InputSizes(es, entries), width, outs[n.id], strict);
  }

  lemma RunsIfItCan(g: OpGraph, n: Node<Op>, limit: nat, outs: map<nat, Output>, ins: seq<Relation>)
    requires n.id in outs && ReadsInputs(g, outs, n, ins) && Produces(n.body, ins, limit, outs[n.id])
    ensures CanRun(g, n)
  {
    var es := InputEdges(g, n);
    forall e | e in es ensures Lookup(g.nodes, e.source).Some? && Names(e, Lookup(g.nodes, e.source).value.body) {
      var i :| 0 <= i < |es| && es[i] == e;
      assert Along(es[i], Lookup(g.nodes, es[i].source).value.body, outs[es[i].source]).Some?;
    }
  }

  lemma NodeIsRight(g: OpGraph, n: Node<Op>, ev: Evidence, entries: Entries, limit: nat, outs: map<nat, Output>,
                    ins: seq<Relation>, strict: bool)
    requires Alike(g, n, ev, strict) && NodeRuns(g, n, ev, entries, limit, outs, ins, strict)
    ensures RightFor(NodeEntry(g, n, ev, entries).size, outs[n.id], strict)
  {
    RunsIfItCan(g, n, limit, outs, ins);
    var width := NodeEntry(g, n, ev, entries).width;
    if Measured(n, ev) {
      assert NodeEntry(g, n, ev, entries).size == Sized(Some(ev.actuals[n.id]), Exact, width);
    } else if !RunsRegardless(n.body.kind) {
      assert |ins| == |InputEdges(g, n)| && ins != [];
      if n.body.kind.Join? {
        JoinIsRight(g, n, ev, entries, limit, outs, ins, width, strict);
      } else {
        InputsAllRight(g, n, entries, outs, ins, strict);
        var ss := InputSizes(Incoming(g.edges, n.id), entries);
        CountedAlike(n.body, limit, ss, ins, outs[n.id], width, strict);
        assert OpSize(n.body, None, ss, width) == OpSize(n.body, Get(ev.counted, n.id), ss, width);
      }
    }
  }

  // ---- and no other node ----

  /** Sources that each deliver so many rows on every port, counted exactly. */
  ghost function FedEntries(g: OpGraph, n: Node<Op>, rows: nat -> nat): Entries {
    map e | e in Incoming(g.edges, n.id) :: e.source := Entry(Size(Some(rows(e.source)), None, Exact), None)
  }

  ghost function FedOut(g: OpGraph, source: nat, rows: nat): Output {
    match Lookup(g.nodes, source)
    case None => Output(Rows(rows), [])
    case Some(m) => Delivers(m.body.kind, rows, rows)
  }

  ghost function FedOuts(g: OpGraph, n: Node<Op>, rows: nat -> nat, out: Output): map<nat, Output> {
    var fed := map e | e in Incoming(g.edges, n.id) :: e.source := FedOut(g, e.source, rows(e.source));
    fed[n.id := out]
  }

  ghost function FedInputs(g: OpGraph, n: Node<Op>, rows: nat -> nat): seq<Relation> {
    var es := InputEdges(g, n);
    seq(|es|, i requires 0 <= i < |es| => Rows(rows(es[i].source)))
  }

  lemma FedBy(g: OpGraph, n: Node<Op>, rows: nat -> nat, out: Output, e: Edge)
    requires SourcesKnown(g) && !Feeds(g.edges, n.id, n.id) && e in Incoming(g.edges, n.id)
    ensures Lookup(g.nodes, e.source).Some?
    ensures e.source in FedOuts(g, n, rows, out)
    ensures FedOuts(g, n, rows, out)[e.source] ==
      Delivers(Lookup(g.nodes, e.source).value.body.kind, rows(e.source), rows(e.source))
    ensures e.source in FedEntries(g, n, rows)
    ensures FedEntries(g, n, rows)[e.source] == Entry(Size(Some(rows(e.source)), None, Exact), None)
  {
    assert Feeds(g.edges, e.source, n.id);
  }

  lemma AlongDelivers(e: Edge, op: Op, rows: nat)
    ensures Along(e, op, Delivers(op.kind, rows, rows)) == if Names(e, op) then Some(Rows(rows)) else None
  {
  }

  lemma FedReads(g: OpGraph, n: Node<Op>, rows: nat -> nat, out: Output)
    requires SourcesKnown(g) && !Feeds(g.edges, n.id, n.id) && CanRun(g, n)
    ensures ReadsInputs(g, FedOuts(g, n, rows, out), n, FedInputs(g, n, rows))
  {
    var es, outs := InputEdges(g, n), FedOuts(g, n, rows, out);
    InputEdgesListed(g, n);
    forall i | 0 <= i < |es|
      ensures es[i].source in outs && Lookup(g.nodes, es[i].source).Some?
      ensures Along(es[i], Lookup(g.nodes, es[i].source).value.body, outs[es[i].source]) ==
        Some(FedInputs(g, n, rows)[i])
    {
      assert es[i] in es;
      FedBy(g, n, rows, out, es[i]);
      AlongDelivers(es[i], Lookup(g.nodes, es[i].source).value.body, rows(es[i].source));
    }
  }

  lemma FedNodeRuns(g: OpGraph, n: Node<Op>, ev: Evidence, limit: nat, rows: nat -> nat, out: Output, strict: bool)
    requires SourcesKnown(g) && !Feeds(g.edges, n.id, n.id) && CanRun(g, n)
    requires EvidenceHolds(n, ev, out) && Produces(n.body, FedInputs(g, n, rows), limit, out)
    ensures NodeRuns(g, n, ev, FedEntries(g, n, rows), limit, FedOuts(g, n, rows, out), FedInputs(g, n, rows), strict)
  {
    var outs, entries := FedOuts(g, n, rows, out), FedEntries(g, n, rows);
    FedReads(g, n, rows, out);
    forall e | e in Incoming(g.edges, n.id)
      ensures e.source in entries && e.source in outs && EdgeIsRight(g, e, entries, outs[e.source], strict)
    {
      FedBy(g, n, rows, out, e);
      AlongDelivers(e, Lookup(g.nodes, e.source).value.body, rows(e.source));
    }
  }

  lemma FedSizes(g: OpGraph, n: Node<Op>, rows: nat -> nat)
    requires Incoming(g.edges, n.id) != []
    ensures var ss := InputSizes(Incoming(g.edges, n.id), FedEntries(g, n, rows));
      ss != [] && ss[0] == Size(Some(rows(Incoming(g.edges, n.id)[0].source)), None, Exact)
  {
    var es := Incoming(g.edges, n.id);
    InputSizesAt(es, FedEntries(g, n, rows));
    assert es[0] in es;
  }

  /** The node's entry is right for every run on inputs whose entries are. */
  ghost predicate NodeStaysRight(g: OpGraph, n: Node<Op>, ev: Evidence, limit: nat, strict: bool) {
    forall entries, outs, ins :: NodeRuns(g, n, ev, entries, limit, outs, ins, strict) ==>
      RightFor(NodeEntry(g, n, ev, entries).size, outs[n.id], strict)
  }

  lemma Misjudged(g: OpGraph, n: Node<Op>, ev: Evidence, limit: nat, rows: nat -> nat, out: Output, strict: bool)
    requires SourcesKnown(g) && !Feeds(g.edges, n.id, n.id) && CanRun(g, n)
    requires EvidenceHolds(n, ev, out) && Produces(n.body, FedInputs(g, n, rows), limit, out)
    requires !RightFor(NodeEntry(g, n, ev, FedEntries(g, n, rows)).size, out, strict)
    ensures !NodeStaysRight(g, n, ev, limit, strict)
  {
    FedNodeRuns(g, n, ev, limit, rows, out, strict);
  }

  /** One port has the rows that were counted, and another has one more. */
  lemma MeasuredPortsFail(g: OpGraph, n: Node<Op>, ev: Evidence, limit: nat, strict: bool)
    requires SourcesKnown(g) && !Feeds(g.edges, n.id, n.id) && CanRun(g, n)
    requires Measured(n, ev) && Ports(n.body.kind) > 1
    ensures !NodeStaysRight(g, n, ev, limit, strict)
  {
    var v := ev.actuals[n.id];
    var out := Delivers(n.body.kind, v, v + 1);
    DrawSome(v + 1, v);
    assert out.others[0] == Rows(v + 1) && out.others[0] in out.others;
    assert n.body.kind.Assert? ==> out.others == [Rows(v + 1)];
    Misjudged(g, n, ev, limit, _ => v + 1, out, strict);
  }

  lemma RegardlessFails(g: OpGraph, n: Node<Op>, ev: Evidence, limit: nat, strict: bool)
    requires SourcesKnown(g) && !Feeds(g.edges, n.id, n.id) && CanRun(g, n)
    requires !Measured(n, ev) && RunsRegardless(n.body.kind) && n.body.bypassed && Incoming(g.edges, n.id) != []
    ensures !NodeStaysRight(g, n, ev, limit, strict)
  {
    FedSizes(g, n, _ => 0);
    Misjudged(g, n, ev, limit, _ => 0, Delivers(n.body.kind, 1, 1), strict);
  }

  lemma MiscountFails(g: OpGraph, n: Node<Op>, ev: Evidence, limit: nat, strict: bool)
    requires SourcesKnown(g) && !Feeds(g.edges, n.id, n.id) && CanRun(g, n)
    requires !Measured(n, ev) && !RunsRegardless(n.body.kind) && !CountsAlike(n.body, strict)
    ensures !NodeStaysRight(g, n, ev, limit, strict)
  {
    var k, m := Miscount(n.body, limit, strict);
    InputEdgesListed(g, n);
    assert InputEdges(g, n)[0] in Incoming(g.edges, n.id);
    FedSizes(g, n, _ => k);
    Misjudged(g, n, ev, limit, _ => k, Delivers(n.body.kind, m, m), strict);
  }

  /** A bypassed join whose edges come from two nodes, the one on port b stored first. */
  lemma CrossedFails(g: OpGraph, n: Node<Op>, ev: Evidence, limit: nat, strict: bool)
    requires SourcesKnown(g) && !Feeds(g.edges, n.id, n.id) && CanRun(g, n)
    requires !Measured(n, ev) && n.body.kind.Join? && n.body.bypassed && !FirstEdgesAgree(g, n)
    ensures !NodeStaysRight(g, n, ev, limit, strict)
  {
    var read := InputEdges(g, n)[0];
    InputEdgesListed(g, n);
    assert read in Incoming(g.edges, n.id);
    var rows: nat -> nat := x => if x == read.source then 1 else 0;
    FedSizes(g, n, rows);
    assert FedInputs(g, n, rows)[0] == Rows(1);
    Misjudged(g, n, ev, limit, rows, Delivers(n.body.kind, 1, 1), strict);
  }

  /**
   * In an acyclic graph without dangling edges, a node's entry is right on all its output ports, in every run on inputs
   * whose entries are right and with true evidence, if and only if the node and what it hands on are counted alike.
   */
  lemma NodeIsRightExactly(g: OpGraph, n: Node<Op>, ev: Evidence, limit: nat, strict: bool)
    requires SourcesKnown(g) && !CycleAbove(g.edges, n.id)
    ensures NodeStaysRight(g, n, ev, limit, strict) <==> Alike(g, n, ev, strict)
  {
    if Alike(g, n, ev, strict) {
      forall entries, outs, ins | NodeRuns(g, n, ev, entries, limit, outs, ins, strict)
        ensures RightFor(NodeEntry(g, n, ev, entries).size, outs[n.id], strict)
      {
        NodeIsRight(g, n, ev, entries, limit, outs, ins, strict);
      }
    } else {
      NoSelfFeed(g.edges, n.id);
      if Measured(n, ev) {
        MeasuredPortsFail(g, n, ev, limit, strict);
      } else if RunsRegardless(n.body.kind) {
        RegardlessFails(g, n, ev, limit, strict);
      } else if !CountsAlike(n.body, strict) {
        MiscountFails(g, n, ev, limit, strict);
      } else {
        CrossedFails(g, n, ev, limit, strict);
      }
    }
  }

  lemma NoSelfFeed(edges: seq<Edge>, n: nat)
    requires !CycleAbove(edges, n)
    ensures !Feeds(edges, n, n)
  {
    if Feeds(edges, n, n) {
      UpstreamEdge(edges, n, n);
      UpstreamSelf(edges, n);
    }
  }

  /** The source of an edge into a listed node is listed earlier. */
  lemma EdgeSource(g: OpGraph, order: seq<Node<Op>>, i: nat, e: Edge) returns (j: nat)
    requires Ordering(g, order) && i < |order| && e in Incoming(g.edges, order[i].id)
    ensures j < i && order[j].id == e.source && order[j] in order && Lookup(g.nodes, e.source) == Some(order[j])
  {
    assert Ids(order)[i] == order[i].id;
    assert Feeds(g.edges, e.source, order[i].id);
    assert e.source in Ids(order)[..i];
    j :| 0 <= j < i && Ids(order)[j] == e.source;
    assert order[j] in order;
  }

  /** Whatever feeds a node, and the node itself, is counted alike. */
  ghost predicate AlikeUpstream(g: OpGraph, n: nat, ev: Evidence, strict: bool) {
    forall m :: m in g.nodes && Upstream(g.edges, n, m.id) ==> Alike(g, m, ev, strict)
  }

  lemma AlikeAbove(g: OpGraph, e: Edge, ev: Evidence, strict: bool)
    requires AlikeUpstream(g, e.target, ev, strict) && e in g.edges
    ensures AlikeUpstream(g, e.source, ev, strict)
  {
    assert Feeds(g.edges, e.source, e.target);
    UpstreamEdge(g.edges, e.target, e.source);
    forall m | m in g.nodes && Upstream(g.edges, e.source, m.id) ensures Alike(g, m, ev, strict) {
      UpstreamTrans(g.edges, e.target, e.source, m.id);
    }
  }

  lemma {:induction false} SizesAreRight(g: OpGraph, order: seq<Node<Op>>, ev: Evidence, entries: Entries, limit: nat,
                                         outs: map<nat, Output>, strict: bool, i: nat)
    requires Ordering(g, order) && Estimated(g, order, ev, entries)
    requires IsRun(g, limit, outs) && EvidenceIsTrue(g, ev, outs)
    requires i < |order| && order[i].id in outs && AlikeUpstream(g, order[i].id, ev, strict)
    ensures order[i].id in entries && RightFor(entries[order[i].id].size, outs[order[i].id], strict)
    decreases i, 1
  {
    var n := order[i];
    assert n in order && Lookup(g.nodes, n.id) == Some(n) && n in g.nodes;
    assert Entered(g, n, ev, entries);
    UpstreamSelf(g.edges, n.id);
    var ins := InputsOf(g, limit, outs, n);
    InputsAreRight(g, order, ev, entries, limit, outs, strict, i);
    NodeIsRight(g, n, ev, entries, limit, outs, ins, strict);
  }

  lemma {:induction false} InputsAreRight(g: OpGraph, order: seq<Node<Op>>, ev: Evidence, entries: Entries, limit: nat,
                                          outs: map<nat, Output>, strict: bool, i: nat)
    requires Ordering(g, order) && Estimated(g, order, ev, entries)
    requires IsRun(g, limit, outs) && EvidenceIsTrue(g, ev, outs)
    requires i < |order| && AlikeUpstream(g, order[i].id, ev, strict)
    ensures forall e :: e in Incoming(g.edges, order[i].id) ==> e.source in entries
    ensures EdgesAreRight(g, Incoming(g.edges, order[i].id), entries, outs, strict)
    decreases i, 0
  {
    forall e | e in Incoming(g.edges, order[i].id)
      ensures e.source in entries
      ensures e.source in outs ==> EdgeIsRight(g, e, entries, outs[e.source], strict)
    {
      var j := EdgeSource(g, order, i, e);
      assert Entered(g, order[j], ev, entries);
      if e.source in outs {
        AlikeAbove(g, e, ev, strict);
        SizesAreRight(g, order, ev, entries, limit, outs, strict, j);
        if Along(e, order[j].body, outs[e.source]).Some? {
          AlongIsRight(entries[e.source].size, e, order[j].body, outs[e.source], strict);
        }
      }
    }
  }

  /** Two sources into a bypassed join, the second on port b but first in the edge array. */
  ghost predicate CrossedJoin(g: OpGraph) {
    && g.nodes == [Node(0, Op(Source(Some(0)), false)), Node(1, Op(Source(Some(1)), false)), Node(2, Op(Join, true))]
    && g.edges == [Edge(0, 1, 2, None, Some(PORT_B)), Edge(1, 0, 2, None, Some(PORT_A))]
  }

  lemma TwoIncoming(a: Edge, b: Edge, n: nat)
    ensures Incoming([a, b], n) == (if a.target == n then [a] else []) + (if b.target == n then [b] else [])
  {
    assert [a, b][..1] == [a] && [a][..0] == [];
    assert Incoming([a], n) == if a.target == n then [a] else [];
  }

  lemma TwoOnPort(a: Edge, b: Edge, port: nat)
    ensures OnPort([a, b], port) ==
      (if a.targetHandle == Some(port) then [a] else []) + (if b.targetHandle == Some(port) then [b] else [])
  {
    assert [a, b][..1] == [a] && [a][..0] == [];
    assert OnPort([a], port) == if a.targetHandle == Some(port) then [a] else [];
  }

  lemma CrossedEdges(g: OpGraph)
    requires CrossedJoin(g)
    ensures Incoming(g.edges, 2) == g.edges && Incoming(g.edges, 1) == []
    ensures InputEdges(g, g.nodes[2]) == [g.edges[1], g.edges[0]]
  {
    var a, b := g.edges[0], g.edges[1];
    assert g.edges == [a, b];
    TwoIncoming(a, b, 1);
    TwoIncoming(a, b, 2);
    TwoOnPort(a, b, PORT_A);
    TwoOnPort(a, b, PORT_B);
  }

  lemma CrossedOutput(g: OpGraph, limit: nat, outs: map<nat, Output>)
    requires CrossedJoin(g) && IsRun(g, limit, outs) && 0 in outs && 2 in outs
    ensures outs[2].main == outs[0].main
  {
    CrossedEdges(g);
    TwoSources(g);
    assert g.nodes[2] in g.nodes;
    var ins := InputsOf(g, limit, outs, g.nodes[2]);
  }

  lemma CrossedEstimate(g: OpGraph, ev: Evidence, entries: Entries)
    requires CrossedJoin(g) && 2 !in ev.actuals && 1 !in ev.actuals && 1 in ev.counted
      && Estimated(g, g.nodes, ev, entries)
    ensures 2 in entries && entries[2].size.rows == Some(ev.counted[1]) && entries[2].size.confidence == Exact
  {
    CrossedEdges(g);
    assert g.nodes[1] in g.nodes && g.nodes[2] in g.nodes && g.nodes[0] in g.nodes;
    assert Entered(g, g.nodes[0], ev, entries) && Entered(g, g.nodes[1], ev, entries)
      && Entered(g, g.nodes[2], ev, entries);
    InputSizesAt(g.edges, entries);
  }

  /** There the engine hands on the first source, and the estimate is the second's. */
  lemma BypassedJoinMisleads(g: OpGraph, ev: Evidence, entries: Entries, limit: nat, outs: map<nat, Output>)
    requires CrossedJoin(g) && ev == Evidence(map[], map[0 := 5, 1 := 1], map[]) && Estimated(g, g.nodes, ev, entries)
    requires IsRun(g, limit, outs) && EvidenceIsTrue(g, ev, outs) && 0 in outs && 2 in outs
    ensures 2 in entries && entries[2].size.rows == Some(1) && entries[2].size.confidence == Exact
      && |outs[2].main.rows| == 5
  {
    CrossedOutput(g, limit, outs);
    CrossedEstimate(g, ev, entries);
    CountedSource(g, g.nodes[0], ev, outs);
  }

  lemma CountedSource(g: OpGraph, n: Node<Op>, ev: Evidence, outs: map<nat, Output>)
    requires EvidenceIsTrue(g, ev, outs) && n in g.nodes && n.id in outs
    requires n.body.kind.Source? && !n.body.bypassed && n.id in ev.counted
    ensures |outs[n.id].main.rows| == ev.counted[n.id]
  {
  }

  lemma TwoSources(g: OpGraph)
    requires g.nodes == [Node(0, Op(Source(Some(0)), false)), Node(1, Op(Source(Some(1)), false)),
      Node(2, Op(Join, true))]
    ensures Lookup(g.nodes, 0) == Some(g.nodes[0]) && Lookup(g.nodes, 1) == Some(g.nodes[1])
  {
    assert g.nodes[..2] == [g.nodes[0], g.nodes[1]] && [g.nodes[0], g.nodes[1]][..1] == [g.nodes[0]];
    assert Lookup([g.nodes[0]], 0) == Some(g.nodes[0]);
    assert Lookup([g.nodes[0], g.nodes[1]], 0) == Some(g.nodes[0]);
  }

  // ---- unknown says nothing; widths never shrink; bytes are rows times width ----

  ghost predicate Coherent(s: Size) {
    s.rows.None? <==> s.confidence == Unknown
  }

  lemma OpSizeIsCoherent(op: Op, counted: Option<nat>, ss: seq<Size>, width: Width)
    requires forall i :: 0 <= i < |ss| ==> Coherent(ss[i])
    ensures Coherent(OpSize(op, counted, ss, width))
  {
  }

  /** An estimate is unknown exactly when it has no row count. */
  lemma {:induction false} UnknownMeansNoCount(g: OpGraph, order: seq<Node<Op>>, ev: Evidence, entries: Entries, i: nat)
    requires Ordering(g, order) && Estimated(g, order, ev, entries) && i < |order|
    ensures order[i].id in entries && Coherent(entries[order[i].id].size)
  {
    var n := order[i];
    assert n in order && Entered(g, n, ev, entries);
    var es := Incoming(g.edges, n.id);
    forall e | e in es ensures e.source in entries && Coherent(entries[e.source].size) {
      var j := EdgeSource(g, order, i, e);
      UnknownMeansNoCount(g, order, ev, entries, j);
    }
    InputSizesAt(es, entries);
    assert forall k :: 0 <= k < |es| ==> es[k] in es;
    OpSizeIsCoherent(n.body, Get(ev.counted, n.id), InputSizes(es, entries), entries[n.id].width);
  }

  predicate HandsColumnsOn(op: Op) {
    op.bypassed || PassThrough(op.kind)
  }

  lemma OpWidthKept(op: Op, own: Width, ws: seq<Width>, w: Width)
    requires HandsColumnsOn(op) && w in ws
    ensures AtLeast(OpWidth(op, own, ws), w)
  {
  }

  lemma InputWidthListed(es: seq<Edge>, entries: Entries, e: Edge)
    requires e in es && forall d :: d in es ==> d.source in entries
    ensures entries[e.source].width in InputWidths(es, entries)
  {
    InputSizesAt(es, entries);
    var k :| 0 <= k < |es| && es[k] == e;
    assert InputWidths(es, entries)[k] == entries[e.source].width;
  }

  lemma WidthKept(g: OpGraph, order: seq<Node<Op>>, ev: Evidence, entries: Entries, i: nat, e: Edge)
    requires Ordering(g, order) && Estimated(g, order, ev, entries) && i < |order|
    requires HandsColumnsOn(order[i].body) && e in Incoming(g.edges, order[i].id)
    ensures order[i].id in entries && e.source in entries
    ensures AtLeast(entries[order[i].id].width, entries[e.source].width)
  {
    var n := order[i];
    assert n in order && Entered(g, n, ev, entries);
    var es := Incoming(g.edges, n.id);
    InputsListed(g, order, ev, entries, i);
    InputWidthListed(es, entries, e);
    OpWidthKept(n.body, OwnWidth(n.id, ev), InputWidths(es, entries), entries[e.source].width);
  }

  /** A path of the listed nodes, downstream, every node after the first handing its columns on. */
  ghost predicate HandsOnAlong(g: OpGraph, order: seq<Node<Op>>, path: seq<nat>)
    decreases |path|
  {
    && path != []
    && (forall k :: 0 <= k < |path| ==> path[k] < |order|)
    && var last := |path| - 1;
       last > 0 ==>
         && HandsOnAlong(g, order, path[..last]) && HandsColumnsOn(order[path[last]].body)
         && Feeds(g.edges, order[path[last - 1]].id, order[path[last]].id)
  }

  /**
   * Along any path of bypassed and pass-through nodes the width at the end is unknown, or at least the one at the
   * start.
   */
  lemma {:induction false} WidthNeverShrinks(g: OpGraph, order: seq<Node<Op>>, ev: Evidence, entries: Entries,
                                             path: seq<nat>)
    requires Ordering(g, order) && Estimated(g, order, ev, entries) && HandsOnAlong(g, order, path)
    ensures order[path[0]].id in entries && order[path[|path| - 1]].id in entries
    ensures AtLeast(entries[order[path[|path| - 1]].id].width, entries[order[path[0]].id].width)
    decreases |path|
  {
    var last := |path| - 1;
    if last == 0 {
      assert order[path[0]] in order && Entered(g, order[path[0]], ev, entries);
    } else {
      WidthHandedOn(g, order, ev, entries, path[last - 1], path[last]);
      WidthNeverShrinks(g, order, ev, entries, path[..last]);
    }
  }

  lemma WidthHandedOn(g: OpGraph, order: seq<Node<Op>>, ev: Evidence, entries: Entries, j: nat, i: nat)
    requires Ordering(g, order) && Estimated(g, order, ev, entries) && j < |order| && i < |order|
    requires HandsColumnsOn(order[i].body) && Feeds(g.edges, order[j].id, order[i].id)
    ensures order[i].id in entries && order[j].id in entries
    ensures AtLeast(entries[order[i].id].width, entries[order[j].id].width)
  {
    var e :| e in g.edges && e.source == order[j].id && e.target == order[i].id;
    WidthKept(g, order, ev, entries, i, e);
  }

  /** The node takes its first input's estimate over as it stands, bytes and all. */
  predicate TakesOver(g: OpGraph, n: Node<Op>, ev: Evidence) {
    !Measured(n, ev) && (n.body.bypassed || n.body.kind == Sample(None)) && Incoming(g.edges, n.id) != []
  }

  lemma OpSizeBytes(op: Op, counted: Option<nat>, ss: seq<Size>, width: Width)
    requires !(op.bypassed || op.kind == Sample(None)) || ss == []
    ensures var s := OpSize(op, counted, ss, width); s == Sized(s.rows, s.confidence, width)
  {
  }

  lemma InputsListed(g: OpGraph, order: seq<Node<Op>>, ev: Evidence, entries: Entries, i: nat)
    requires Ordering(g, order) && Estimated(g, order, ev, entries) && i < |order|
    ensures forall e :: e in Incoming(g.edges, order[i].id) ==> e.source in entries
  {
    forall e | e in Incoming(g.edges, order[i].id) ensures e.source in entries {
      var j := EdgeSource(g, order, i, e);
      assert Entered(g, order[j], ev, entries);
    }
  }

  lemma OwnBytes(g: OpGraph, order: seq<Node<Op>>, ev: Evidence, entries: Entries, i: nat)
    requires Ordering(g, order) && Estimated(g, order, ev, entries) && i < |order|
    requires !TakesOver(g, order[i], ev)
    ensures order[i].id in entries
    ensures var entry := entries[order[i].id]; entry.size == Sized(entry.size.rows, entry.size.confidence, entry.width)
  {
    var n := order[i];
    assert n in order && Entered(g, n, ev, entries);
    var es := Incoming(g.edges, n.id);
    var ss, width := InputSizes(es, entries), entries[n.id].width;
    InputsListed(g, order, ev, entries, i);
    InputSizesAt(es, entries);
    if !Measured(n, ev) {
      OpSizeBytes(n.body, Get(ev.counted, n.id), ss, width);
      assert entries[n.id].size == OpSize(n.body, Get(ev.counted, n.id), ss, width);
    }
  }

  lemma TakenOverEntry(g: OpGraph, n: Node<Op>, ev: Evidence, entries: Entries)
    requires TakesOver(g, n, ev) && forall e :: e in Incoming(g.edges, n.id) ==> e.source in entries
    ensures NodeEntry(g, n, ev, entries).size == entries[Incoming(g.edges, n.id)[0].source].size
  {
    var ss, width := InputSizes(Incoming(g.edges, n.id), entries), NodeEntry(g, n, ev, entries).width;
    InputSizesAt(Incoming(g.edges, n.id), entries);
    assert NodeEntry(g, n, ev, entries).size == OpSize(n.body, Get(ev.counted, n.id), ss, width);
    TakenOverSize(n.body, Get(ev.counted, n.id), ss, width);
  }

  lemma TakenOverSize(op: Op, counted: Option<nat>, ss: seq<Size>, width: Width)
    requires (op.bypassed || op.kind == Sample(None)) && ss != []
    ensures OpSize(op, counted, ss, width) == ss[0]
  {
  }

  /** An estimate taken over is the first input's, bytes and all, though the node may be wider. */
  lemma TakenOverAsItStands(g: OpGraph, order: seq<Node<Op>>, ev: Evidence, entries: Entries, i: nat)
    requires Ordering(g, order) && Estimated(g, order, ev, entries) && i < |order|
    requires TakesOver(g, order[i], ev)
    ensures var first := Incoming(g.edges, order[i].id)[0].source;
      && order[i].id in entries && first in entries && entries[order[i].id].size == entries[first].size
      && AtLeast(entries[order[i].id].width, entries[first].width)
  {
    var n := order[i];
    assert n in order && Entered(g, n, ev, entries);
    var es := Incoming(g.edges, n.id);
    InputsListed(g, order, ev, entries, i);
    TakenOverEntry(g, n, ev, entries);
    assert es[0] in es;
    WidthKept(g, order, ev, entries, i, es[0]);
  }

  ghost function FirstSource(g: OpGraph, order: seq<Node<Op>>, i: nat): (j: nat)
    requires Ordering(g, order) && i < |order| && Incoming(g.edges, order[i].id) != []
    ensures j < i && order[j].id == Incoming(g.edges, order[i].id)[0].source
  {
    var e := Incoming(g.edges, order[i].id)[0];
    assert e in Incoming(g.edges, order[i].id) && Ids(order)[i] == order[i].id;
    assert Feeds(g.edges, e.source, order[i].id);
    assert e.source in Ids(order)[..i];
    var j :| 0 <= j < i && Ids(order)[j] == e.source;
    j
  }

  /** The first node up the first edges that does not take its estimate over. */
  ghost function Origin(g: OpGraph, order: seq<Node<Op>>, ev: Evidence, i: nat): (j: nat)
    requires Ordering(g, order) && i < |order|
    ensures j <= i && !TakesOver(g, order[j], ev)
  {
    if TakesOver(g, order[i], ev) then Origin(g, order, ev, FirstSource(g, order, i)) else i
  }

  lemma {:induction false} TakenFromOrigin(g: OpGraph, order: seq<Node<Op>>, ev: Evidence, entries: Entries, i: nat)
    requires Ordering(g, order) && Estimated(g, order, ev, entries) && i < |order|
    ensures var o := order[Origin(g, order, ev, i)].id;
      && order[i].id in entries && o in entries && entries[order[i].id].size == entries[o].size
      && AtLeast(entries[order[i].id].width, entries[o].width)
  {
    if TakesOver(g, order[i], ev) {
      TakenOverAsItStands(g, order, ev, entries, i);
      TakenFromOrigin(g, order, ev, entries, FirstSource(g, order, i));
    } else {
      OwnBytes(g, order, ev, entries, i);
    }
  }

  lemma SameProduct(rows: int, a: nat, b: nat)
    ensures rows * a == rows * b <==> rows == 0 || a == b
  {
    if rows != 0 && a != b { assert rows * (a - b) != 0; }
  }

  /** Of a size made with one width, what another width makes. */
  lemma OtherWidth(rows: Option<int>, confidence: Confidence, made: Width, width: Width)
    ensures Sized(rows, confidence, made) == Sized(rows, confidence, width) <==>
      rows.None? || made == width || (rows == Some(0) && made.Some? && width.Some?)
    ensures (rows.Some? && made.Some? && width.Some? ==> rows.value * made.value == rows.value * width.value) <==>
      rows.None? || made.None? || width.None? || rows == Some(0) || made == width
  {
    if rows.Some? && made.Some? && width.Some? { SameProduct(rows.value, made.value, width.value); }
  }

  /**
   * For every node, whatever it takes over. Known bytes are rows times the node's known width exactly when the rows are
   * unknown, or a width is, or there are no rows, or the node is as wide as the node its estimate originates from. The
   * whole size is the one that rows and width make exactly when, besides, an unknown width leaves the bytes unknown.
   */
  lemma BytesAreRowsTimesWidth(g: OpGraph, order: seq<Node<Op>>, ev: Evidence, entries: Entries, i: nat)
    requires Ordering(g, order) && Estimated(g, order, ev, entries) && i < |order|
    ensures order[i].id in entries && order[Origin(g, order, ev, i)].id in entries
    ensures var entry, origin := entries[order[i].id], entries[order[Origin(g, order, ev, i)].id];
      var rows, bytes := entry.size.rows, entry.size.bytes;
      && (bytes.Some? <==> rows.Some? && origin.width.Some?)
      && ((bytes.Some? && entry.width.Some? ==> bytes.value == rows.value * entry.width.value) <==>
            rows.None? || origin.width.None? || entry.width.None? || rows == Some(0) || origin.width == entry.width)
      && (entry.size == Sized(rows, entry.size.confidence, entry.width) <==>
            rows.None? || origin.width == entry.width || (rows == Some(0) && origin.width.Some? && entry.width.Some?))
  {
    var o := Origin(g, order, ev, i);
    TakenFromOrigin(g, order, ev, entries, i);
    OwnBytes(g, order, ev, entries, o);
    var entry, origin := entries[order[i].id], entries[order[o].id];
    OtherWidth(entry.size.rows, entry.size.confidence, origin.width, entry.width);
  }

  /** Two sources into a bypassed union, a narrow one first. */
  ghost predicate MixedUnion(g: OpGraph) {
    && g.nodes == [Node(0, Op(Source(Some(0)), false)), Node(1, Op(Source(Some(1)), false)),
      Node(2, Op(Union(All), true))]
    && g.edges == [Edge(0, 0, 2, None, None), Edge(1, 1, 2, None, None)]
  }

  lemma MixedInputs(g: OpGraph)
    requires MixedUnion(g)
    ensures Incoming(g.edges, 0) == Incoming(g.edges, 1) == [] && Incoming(g.edges, 2) == g.edges
  {
    var a, b := g.edges[0], g.edges[1];
    assert g.edges == [a, b];
    TwoIncoming(a, b, 0);
    TwoIncoming(a, b, 1);
    TwoIncoming(a, b, 2);
  }

  lemma ListedEntries(g: OpGraph, ev: Evidence, entries: Entries)
    requires Estimated(g, g.nodes, ev, entries)
    ensures forall k :: 0 <= k < |g.nodes| ==> Entered(g, g.nodes[k], ev, entries)
  {
    assert forall k :: 0 <= k < |g.nodes| ==> g.nodes[k] in g.nodes;
  }

  lemma WidestOfTwo(a: nat, b: nat)
    requires a < b
    ensures Widest([Some(a), Some(b)]) == Some(b)
  {
    var ws: seq<Width> := [Some(a), Some(b)];
    assert ws[..1] == [Some(a)] && Widest(ws[..1]) == Some(a);
  }

  /** The union is as wide as the wide source, and has the bytes of the narrow one. */
  lemma TakenOverBytesFallShort(g: OpGraph, ev: Evidence, entries: Entries, rows: nat, narrow: nat, wide: nat)
    requires MixedUnion(g) && Estimated(g, g.nodes, ev, entries) && narrow < wide && rows > 0
    requires ev.actuals == map[] && 0 in ev.counted && ev.counted[0] == rows
    requires ev.widths == map[0 := Some(narrow), 1 := Some(wide)]
    ensures 2 in entries && entries[2].width == Some(wide)
      && entries[2].size == Size(Some(rows), Some(rows * narrow), Exact)
    ensures rows * narrow != rows * wide
  {
    MixedInputs(g);
    ListedEntries(g, ev, entries);
    assert Entered(g, g.nodes[0], ev, entries) && Entered(g, g.nodes[1], ev, entries)
      && Entered(g, g.nodes[2], ev, entries);
    assert g.edges == [Edge(0, 0, 2, None, None), Edge(1, 1, 2, None, None)];
    InputSizesAt(g.edges, entries);
    assert InputWidths(g.edges, entries) == [Some(narrow), Some(wide)];
    WidestOfTwo(narrow, wide);
    SameProduct(rows, narrow, wide);
  }

  /** A source into an assertion, and its pass port into a write. */
  ghost predicate CheckedWrite(g: OpGraph) {
    && g.nodes == [Node(0, Op(Source(Some(0)), false)), Node(1, Op(Assert, false)), Node(2, Op(Write, false))]
    && g.edges == [Edge(0, 0, 1, None, None), Edge(1, 1, 2, Some(PASS), None)]
  }

  lemma CheckedNodes(g: OpGraph)
    requires CheckedWrite(g)
    ensures Lookup(g.nodes, 0) == Some(g.nodes[0]) && Lookup(g.nodes, 1) == Some(g.nodes[1])
    ensures Incoming(g.edges, 1) == [g.edges[0]] && Incoming(g.edges, 2) == [g.edges[1]]
  {
    assert g.nodes[..2] == [g.nodes[0], g.nodes[1]] && [g.nodes[0], g.nodes[1]][..1] == [g.nodes[0]];
    assert Lookup([g.nodes[0]], 0) == Some(g.nodes[0]);
    assert Lookup([g.nodes[0], g.nodes[1]], 0) == Some(g.nodes[0]);
    assert g.edges == [g.edges[0], g.edges[1]];
    TwoIncoming(g.edges[0], g.edges[1], 1);
    TwoIncoming(g.edges[0], g.edges[1], 2);
  }

  lemma MeasuredEntry(g: OpGraph, n: Node<Op>, ev: Evidence, entries: Entries)
    requires Entered(g, n, ev, entries) && Measured(n, ev)
    ensures entries[n.id].size.rows == Some(ev.actuals[n.id]) && entries[n.id].size.confidence == Exact
  {
  }

  lemma WriteEntry(g: OpGraph, n: Node<Op>, e: Edge, ev: Evidence, entries: Entries)
    requires Entered(g, n, ev, entries) && n.body == Op(Write, false) && n.id !in ev.actuals
    requires Incoming(g.edges, n.id) == [e] && e.source in entries
    ensures entries[n.id].size.rows == entries[e.source].size.rows
      && entries[n.id].size.confidence == entries[e.source].size.confidence
  {
    InputSizesAt([e], entries);
    assert entries[n.id].size == AsMany(InputSizes([e], entries), entries[n.id].width);
  }

  lemma CheckedEstimate(g: OpGraph, ev: Evidence, entries: Entries)
    requires CheckedWrite(g) && ev.actuals == map[1 := 0] && Estimated(g, g.nodes, ev, entries)
    ensures 2 in entries && entries[2].size.rows == Some(0) && entries[2].size.confidence == Exact
  {
    CheckedNodes(g);
    ListedEntries(g, ev, entries);
    assert Entered(g, g.nodes[1], ev, entries) && Entered(g, g.nodes[2], ev, entries);
    MeasuredEntry(g, g.nodes[1], ev, entries);
    WriteEntry(g, g.nodes[2], g.edges[1], ev, entries);
  }

  /** What a node with one incoming edge makes of what that edge carries. */
  lemma OnlyInput(g: OpGraph, limit: nat, outs: map<nat, Output>, n: Node<Op>, e: Edge)
    requires IsRun(g, limit, outs) && n in g.nodes && n.id in outs && InputEdges(g, n) == [e]
    requires e.source in outs && Lookup(g.nodes, e.source).Some?
    ensures var carried := Along(e, Lookup(g.nodes, e.source).value.body, outs[e.source]);
      carried.Some? && Produces(n.body, [carried.value], limit, outs[n.id])
  {
    var ins := InputsOf(g, limit, outs, n);
    assert ins == [ins[0]];
  }

  lemma AssertHandsOn(r: Relation, limit: nat, out: Output)
    requires Produces(Op(Assert, false), [r], limit, out)
    ensures out.others == [r] && DrawnFrom(r, out.main)
  {
  }

  lemma WriteHandsOn(r: Relation, limit: nat, out: Output)
    requires Produces(Op(Write, false), [r], limit, out)
    ensures out.main == r
  {
  }

  lemma CheckedAssert(g: OpGraph, limit: nat, outs: map<nat, Output>)
    requires CheckedWrite(g) && IsRun(g, limit, outs) && 0 in outs && 1 in outs
    ensures outs[1].others == [outs[0].main] && DrawnFrom(outs[0].main, outs[1].main)
  {
    CheckedNodes(g);
    OnlyInput(g, limit, outs, g.nodes[1], g.edges[0]);
    AssertHandsOn(outs[0].main, limit, outs[1]);
  }

  lemma CheckedOut(g: OpGraph, limit: nat, outs: map<nat, Output>)
    requires CheckedWrite(g) && IsRun(g, limit, outs) && 1 in outs && 2 in outs
    ensures |outs[1].others| == 1 && outs[2].main == outs[1].others[0]
  {
    CheckedNodes(g);
    OnlyInput(g, limit, outs, g.nodes[2], g.edges[1]);
    WriteHandsOn(outs[1].others[0], limit, outs[2]);
  }

  /** When an earlier run measured no violations, the write is estimated at exactly no rows, and writes them all. */
  lemma MeasuredAssertMisleads(g: OpGraph, ev: Evidence, entries: Entries, limit: nat, outs: map<nat, Output>)
    requires CheckedWrite(g) && ev.actuals == map[1 := 0] && Estimated(g, g.nodes, ev, entries)
    requires IsRun(g, limit, outs) && EvidenceIsTrue(g, ev, outs) && 0 in outs && 1 in outs && 2 in outs
    ensures 2 in entries && entries[2].size.rows == Some(0) && entries[2].size.confidence == Exact
    ensures |outs[1].main.rows| == 0 && outs[2].main == outs[0].main
  {
    CheckedEstimate(g, ev, entries);
    CheckedAssert(g, limit, outs);
    CheckedOut(g, limit, outs);
    DrawingNeverGrows(outs[0].main, outs[1].main);
    MeasuredNothing(g, ev, outs);
  }

  lemma MeasuredNothing(g: OpGraph, ev: Evidence, outs: map<nat, Output>)
    requires CheckedWrite(g) && ev.actuals == map[1 := 0] && EvidenceIsTrue(g, ev, outs) && 1 in outs
    requires |outs[1].others| == 1 && |outs[1].main.rows| <= |outs[1].others[0].rows|
    ensures |outs[1].main.rows| == 0
  {
    assert g.nodes[1] in g.nodes;
    assert CountOf(outs[1], 0);
  }

  /** A section of two output ports, and its second port into a write. */
  ghost predicate SectionWrite(g: OpGraph) {
    && g.nodes == [Node(0, Op(Extension(2), false)), Node(1, Op(Write, false))]
    && g.edges == [Edge(0, 0, 1, Some(1), None)]
  }

  lemma SectionNodes(g: OpGraph)
    requires SectionWrite(g)
    ensures Lookup(g.nodes, 0) == Some(g.nodes[0])
    ensures Incoming(g.edges, 0) == [] && Incoming(g.edges, 1) == g.edges
  {
    assert g.nodes[..1] == [g.nodes[0]] && Lookup([g.nodes[0]], 0) == Some(g.nodes[0]);
    assert g.edges[..0] == [] && g.edges == [g.edges[0]];
  }

  lemma SectionEstimate(g: OpGraph, ev: Evidence, entries: Entries, first: nat)
    requires SectionWrite(g) && ev.actuals == map[0 := first] && Estimated(g, g.nodes, ev, entries)
    ensures 1 in entries && entries[1].size.rows == Some(first) && entries[1].size.confidence == Exact
  {
    SectionNodes(g);
    ListedEntries(g, ev, entries);
    assert Entered(g, g.nodes[0], ev, entries) && Entered(g, g.nodes[1], ev, entries);
    MeasuredEntry(g, g.nodes[0], ev, entries);
    WriteEntry(g, g.nodes[1], g.edges[0], ev, entries);
  }

  ghost function SectionOuts(first: nat, second: nat): map<nat, Output> {
    map[0 := Output(Rows(first), [Rows(second)]), 1 := Output(Rows(second), [])]
  }

  lemma SectionEvidence(g: OpGraph, ev: Evidence, first: nat, second: nat)
    requires SectionWrite(g) && ev.actuals == map[0 := first]
    ensures EvidenceIsTrue(g, ev, SectionOuts(first, second))
  {
  }

  lemma SectionRuns(g: OpGraph, limit: nat, first: nat, second: nat)
    requires SectionWrite(g)
    ensures IsRun(g, limit, SectionOuts(first, second))
  {
    SectionRan(g, limit, first, second);
    SectionRead(g, limit, first, second);
  }

  lemma SectionRan(g: OpGraph, limit: nat, first: nat, second: nat)
    requires SectionWrite(g)
    ensures RanFrom(g, limit, SectionOuts(first, second), g.nodes[0])
  {
    SectionNodes(g);
    assert ReadsInputs(g, SectionOuts(first, second), g.nodes[0], []);
    assert Produces(g.nodes[0].body, [], limit, SectionOuts(first, second)[0]);
  }

  lemma SectionRead(g: OpGraph, limit: nat, first: nat, second: nat)
    requires SectionWrite(g)
    ensures RanFrom(g, limit, SectionOuts(first, second), g.nodes[1])
  {
    SectionNodes(g);
    assert ReadsInputs(g, SectionOuts(first, second), g.nodes[1], [Rows(second)]);
    assert Produces(g.nodes[1].body, [Rows(second)], limit, SectionOuts(first, second)[1]);
  }

  /** Counted on its first port, the section hands that number on from its second, whatever the run delivers there. */
  lemma MeasuredSectionMisleads(g: OpGraph, ev: Evidence, entries: Entries, limit: nat, first: nat, second: nat)
    requires SectionWrite(g) && ev.actuals == map[0 := first] && Estimated(g, g.nodes, ev, entries)
    ensures 1 in entries && entries[1].size.rows == Some(first) && entries[1].size.confidence == Exact
    ensures var outs := SectionOuts(first, second);
      && IsRun(g, limit, outs) && EvidenceIsTrue(g, ev, outs)
      && |outs[0].main.rows| == first && |outs[1].main.rows| == second
  {
    SectionRuns(g, limit, first, second);
    SectionEvidence(g, ev, first, second);
    SectionEstimate(g, ev, entries, first);
  }

  // ---- the whole pass ----

  datatype Result = Sizes(entries: Entries) | Failed

  /** The nodes of an order whose ids are listed. */
  function Restrict(order: seq<Node<Op>>, ids: seq<nat>): (r: seq<Node<Op>>)
    ensures forall n :: n in r <==> n in order && n.id in ids
  {
    if order == [] then []
    else
      var last := order[|order| - 1];
      assert order == order[..|order| - 1] + [last];
      var rest := Restrict(order[..|order| - 1], ids);
      if last.id in ids then rest + [last] else rest
  }

  lemma {:induction false} RestrictIds(order: seq<Node<Op>>, ids: seq<nat>)
    ensures forall x :: x in Ids(Restrict(order, ids)) <==> x in Ids(order) && x in ids
  {
    if order != [] {
      var n := |order| - 1;
      RestrictIds(order[..n], ids);
      assert Ids(order) == Ids(order[..n]) + [order[n].id];
      var rest := Restrict(order[..n], ids);
      assert Ids(rest + [order[n]]) == Ids(rest) + [order[n].id];
    }
  }

  /** Cutting an order down to a set that is closed upstream keeps parents first. */
  lemma {:induction false} RestrictKeepsOrder(edges: seq<Edge>, order: seq<Node<Op>>, ids: seq<nat>)
    requires ParentsFirst(edges, Ids(order)) && forall n, p :: n in ids && Feeds(edges, p, n) ==> p in ids
    ensures ParentsFirst(edges, Ids(Restrict(order, ids)))
  {
    if order != [] {
      var n := |order| - 1;
      var front, last := order[..n], order[n];
      assert Ids(order) == Ids(front) + [last.id] && Ids(order)[..n] == Ids(front);
      PrefixParentsFirst(edges, Ids(order), n);
      RestrictKeepsOrder(edges, front, ids);
      RestrictIds(front, ids);
      if last.id in ids {
        var rest := Restrict(front, ids);
        assert Ids(rest + [last]) == Ids(rest) + [last.id];
        assert Ids(order)[n] == last.id;
        SnocParentsFirst(edges, Ids(rest), last.id);
      }
    }
  }

  lemma PrefixParentsFirst(edges: seq<Edge>, order: seq<nat>, n: nat)
    requires ParentsFirst(edges, order) && n <= |order|
    ensures ParentsFirst(edges, order[..n])
  {
    forall i, p | 0 <= i < n && Feeds(edges, p, order[..n][i]) ensures p in order[..n][..i] {
      assert order[..n][..i] == order[..i];
    }
  }

  lemma SnocParentsFirst(edges: seq<Edge>, order: seq<nat>, x: nat)
    requires ParentsFirst(edges, order) && x !in order && forall p :: Feeds(edges, p, x) ==> p in order
    ensures ParentsFirst(edges, order + [x])
  {
    var longer := order + [x];
    forall i, p | 0 <= i < |longer| && Feeds(edges, p, longer[i]) ensures p in longer[..i] {
      assert longer[..i] == if i < |order| then order[..i] else order;
    }
  }

  lemma UpstreamIsClosed(edges: seq<Edge>, target: nat, ids: seq<nat>)
    requires forall x :: x in ids <==> Upstream(edges, target, x)
    ensures forall n, p :: n in ids && Feeds(edges, p, n) ==> p in ids
  {
    forall n, p | n in ids && Feeds(edges, p, n) ensures p in ids {
      UpstreamEdge(edges, n, p);
      UpstreamTrans(edges, target, n, p);
    }
  }

  lemma FedIsClosed(edges: seq<Edge>, nodes: seq<Node<Op>>, ids: seq<nat>)
    requires forall x :: x in ids <==> FeedsOneOf(edges, nodes, x)
    ensures forall n, p :: n in ids && Feeds(edges, p, n) ==> p in ids
  {
    forall n, p | n in ids && Feeds(edges, p, n) ensures p in ids {
      var k :| 0 <= k < |nodes| && Upstream(edges, nodes[k].id, n);
      UpstreamEdge(edges, n, p);
      UpstreamTrans(edges, nodes[k].id, n, p);
    }
  }

  /** What feeds a target feeds one of the graph's nodes, and a cycle above it is a cycle above one of them. */
  lemma TargetIsListed(g: OpGraph, target: nat)
    requires target in Ids(g.nodes)
    ensures forall x :: Upstream(g.edges, target, x) ==> FeedsOneOf(g.edges, g.nodes, x)
    ensures CycleAbove(g.edges, target) ==> CycleAboveOneOf(g.edges, g.nodes)
  {
    var i :| 0 <= i < |g.nodes| && Ids(g.nodes)[i] == target;
    assert g.nodes[i].id == target;
  }

  /**
   * `_estimate_sizes_unfenced`: nothing for a cyclic graph; otherwise an entry for every node, or for every node that
   * feeds the target, each made from its inputs' entries.
   */
  method EstimateSizes(g: OpGraph, target: Option<nat>, ev: Evidence) returns (r: Result, ghost order: seq<Node<Op>>)
    ensures CycleAboveOneOf(g.edges, g.nodes) ==> r == Sizes(map[])
    ensures r.Failed? ==> !SourcesKnown(g)
    ensures r.Sizes? && !CycleAboveOneOf(g.edges, g.nodes) ==>
      && Ordering(g, order) && Closed(g, order) && Estimated(g, order, ev, r.entries)
      && (target.None? ==> forall x :: x in Ids(order) <==> FeedsOneOf(g.edges, g.nodes, x))
      && (target.Some? && target.value in Ids(g.nodes) ==>
        forall x :: x in Ids(order) <==> Upstream(g.edges, target.value, x))
      && (target.Some? && target.value !in Ids(g.nodes) ==> r.entries == map[])
  {
    order := [];
    var acyclic := Dfs.IsAcyclic(g);
    if acyclic == Dfs.Cyclic { return Sizes(map[]), order; }
    if acyclic == Dfs.Dangling { return Failed, order; }
    var topo := Dfs.TopoOrder(g);
    if topo.Unknown? {
      DanglingSource(g, topo.id);
      return Failed, order;
    }
    FedIsClosed(g.edges, g.nodes, Ids(topo.nodes));
    var nodes := topo.nodes;
    if target.Some? {
      var cone := Dfs.UpstreamChain(g, target.value);
      if target.value in Ids(g.nodes) { TargetIsListed(g, target.value); }
      if !cone.Ordered? {
        if cone.Unknown? { DanglingSource(g, cone.id); }
        return Failed, order;
      }
      var ids := Ids(cone.nodes);
      if target.value in Ids(g.nodes) { UpstreamIsClosed(g.edges, target.value, ids); }
      RestrictKeepsOrder(g.edges, nodes, ids);
      RestrictIds(nodes, ids);
      nodes := Restrict(nodes, ids);
    }
    var entries := FillEntries(g, nodes, ev);
    order := nodes;
    r := Sizes(entries);
    assert target.Some? && target.value !in Ids(g.nodes) ==> entries == map[];
  }
}
