/**
 * The budget objects, the two recursive walks that decrement them, and the
 * reader loop that keeps example rows. The loop's two early returns, for an
 * exceeded budget and for an oversize answer, are never taken.
 */
module PreflightReader {
  import opened Options
  import opened Json
  import opened PreflightModel
  import opened PreflightCost

  class ExampleBudget {
    var nodes: int
    var textBytes: int

    function State(): Spend
      reads this
    {
      Spend(nodes, textBytes)
    }

    constructor ()
      ensures State() == Spend(MAX_NODES, RESPONSE_MAX)
    {
      nodes, textBytes := MAX_NODES, RESPONSE_MAX;
    }

    method Text(bytes: seq<byte>) returns (status: Status, value: Json)
      modifies this
      ensures Converted(status, State(), value) == SpendText(old(State()), bytes)
    {
      value := JNull;
      if |bytes| > MAX_TEXT { return Unavailable, JNull; }
      textBytes := textBytes - |bytes|;
      if textBytes < 0 { return OverBudget, JNull; }
      return Fine, JText(bytes);
    }
  }

  class PreflightBudget {
    var nodes: int
    var textBytes: int
    var responseBytes: int
    var materializationBytes: int

    function State(): Charge
      reads this
    {
      Charge(nodes, textBytes, responseBytes, materializationBytes)
    }

    constructor (budget: ExampleBudget, response: int, materialization: int)
      ensures State() == Charge(budget.nodes, budget.textBytes, response, materialization)
    {
      nodes, textBytes := budget.nodes, budget.textBytes;
      responseBytes, materializationBytes := response, materialization;
    }

    method Node(depth: nat) returns (status: Status)
      modifies this
      ensures Charged(status, State()) == Enter(Charged(Fine, old(State())), depth)
    {
      nodes := nodes - 1;
      if nodes < 0 { return OverBudget; }
      if depth > MAX_DEPTH { return Unavailable; }
      return Fine;
    }

    method Text(size: nat) returns (status: Status)
      modifies this
      ensures Charged(status, State()) == ChargeText(Charged(Fine, old(State())), size)
    {
      if size > MAX_TEXT { return Unavailable; }
      textBytes := textBytes - size;
      return if textBytes < 0 then OverBudget else Fine;
    }

    method Response(size: nat) returns (status: Status)
      modifies this
      ensures Charged(status, State()) == ChargeResponse(Charged(Fine, old(State())), size)
    {
      responseBytes := responseBytes - size;
      return if responseBytes < 0 then OverBudget else Fine;
    }

    method Material(size: nat) returns (status: Status)
      modifies this
      ensures Charged(status, State()) == ChargeMaterial(Charged(Fine, old(State())), size)
    {
      materializationBytes := materializationBytes - size;
      return if materializationBytes < 0 then OverBudget else Fine;
    }
  }

  // ---- a walk that has failed stays failed ----

  lemma {:induction false} ItemsStop(items: seq<Arrow>, i: nat, c: Charged, depth: nat)
    requires i <= |items| && PreflightItems(items[..i], c, depth).status != Fine
    ensures PreflightItems(items, c, depth) == PreflightItems(items[..i], c, depth)
  {
    if i == |items| {
      assert items[..i] == items;
    } else {
      var n := |items| - 1;
      assert items[..n][..i] == items[..i];
      ItemsStop(items[..n], i, c, depth);
    }
  }

  lemma {:induction false} FieldsStop(fields: seq<Field>, i: nat, c: Charged, depth: nat)
    requires i <= |fields| && PreflightFields(fields[..i], c, depth).status != Fine
    ensures PreflightFields(fields, c, depth) == PreflightFields(fields[..i], c, depth)
  {
    if i == |fields| {
      assert fields[..i] == fields;
    } else {
      var n := |fields| - 1;
      assert fields[..n][..i] == fields[..i];
      FieldsStop(fields[..n], i, c, depth);
    }
  }

  lemma {:induction false} EntriesStop(entries: seq<Entry>, i: nat, c: Charged, depth: nat)
    requires i <= |entries| && PreflightEntries(entries[..i], c, depth).status != Fine
    ensures PreflightEntries(entries, c, depth) == PreflightEntries(entries[..i], c, depth)
  {
    if i == |entries| {
      assert entries[..i] == entries;
    } else {
      var n := |entries| - 1;
      assert entries[..n][..i] == entries[..i];
      EntriesStop(entries[..n], i, c, depth);
    }
  }

  lemma {:induction false} ConversionStops(items: seq<Py>, i: nat, s: Spend, depth: nat)
    requires i <= |items| && JsonSafeItems(items[..i], s, depth).status != Fine
    ensures JsonSafeItems(items, s, depth).status == JsonSafeItems(items[..i], s, depth).status
    ensures JsonSafeItems(items, s, depth).left == JsonSafeItems(items[..i], s, depth).left
  {
    if i == |items| {
      assert items[..i] == items;
    } else {
      var n := |items| - 1;
      assert items[..n][..i] == items[..i];
      ConversionStops(items[..n], i, s, depth);
    }
  }

  lemma {:induction false} FieldConversionStops(fields: seq<PField>, i: nat, s: Spend, depth: nat)
    requires i <= |fields| && JsonSafeFields(fields[..i], s, depth).status != Fine
    ensures JsonSafeFields(fields, s, depth).status == JsonSafeFields(fields[..i], s, depth).status
    ensures JsonSafeFields(fields, s, depth).left == JsonSafeFields(fields[..i], s, depth).left
  {
    if i == |fields| {
      assert fields[..i] == fields;
    } else {
      var n := |fields| - 1;
      assert fields[..n][..i] == fields[..i];
      FieldConversionStops(fields[..n], i, s, depth);
    }
  }

  // ---- the preflight walk ----

  method PreflightText(probe: PreflightBudget, size: nat, response: nat) returns (status: Status)
    modifies probe
    ensures Charged(status, probe.State()) ==
      ChargeResponse(ChargeMaterial(ChargeText(Charged(Fine, old(probe.State())), size), size), response)
  {
    status := probe.Text(size);
    if status != Fine { return; }
    status := probe.Material(size);
    if status != Fine { return; }
    status := probe.Response(response);
  }

  method PreflightBinary(probe: PreflightBudget, size: nat) returns (status: Status)
    modifies probe
    ensures Charged(status, probe.State()) == PreflightLeaf(Binary(size), Charged(Fine, old(probe.State())))
  {
    if size > MAX_TEXT { return Unavailable; }
    status := probe.Material(size);
    if status != Fine { return; }
    var placeholder := Placeholder(size);
    status := probe.Text(|placeholder|);
    if status != Fine { return; }
    status := probe.Response(|placeholder| + 2);
  }

  method PreflightScalar(v: Scalar, probe: PreflightBudget) returns (status: Status)
    modifies probe
    ensures Charged(status, probe.State()) == PreflightLeaf(v, Charged(Fine, old(probe.State())))
  {
    match v
    case Null => status := probe.Response(4);
    case Boolean(_) => status := probe.Response(5);
    case Integer(_) => status := probe.Response(21);
    case Floating(_) => status := probe.Response(32);
    case Decimal(precision, scale, _, _, _) =>
      var size := DecimalText(precision, scale);
      status := PreflightText(probe, size, size + 2);
    case Temporal(_, _) => status := PreflightText(probe, 64, 66);
    case Uuid(_) => status := PreflightText(probe, 36, 38);
    case Str(bytes, _) =>
      var encoded := EscapedJsonStringSize(bytes, 0, |bytes|);
      assert bytes[0..|bytes|] == bytes;
      status := PreflightText(probe, |bytes|, encoded);
    case Binary(size) => status := PreflightBinary(probe, size);
    case Unsupported => status := Unavailable;
  }

  method PreflightValue(v: Arrow, probe: PreflightBudget, depth: nat) returns (status: Status)
    modifies probe
    ensures Charged(status, probe.State()) == Preflight(v, Charged(Fine, old(probe.State())), depth)
    decreases v, 1
  {
    status := probe.Node(depth);
    if status != Fine { return; }
    match v
    case Leaf(scalar) => status := PreflightScalar(scalar, probe);
    case List(items) =>
      if |items| > MAX_ITEMS {
        ItemsStop(items, 0, Charged(Unavailable, probe.State()), depth + 1);
        return Unavailable;
      }
      status := probe.Response(2 + Max0(|items| - 1));
      if status != Fine {
        ItemsStop(items, 0, Charged(status, probe.State()), depth + 1);
        return;
      }
      status := WalkItems(items, probe, depth + 1);
    case Struct(fields) =>
      if |fields| > MAX_ITEMS {
        FieldsStop(fields, 0, Charged(Unavailable, probe.State()), depth + 1);
        return Unavailable;
      }
      status := probe.Response(2 + Max0(|fields| - 1) + |fields|);
      if status != Fine {
        FieldsStop(fields, 0, Charged(status, probe.State()), depth + 1);
        return;
      }
      status := WalkFields(fields, probe, depth + 1);
    case Map(entries) =>
      if |entries| > MAX_ITEMS {
        EntriesStop(entries, 0, Charged(Unavailable, probe.State()), depth);
        return Unavailable;
      }
      status := probe.Response(2 + Max0(|entries| - 1));
      if status != Fine {
        EntriesStop(entries, 0, Charged(status, probe.State()), depth);
        return;
      }
      status := WalkEntries(entries, probe, depth);
    case Dictionary(target) =>
      status := PreflightValue(target, probe, depth);
      if status == Fine { probe.nodes := probe.nodes + 1; }
  }

  method WalkItems(items: seq<Arrow>, probe: PreflightBudget, depth: nat) returns (status: Status)
    modifies probe
    ensures Charged(status, probe.State()) == PreflightItems(items, Charged(Fine, old(probe.State())), depth)
    decreases items, 0
  {
    ghost var start := Charged(Fine, probe.State());
    status := Fine;
    for i := 0 to |items|
      invariant status == Fine && Charged(Fine, probe.State()) == PreflightItems(items[..i], start, depth)
    {
      assert items[..i + 1][..i] == items[..i];
      status := PreflightValue(items[i], probe, depth);
      if status != Fine {
        ItemsStop(items, i + 1, start, depth);
        return;
      }
    }
    assert items[..|items|] == items;
  }

  method WalkFields(fields: seq<Field>, probe: PreflightBudget, depth: nat) returns (status: Status)
    modifies probe
    ensures Charged(status, probe.State()) == PreflightFields(fields, Charged(Fine, old(probe.State())), depth)
    decreases fields, 0
  {
    ghost var start := Charged(Fine, probe.State());
    status := Fine;
    for i := 0 to |fields|
      invariant status == Fine && Charged(Fine, probe.State()) == PreflightFields(fields[..i], start, depth)
    {
      assert fields[..i + 1][..i] == fields[..i];
      status := WalkField(fields[i], probe, depth);
      if status != Fine {
        FieldsStop(fields, i + 1, start, depth);
        return;
      }
    }
    assert fields[..|fields|] == fields;
  }

  method WalkField(f: Field, probe: PreflightBudget, depth: nat) returns (status: Status)
    modifies probe
    ensures Charged(status, probe.State()) == PreflightField(f, Charged(Fine, old(probe.State())), depth)
    decreases f, 2
  {
    status := probe.Text(|f.name|);
    if status != Fine { return; }
    var encoded := EscapedJsonStringSize(f.name, 0, |f.name|);
    assert f.name[0..|f.name|] == f.name;
    status := probe.Response(encoded);
    if status != Fine { return; }
    status := PreflightValue(f.value, probe, depth);
  }

  method WalkEntries(entries: seq<Entry>, probe: PreflightBudget, depth: nat) returns (status: Status)
    modifies probe
    ensures Charged(status, probe.State()) == PreflightEntries(entries, Charged(Fine, old(probe.State())), depth)
    decreases entries, 0
  {
    ghost var start := Charged(Fine, probe.State());
    status := Fine;
    for i := 0 to |entries|
      invariant status == Fine && Charged(Fine, probe.State()) == PreflightEntries(entries[..i], start, depth)
    {
      assert entries[..i + 1][..i] == entries[..i];
      status := WalkEntry(entries[i], probe, depth);
      if status != Fine {
        EntriesStop(entries, i + 1, start, depth);
        return;
      }
    }
    assert entries[..|entries|] == entries;
  }

  method WalkEntry(entry: Entry, probe: PreflightBudget, depth: nat) returns (status: Status)
    modifies probe
    ensures Charged(status, probe.State()) == PreflightEntry(entry, Charged(Fine, old(probe.State())), depth)
    decreases entry, 2
  {
    status := probe.Node(depth + 1);
    if status != Fine { return; }
    status := probe.Response(3);
    if status != Fine { return; }
    status := PreflightValue(entry.key, probe, depth + 2);
    if status != Fine { return; }
    status := PreflightValue(entry.item, probe, depth + 2);
  }

  /** `_preflight_arrow_row`: a fresh probe, charged for the row's columns. */
  method PreflightRow(columns: seq<Field>, budget: ExampleBudget, response: int, materialization: int)
    returns (status: Status, probe: PreflightBudget)
    ensures fresh(probe)
    ensures Charged(status, probe.State()) ==
      Preflight(Struct(columns), Charged(Fine, Charge(budget.nodes, budget.textBytes, response, materialization)), 0)
  {
    probe := new PreflightBudget(budget, response, materialization);
    ghost var start := Charged(Fine, probe.State());
    status := probe.Node(0);
    if status != Fine { return; }
    if |columns| > MAX_ITEMS {
      FieldsStop(columns, 0, Charged(Unavailable, probe.State()), 1);
      return Unavailable, probe;
    }
    status := probe.Response(2 + Max0(|columns| - 1) + |columns|);
    if status != Fine {
      FieldsStop(columns, 0, Charged(status, probe.State()), 1);
      return;
    }
    status := WalkFields(columns, probe, 1);
  }

  // ---- the conversion walk ----

  method JsonSafeScalar(v: Value, budget: ExampleBudget) returns (status: Status, value: Json)
    modifies budget
    ensures Converted(status, budget.State(), value) == JsonSafeLeaf(v, old(budget.State()))
  {
    match v
    case PNone => return Fine, JNull;
    case PBool(b) => return Fine, JBool(b);
    case PInt(n) => return Fine, JInt(n);
    case PFloat(f) =>
      if f.Finite? { return Fine, JFloat(f.text); }
      status, value := budget.Text(FloatName(f));
    case PDecimal(text, asFloat, floatText) =>
      if asFloat { return Fine, JFloat(floatText); }
      status, value := budget.Text(text);
    case PStr(bytes) => status, value := budget.Text(bytes);
    case PBytes(size) => status, value := budget.Text(Placeholder(size));
    case PTime(text) => status, value := budget.Text(text);
    case PUuid(text) => status, value := budget.Text(text);
  }

  method JsonSafeExample(p: Py, budget: ExampleBudget, depth: nat) returns (status: Status, value: Json)
    modifies budget
    ensures Converted(status, budget.State(), value) == JsonSafe(p, old(budget.State()), depth)
    decreases p, 1
  {
    value := JNull;
    budget.nodes := budget.nodes - 1;
    if budget.nodes < 0 { return OverBudget, JNull; }
    if depth > MAX_DEPTH { return Unavailable, JNull; }
    match p
    case PLeaf(leaf) => status, value := JsonSafeScalar(leaf, budget);
    case PList(items) =>
      if |items| > MAX_ITEMS { return Unavailable, JNull; }
      var js;
      status, js := ConvertEach(items, budget, depth + 1);
      value := if status == Fine then JList(js) else JNull;
    case PDict(fields) =>
      if |fields| > MAX_ITEMS { return Unavailable, JNull; }
      var js;
      status, js := ConvertEachField(fields, budget, depth + 1);
      value := if status == Fine then JDict(js) else JNull;
  }

  method ConvertEach(items: seq<Py>, budget: ExampleBudget, depth: nat) returns (status: Status, js: seq<Json>)
    modifies budget
    ensures var r := JsonSafeItems(items, old(budget.State()), depth);
      status == r.status && budget.State() == r.left && (status == Fine ==> js == r.items)
    decreases items, 0
  {
    ghost var start := budget.State();
    status, js := Fine, [];
    for i := 0 to |items|
      invariant status == Fine && ConvertedItems(Fine, budget.State(), js) == JsonSafeItems(items[..i], start, depth)
    {
      assert items[..i + 1][..i] == items[..i];
      var j;
      status, j := JsonSafeExample(items[i], budget, depth);
      if status != Fine {
        ConversionStops(items, i + 1, start, depth);
        return;
      }
      js := js + [j];
    }
    assert items[..|items|] == items;
  }

  method ConvertEachField(fields: seq<PField>, budget: ExampleBudget, depth: nat)
    returns (status: Status, js: seq<JField>)
    modifies budget
    ensures var r := JsonSafeFields(fields, old(budget.State()), depth);
      status == r.status && budget.State() == r.left && (status == Fine ==> js == r.fields)
    decreases fields, 0
  {
    ghost var start := budget.State();
    status, js := Fine, [];
    for i := 0 to |fields|
      invariant status == Fine && ConvertedFields(Fine, budget.State(), js) == JsonSafeFields(fields[..i], start, depth)
    {
      assert fields[..i + 1][..i] == fields[..i];
      var j;
      status, j := budget.Text(fields[i].key);
      if status == Fine {
        status, j := JsonSafeExample(fields[i].value, budget, depth);
      }
      if status != Fine {
        FieldConversionStops(fields, i + 1, start, depth);
        return;
      }
      js := js + [JField(fields[i].key, j)];
    }
    assert fields[..|fields|] == fields;
  }

  // ---- the reader loop ----

  type Row = seq<Field>

  /** What the loop has: the rows kept, the answer's size so far, and what is left of each budget. */
  datatype Reading = Reading(retained: seq<Json>, size: int, materialization: int, left: Spend)

  const NOTHING_READ := Reading([], 1024, RESPONSE_MAX, Spend(MAX_NODES, RESPONSE_MAX))

  function Probe(r: Reading, row: Row): Charged {
    Preflight(Struct(row), Charged(Fine, Charge(r.left.nodes, r.left.text, RESPONSE_MAX - r.size, r.materialization)),
      0)
  }

  /**
   * One row, as it should go: kept exactly when the preflight admits it and Arrow can materialise it, and then
   * converted whole. There is no other way out.
   */
  function Read(r: Reading, row: Row): Reading {
    var probe := Probe(r, row);
    if probe.status != Fine then r
    else
      var r' := r.(materialization := probe.left.materialization);
      match MaterializeRow(row)
      case None => r'
      case Some(fs) =>
        var j := Convert(PDict(fs));
        Reading(r.retained + [j], r.size + |Encode(j)|, r'.materialization, Less(r.left, CostOf(j)))
  }

  function ReadRows(r: Reading, rows: seq<Row>): Reading {
    if rows == [] then r else Read(ReadRows(r, rows[..|rows| - 1]), rows[|rows| - 1])
  }

  function ReadBatches(r: Reading, batches: seq<seq<Row>>): Reading {
    if batches == [] then r else ReadRows(ReadBatches(r, batches[..|batches| - 1]), batches[|batches| - 1])
  }

  lemma NextRow(r: Reading, rows: seq<Row>, i: nat)
    requires i < |rows|
    ensures ReadRows(r, rows[..i + 1]) == Read(ReadRows(r, rows[..i]), rows[i])
  {
    assert rows[..i + 1][..i] == rows[..i];
  }

  lemma NextBatch(r: Reading, batches: seq<seq<Row>>, b: nat)
    requires b < |batches|
    ensures ReadBatches(r, batches[..b + 1]) == ReadRows(ReadBatches(r, batches[..b]), batches[b])
  {
    assert batches[..b + 1][..b] == batches[..b];
  }

  function TotalSize(js: seq<Json>): nat {
    if js == [] then 0 else TotalSize(js[..|js| - 1]) + |Encode(js[|js| - 1])|
  }

  ghost predicate RowRendered(row: Row) {
    forall i :: 0 <= i < |row| ==> LeavesRendered(row[i].value)
  }

  /** The answer fits, and the text spent never exceeds the answer's size beyond its first 1024 bytes. */
  ghost predicate WithinBounds(r: Reading) {
    && r.size == 1024 + TotalSize(r.retained) <= RESPONSE_MAX
    && RESPONSE_MAX - r.left.text <= r.size - 1024
    && 0 <= r.left.nodes
  }

  lemma ReadKeepsBounds(r: Reading, row: Row)
    requires WithinBounds(r) && RowRendered(row)
    ensures WithinBounds(Read(r, row))
    ensures Probe(r, row).status == Fine && MaterializeRow(row).Some? ==>
      && JsonSafe(PDict(MaterializeRow(row).value), r.left, 0) ==
         Converted(Fine, Read(r, row).left, Convert(PDict(MaterializeRow(row).value)))
      && r.size + |Encode(Convert(PDict(MaterializeRow(row).value)))| <= RESPONSE_MAX
  {
    var c := Charge(r.left.nodes, r.left.text, RESPONSE_MAX - r.size, r.materialization);
    if Probe(r, row).status == Fine && MaterializeRow(row).Some? {
      var fs := MaterializeRow(row).value;
      RowConverts(row, fs, c, r.left);
      ConversionIsExact(PDict(fs), r.left, 0);
      var j := Convert(PDict(fs));
      assert (r.retained + [j])[..|r.retained|] == r.retained;
      PreflightIsExact(Struct(row), Charged(Fine, c), 0);
      RowCovers(row, fs);
    }
  }

  /** What one turn of the loop does: keep a row, skip it, or end the whole loop early. */
  datatype Turn = Keep(row: Json, size: nat) | Skip | Stop

  method ReadRow(row: Row, budget: ExampleBudget, ghost retained: seq<Json>, size: int, materialization: int)
    returns (turn: Turn, materialization': int)
    requires RowRendered(row) && WithinBounds(Reading(retained, size, materialization, budget.State()))
    modifies budget
    ensures turn != Stop
    ensures Read(Reading(retained, size, materialization, old(budget.State())), row) ==
      match turn
      case Keep(j, n) => Reading(retained + [j], size + n, materialization', budget.State())
      case _ => Reading(retained, size, materialization', budget.State())
  {
    ReadKeepsBounds(Reading(retained, size, materialization, budget.State()), row);
    materialization' := materialization;
    var status, probe := PreflightRow(row, budget, RESPONSE_MAX - size, materialization);
    if status != Fine { return Skip, materialization'; }
    materialization' := probe.materializationBytes;
    var materialized := MaterializeRow(row);
    if materialized.None? { return Skip, materialization'; }
    var normalized;
    status, normalized := JsonSafeExample(PDict(materialized.value), budget, 0);
    if status == OverBudget { return Stop, materialization'; }
    if status == Unavailable { return Skip, materialization'; }
    var encoded := Encode(normalized);
    if size + |encoded| > RESPONSE_MAX { return Stop, materialization'; }
    return Keep(normalized, |encoded|), materialization';
  }

  /**
   * `_bounded_arrow_rows`. It ends where the loop without early returns ends, so neither return is ever taken: every
   * row that is admitted and materialises is kept, however many rows were refused before it.
   */
  method BoundedArrowRows(reader: seq<seq<Row>>) returns (retained: seq<Json>)
    requires forall b :: 0 <= b < |reader| ==> forall i :: 0 <= i < |reader[b]| ==> RowRendered(reader[b][i])
    ensures retained == ReadBatches(NOTHING_READ, reader).retained
    ensures 1024 + TotalSize(retained) <= RESPONSE_MAX
  {
    retained := [];
    var size, materialization := 1024, RESPONSE_MAX;
    var budget := new ExampleBudget();
    for b := 0 to |reader|
      invariant fresh(budget)
      invariant Reading(retained, size, materialization, budget.State()) == ReadBatches(NOTHING_READ, reader[..b])
      invariant WithinBounds(Reading(retained, size, materialization, budget.State()))
    {
      ghost var start := ReadBatches(NOTHING_READ, reader[..b]);
      var batch := reader[b];
      for i := 0 to |batch|
        invariant fresh(budget)
        invariant Reading(retained, size, materialization, budget.State()) == ReadRows(start, batch[..i])
        invariant WithinBounds(Reading(retained, size, materialization, budget.State()))
      {
        NextRow(start, batch, i);
        ReadKeepsBounds(Reading(retained, size, materialization, budget.State()), batch[i]);
        var turn;
        turn, materialization := ReadRow(batch[i], budget, retained, size, materialization);
        match turn
        case Stop => return;
        case Skip =>
        case Keep(j, n) =>
          retained := retained + [j];
          size := size + n;
      }
      assert batch[..|batch|] == batch;
      NextBatch(NOTHING_READ, reader, b);
    }
    assert reader[..|reader|] == reader;
  }
}
