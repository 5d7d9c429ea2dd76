/**
 * Preflight dominates conversion.
 *
 * Both walks are summarised by what they cost: `CostOf` says what converting to
 * a JSON document spends and how long its text is, `Price` says what the
 * preflight charges. Each walk is shown to be exact for its summary, and the
 * price is shown to cover the cost.
 */
module PreflightCost {
  import opened Options
  import opened Json
  import opened Renderings
  import opened PreflightModel

  // ---- the document a Python value converts to, when nothing stops it ----

  function ConvertLeaf(v: Value): Json {
    match v
    case PNone => JNull
    case PBool(b) => JBool(b)
    case PInt(n) => JInt(n)
    case PFloat(f) => if f.Finite? then JFloat(f.text) else JText(FloatName(f))
    case PDecimal(text, asFloat, floatText) => if asFloat then JFloat(floatText) else JText(text)
    case PStr(bytes) => JText(bytes)
    case PBytes(size) => JText(Placeholder(size))
    case PTime(text) => JText(text)
    case PUuid(text) => JText(text)
  }

  function Convert(p: Py): Json
    decreases p, 1
  {
    match p
    case PLeaf(leaf) => ConvertLeaf(leaf)
    case PList(items) => JList(ConvertItems(items))
    case PDict(fields) => JDict(ConvertFields(fields))
  }

  function ConvertItems(items: seq<Py>): (r: seq<Json>)
    ensures |r| == |items|
    decreases items, 0
  {
    if items == [] then []
    else ConvertItems(items[..|items| - 1]) + [Convert(items[|items| - 1])]
  }

  function ConvertFields(fields: seq<PField>): (r: seq<JField>)
    ensures |r| == |fields|
    decreases fields, 0
  {
    if fields == [] then []
    else
      var f := fields[|fields| - 1];
      ConvertFields(fields[..|fields| - 1]) + [JField(f.key, Convert(f.value))]
  }

  // ---- its cost: nodes, text bytes, and the size of the encoded document ----

  datatype Cost = Cost(nodes: nat, text: nat, size: nat)

  function Plus(a: Cost, b: Cost): Cost {
    Cost(a.nodes + b.nodes, a.text + b.text, a.size + b.size)
  }

  function CostOf(j: Json): Cost
    decreases j, 1
  {
    match j
    case JText(bytes) => Cost(1, |bytes|, |Encode(j)|)
    case JList(items) => Plus(Cost(1, 0, 2 + Max0(|items| - 1)), ItemsCost(items))
    case JDict(fields) => Plus(Cost(1, 0, 2 + Max0(|fields| - 1)), FieldsCost(fields))
    case _ => Cost(1, 0, |Encode(j)|)
  }

  function ItemsCost(items: seq<Json>): Cost
    decreases items, 0
  {
    if items == [] then Cost(0, 0, 0)
    else Plus(ItemsCost(items[..|items| - 1]), CostOf(items[|items| - 1]))
  }

  function FieldCost(f: JField): Cost
    decreases f, 2
  {
    Plus(Cost(0, |f.key|, |JsonString(f.key)| + 1), CostOf(f.value))
  }

  function FieldsCost(fields: seq<JField>): Cost
    decreases fields, 0
  {
    if fields == [] then Cost(0, 0, 0)
    else Plus(FieldsCost(fields[..|fields| - 1]), FieldCost(fields[|fields| - 1]))
  }

  /** The size in the cost is the length of the encoded text, and text bytes are part of it. */
  lemma {:induction false} SizeIsExact(j: Json)
    ensures CostOf(j).size == |Encode(j)| && CostOf(j).text <= |Encode(j)|
    decreases j, 1
  {
    match j
    case JText(bytes) => EscapeGrows(bytes);
    case JList(items) => ItemsSize(items);
    case JDict(fields) => FieldsSize(fields);
    case _ =>
  }

  lemma {:induction false} ItemsSize(items: seq<Json>)
    ensures |EncodeItems(items)| == ItemsCost(items).size + Max0(|items| - 1)
      && ItemsCost(items).text <= ItemsCost(items).size
    decreases items, 0
  {
    if items != [] {
      var n := |items| - 1;
      ItemsSize(items[..n]);
      SizeIsExact(items[n]);
      assert n == 0 ==> items[..n] == [];
    }
  }

  lemma {:induction false} FieldSize(f: JField)
    ensures FieldCost(f).size == |EncodeField(f)| && FieldCost(f).text <= FieldCost(f).size
    decreases f, 2
  {
    SizeIsExact(f.value);
    EscapeGrows(f.key);
  }

  lemma {:induction false} FieldsSize(fields: seq<JField>)
    ensures |EncodeFields(fields)| == FieldsCost(fields).size + Max0(|fields| - 1)
      && FieldsCost(fields).text <= FieldsCost(fields).size
    decreases fields, 0
  {
    if fields != [] {
      var n := |fields| - 1;
      FieldsSize(fields[..n]);
      FieldSize(fields[n]);
      assert n == 0 ==> fields[..n] == [];
    }
  }

  /** Within the depth, container and scalar bounds that conversion enforces. */
  ghost predicate Fits(j: Json, depth: nat)
    decreases j, 1
  {
    depth <= MAX_DEPTH &&
    match j
    case JText(bytes) => |bytes| <= MAX_TEXT
    case JList(items) => |items| <= MAX_ITEMS && ItemsFit(items, depth + 1)
    case JDict(fields) => |fields| <= MAX_ITEMS && FieldsFit(fields, depth + 1)
    case _ => true
  }

  ghost predicate ItemsFit(items: seq<Json>, depth: nat)
    decreases items, 0
  {
    items == [] || (ItemsFit(items[..|items| - 1], depth) && Fits(items[|items| - 1], depth))
  }

  ghost predicate FieldFits(f: JField, depth: nat)
    decreases f, 2
  {
    |f.key| <= MAX_TEXT && Fits(f.value, depth)
  }

  ghost predicate FieldsFit(fields: seq<JField>, depth: nat)
    decreases fields, 0
  {
    fields == [] || (FieldsFit(fields[..|fields| - 1], depth) && FieldFits(fields[|fields| - 1], depth))
  }

  // ---- conversion succeeds exactly when the value fits and the budget covers its cost ----

  ghost predicate Covers(s: Spend, c: Cost) {
    c.nodes <= s.nodes && c.text <= s.text
  }

  function Less(s: Spend, c: Cost): Spend {
    Spend(s.nodes - c.nodes, s.text - c.text)
  }

  /** A walk from `s` went through exactly when the bounds hold and `s` covers the cost, and then spent just that. */
  ghost predicate Exact(fine: bool, s: Spend, left: Spend, fits: bool, c: Cost) {
    && (fine <==> fits && Covers(s, c))
    && (fine ==> left == Less(s, c))
  }

  ghost predicate ValueExact(p: Py, s: Spend, depth: nat) {
    var r, j := JsonSafe(p, s, depth), Convert(p);
    Exact(r.status == Fine, s, r.left, Fits(j, depth), CostOf(j)) && (r.status == Fine ==> r.value == j)
  }

  ghost predicate ItemsExact(items: seq<Py>, s: Spend, depth: nat) {
    var r, js := JsonSafeItems(items, s, depth), ConvertItems(items);
    Exact(r.status == Fine, s, r.left, ItemsFit(js, depth), ItemsCost(js)) && (r.status == Fine ==> r.items == js)
  }

  ghost predicate FieldsExact(fields: seq<PField>, s: Spend, depth: nat) {
    var r, js := JsonSafeFields(fields, s, depth), ConvertFields(fields);
    Exact(r.status == Fine, s, r.left, FieldsFit(js, depth), FieldsCost(js)) && (r.status == Fine ==> r.fields == js)
  }

  lemma {:induction false} ConversionIsExact(p: Py, s: Spend, depth: nat)
    requires 0 <= s.text
    ensures ValueExact(p, s, depth)
    decreases p, 1
  {
    var s' := s.(nodes := s.nodes - 1);
    match p
    case PList(items) =>
      if 0 <= s'.nodes { ItemsAreExact(items, s', depth + 1); }
      ListIsExact(items, s, depth);
    case PDict(fields) =>
      if 0 <= s'.nodes { FieldsAreExact(fields, s', depth + 1); }
      DictIsExact(fields, s, depth);
    case PLeaf(leaf) => LeafIsConverted(leaf, s, depth);
  }

  lemma LeafIsConverted(v: Value, s: Spend, depth: nat)
    requires 0 <= s.text
    ensures ValueExact(PLeaf(v), s, depth)
  {
  }

  lemma ListIsExact(items: seq<Py>, s: Spend, depth: nat)
    requires 0 <= s.text && (1 <= s.nodes ==> ItemsExact(items, s.(nodes := s.nodes - 1), depth + 1))
    ensures ValueExact(PList(items), s, depth)
  {
    var js := ConvertItems(items);
    assert CostOf(JList(js)) == Plus(Cost(1, 0, 2 + Max0(|js| - 1)), ItemsCost(js));
  }

  lemma DictIsExact(fields: seq<PField>, s: Spend, depth: nat)
    requires 0 <= s.text && (1 <= s.nodes ==> FieldsExact(fields, s.(nodes := s.nodes - 1), depth + 1))
    ensures ValueExact(PDict(fields), s, depth)
  {
    var js := ConvertFields(fields);
    assert CostOf(JDict(js)) == Plus(Cost(1, 0, 2 + Max0(|js| - 1)), FieldsCost(js));
  }

  lemma {:induction false} ItemsAreExact(items: seq<Py>, s: Spend, depth: nat)
    requires 0 <= s.text && 0 <= s.nodes
    ensures ItemsExact(items, s, depth)
    decreases items, 0
  {
    if items != [] {
      var n := |items| - 1;
      ItemsAreExact(items[..n], s, depth);
      var r := JsonSafeItems(items[..n], s, depth);
      if r.status == Fine { ConversionIsExact(items[n], r.left, depth); }
      LastItemIsExact(items, s, depth);
    }
  }

  lemma LastItemIsExact(items: seq<Py>, s: Spend, depth: nat)
    requires items != [] && 0 <= s.text && 0 <= s.nodes && ItemsExact(items[..|items| - 1], s, depth)
    requires var r := JsonSafeItems(items[..|items| - 1], s, depth);
      r.status == Fine ==> ValueExact(items[|items| - 1], r.left, depth)
    ensures ItemsExact(items, s, depth)
  {
    var n := |items| - 1;
    var front, last := ConvertItems(items[..n]), Convert(items[n]);
    assert ConvertItems(items) == front + [last] && (front + [last])[..n] == front;
    assert ItemsCost(front + [last]) == Plus(ItemsCost(front), CostOf(last));
    assert ItemsFit(front + [last], depth) <==> ItemsFit(front, depth) && Fits(last, depth);
  }

  lemma {:induction false} FieldsAreExact(fields: seq<PField>, s: Spend, depth: nat)
    requires 0 <= s.text && 0 <= s.nodes
    ensures FieldsExact(fields, s, depth)
    decreases fields, 0
  {
    if fields != [] {
      var n := |fields| - 1;
      FieldsAreExact(fields[..n], s, depth);
      var r := JsonSafeFields(fields[..n], s, depth);
      if r.status == Fine {
        var k := SpendText(r.left, fields[n].key);
        if k.status == Fine { ConversionIsExact(fields[n].value, k.left, depth); }
      }
      LastFieldIsExact(fields, s, depth);
    }
  }

  lemma LastFieldIsExact(fields: seq<PField>, s: Spend, depth: nat)
    requires fields != [] && 0 <= s.text && 0 <= s.nodes && FieldsExact(fields[..|fields| - 1], s, depth)
    requires var r := JsonSafeFields(fields[..|fields| - 1], s, depth);
      var f := fields[|fields| - 1];
      r.status == Fine && SpendText(r.left, f.key).status == Fine ==>
        ValueExact(f.value, SpendText(r.left, f.key).left, depth)
    ensures FieldsExact(fields, s, depth)
  {
    var n := |fields| - 1;
    var front, last := ConvertFields(fields[..n]), JField(fields[n].key, Convert(fields[n].value));
    assert ConvertFields(fields) == front + [last] && (front + [last])[..n] == front;
    assert FieldsCost(front + [last]) == Plus(FieldsCost(front), FieldCost(last));
    assert FieldsFit(front + [last], depth) <==> FieldsFit(front, depth) && FieldFits(last, depth);
  }

  // ---- what the preflight charges ----

  datatype Total = Total(nodes: nat, text: nat, response: nat, materialization: nat)

  function Add(a: Total, b: Total): Total {
    Total(a.nodes + b.nodes, a.text + b.text, a.response + b.response, a.materialization + b.materialization)
  }

  function LeafPrice(v: Scalar): Total {
    match v
    case Null => Total(1, 0, 4, 0)
    case Boolean(_) => Total(1, 0, 5, 0)
    case Integer(_) => Total(1, 0, 21, 0)
    case Floating(_) => Total(1, 0, 32, 0)
    case Decimal(precision, scale, _, _, _) =>
      var n := DecimalText(precision, scale);
      Total(1, n, n + 2, n)
    case Temporal(_, _) => Total(1, 64, 66, 64)
    case Uuid(_) => Total(1, 36, 38, 36)
    case Str(bytes, _) => Total(1, |bytes|, |JsonString(bytes)|, |bytes|)
    case Binary(size) => Total(1, |Placeholder(size)|, |Placeholder(size)| + 2, size)
    case Unsupported => Total(1, 0, 0, 0)
  }

  function Price(v: Arrow): Total
    decreases v, 1
  {
    match v
    case Leaf(scalar) => LeafPrice(scalar)
    case List(items) => Add(Total(1, 0, 2 + Max0(|items| - 1), 0), ItemsPrice(items))
    case Struct(fields) => Add(Total(1, 0, 2 + Max0(|fields| - 1) + |fields|, 0), FieldsPrice(fields))
    case Map(entries) => Add(Total(1, 0, 2 + Max0(|entries| - 1), 0), EntriesPrice(entries))
    case Dictionary(target) => Price(target)
  }

  function ItemsPrice(items: seq<Arrow>): Total
    decreases items, 0
  {
    if items == [] then Total(0, 0, 0, 0)
    else Add(ItemsPrice(items[..|items| - 1]), Price(items[|items| - 1]))
  }

  function FieldPrice(f: Field): Total
    decreases f, 2
  {
    Add(Total(0, |f.name|, |JsonString(f.name)|, 0), Price(f.value))
  }

  function FieldsPrice(fields: seq<Field>): Total
    decreases fields, 0
  {
    if fields == [] then Total(0, 0, 0, 0)
    else Add(FieldsPrice(fields[..|fields| - 1]), FieldPrice(fields[|fields| - 1]))
  }

  function EntryPrice(entry: Entry): Total
    decreases entry, 2
  {
    Add(Total(1, 0, 3, 0), Add(Price(entry.key), Price(entry.item)))
  }

  function EntriesPrice(entries: seq<Entry>): Total
    decreases entries, 0
  {
    if entries == [] then Total(0, 0, 0, 0)
    else Add(EntriesPrice(entries[..|entries| - 1]), EntryPrice(entries[|entries| - 1]))
  }

  /** Within the bounds that the preflight enforces. */
  ghost predicate LeafAdmissible(v: Scalar) {
    match v
    case Decimal(precision, scale, _, _, _) => DecimalText(precision, scale) <= MAX_TEXT
    case Str(bytes, _) => |bytes| <= MAX_TEXT
    case Binary(size) => |Placeholder(size)| <= MAX_TEXT
    case Unsupported => false
    case _ => true
  }

  ghost predicate Admissible(v: Arrow, depth: nat)
    decreases v, 1
  {
    depth <= MAX_DEPTH &&
    match v
    case Leaf(scalar) => LeafAdmissible(scalar)
    case List(items) => |items| <= MAX_ITEMS && ItemsAdmissible(items, depth + 1)
    case Struct(fields) => |fields| <= MAX_ITEMS && FieldsAdmissible(fields, depth + 1)
    case Map(entries) => |entries| <= MAX_ITEMS && EntriesAdmissible(entries, depth)
    case Dictionary(target) => Admissible(target, depth)
  }

  ghost predicate ItemsAdmissible(items: seq<Arrow>, depth: nat)
    decreases items, 0
  {
    items == [] || (ItemsAdmissible(items[..|items| - 1], depth) && Admissible(items[|items| - 1], depth))
  }

  ghost predicate FieldAdmissible(f: Field, depth: nat)
    decreases f, 2
  {
    |f.name| <= MAX_TEXT && Admissible(f.value, depth)
  }

  ghost predicate FieldsAdmissible(fields: seq<Field>, depth: nat)
    decreases fields, 0
  {
    fields == [] || (FieldsAdmissible(fields[..|fields| - 1], depth) && FieldAdmissible(fields[|fields| - 1], depth))
  }

  ghost predicate EntryAdmissible(entry: Entry, depth: nat)
    decreases entry, 2
  {
    depth + 1 <= MAX_DEPTH && Admissible(entry.key, depth + 2) && Admissible(entry.item, depth + 2)
  }

  ghost predicate EntriesAdmissible(entries: seq<Entry>, depth: nat)
    decreases entries, 0
  {
    entries == [] || (EntriesAdmissible(entries[..|entries| - 1], depth)
      && EntryAdmissible(entries[|entries| - 1], depth))
  }

  /** One walk left `d` where it found `c`: it went through, and took exactly `t` from every budget. */
  ghost predicate Charges(c: Charged, d: Charged, t: Total) {
    && c.status == Fine
    && d.left.nodes == c.left.nodes - t.nodes
    && d.left.text == c.left.text - t.text
    && d.left.response == c.left.response - t.response
    && d.left.materialization == c.left.materialization - t.materialization
    && (0 <= c.left.response ==> 0 <= d.left.response)
    && (0 <= c.left.nodes ==> 0 <= d.left.nodes)
  }

  lemma LeafIsExact(v: Scalar, c: Charged)
    requires PreflightLeaf(v, ChargeNode(c)).status == Fine
    ensures Charges(c, PreflightLeaf(v, ChargeNode(c)), LeafPrice(v)) && LeafAdmissible(v)
  {
    if v.Str? || v.Binary? { TextIsExact(v, c); }
  }

  lemma TextIsExact(v: Scalar, c: Charged)
    requires (v.Str? || v.Binary?) && PreflightLeaf(v, ChargeNode(c)).status == Fine
    ensures Charges(c, PreflightLeaf(v, ChargeNode(c)), LeafPrice(v)) && LeafAdmissible(v)
  {
  }

  lemma OpenIsExact(c: Charged, depth: nat, n: nat, punctuation: nat, d: Charged, t: Total)
    requires Charges(Open(Enter(c, depth), n, punctuation), d, t)
    ensures Charges(c, d, Add(Total(1, 0, punctuation, 0), t)) && depth <= MAX_DEPTH && n <= MAX_ITEMS
  {
  }

  lemma {:induction false} PreflightIsExact(v: Arrow, c: Charged, depth: nat)
    requires Preflight(v, c, depth).status == Fine
    ensures Charges(c, Preflight(v, c, depth), Price(v)) && Admissible(v, depth)
    decreases v, 1
  {
    match v
    case Leaf(scalar) => LeafIsExact(scalar, c);
    case List(items) => ListPriced(items, c, depth);
    case Struct(fields) => StructPriced(fields, c, depth);
    case Map(entries) => MapPriced(entries, c, depth);
    case Dictionary(target) => PreflightIsExact(target, Enter(c, depth), depth);
  }

  lemma {:induction false} ListPriced(items: seq<Arrow>, c: Charged, depth: nat)
    requires PreflightItems(items, Open(Enter(c, depth), |items|, 2 + Max0(|items| - 1)), depth + 1).status == Fine
    ensures Charges(c, PreflightItems(items, Open(Enter(c, depth), |items|, 2 + Max0(|items| - 1)), depth + 1),
      Price(List(items)))
    ensures Admissible(List(items), depth)
    decreases items, 1
  {
    var o := Open(Enter(c, depth), |items|, 2 + Max0(|items| - 1));
    PreflightItemsIsExact(items, o, depth + 1);
    OpenIsExact(c, depth, |items|, 2 + Max0(|items| - 1), PreflightItems(items, o, depth + 1), ItemsPrice(items));
  }

  lemma {:induction false} StructPriced(fields: seq<Field>, c: Charged, depth: nat)
    requires PreflightFields(fields, Open(Enter(c, depth), |fields|, 2 + Max0(|fields| - 1) + |fields|),
      depth + 1).status == Fine
    ensures Charges(c, PreflightFields(fields, Open(Enter(c, depth), |fields|, 2 + Max0(|fields| - 1) + |fields|),
      depth + 1), Price(Struct(fields)))
    ensures Admissible(Struct(fields), depth)
    decreases fields, 1
  {
    var o := Open(Enter(c, depth), |fields|, 2 + Max0(|fields| - 1) + |fields|);
    PreflightFieldsIsExact(fields, o, depth + 1);
    OpenIsExact(c, depth, |fields|, 2 + Max0(|fields| - 1) + |fields|, PreflightFields(fields, o, depth + 1),
      FieldsPrice(fields));
  }

  lemma {:induction false} MapPriced(entries: seq<Entry>, c: Charged, depth: nat)
    requires PreflightEntries(entries, Open(Enter(c, depth), |entries|, 2 + Max0(|entries| - 1)), depth).status == Fine
    ensures Charges(c, PreflightEntries(entries, Open(Enter(c, depth), |entries|, 2 + Max0(|entries| - 1)), depth),
      Price(Map(entries)))
    ensures Admissible(Map(entries), depth)
    decreases entries, 1
  {
    var o := Open(Enter(c, depth), |entries|, 2 + Max0(|entries| - 1));
    PreflightEntriesIsExact(entries, o, depth);
    OpenIsExact(c, depth, |entries|, 2 + Max0(|entries| - 1), PreflightEntries(entries, o, depth),
      EntriesPrice(entries));
  }

  lemma {:induction false} PreflightItemsIsExact(items: seq<Arrow>, c: Charged, depth: nat)
    requires PreflightItems(items, c, depth).status == Fine
    ensures Charges(c, PreflightItems(items, c, depth), ItemsPrice(items)) && ItemsAdmissible(items, depth)
    decreases items, 0
  {
    if items != [] {
      var n := |items| - 1;
      var d := PreflightItems(items[..n], c, depth);
      PreflightItemsIsExact(items[..n], c, depth);
      PreflightIsExact(items[n], d, depth);
    }
  }

  lemma {:induction false} PreflightFieldsIsExact(fields: seq<Field>, c: Charged, depth: nat)
    requires PreflightFields(fields, c, depth).status == Fine
    ensures Charges(c, PreflightFields(fields, c, depth), FieldsPrice(fields)) && FieldsAdmissible(fields, depth)
    decreases fields, 0
  {
    if fields != [] {
      var n := |fields| - 1;
      PreflightFieldsIsExact(fields[..n], c, depth);
      PreflightFieldIsExact(fields[n], PreflightFields(fields[..n], c, depth), depth);
    }
  }

  lemma {:induction false} PreflightFieldIsExact(f: Field, c: Charged, depth: nat)
    requires PreflightField(f, c, depth).status == Fine
    ensures Charges(c, PreflightField(f, c, depth), FieldPrice(f)) && FieldAdmissible(f, depth)
    decreases f, 2
  {
    PreflightIsExact(f.value, ChargeResponse(ChargeText(c, |f.name|), |JsonString(f.name)|), depth);
  }

  lemma {:induction false} PreflightEntriesIsExact(entries: seq<Entry>, c: Charged, depth: nat)
    requires PreflightEntries(entries, c, depth).status == Fine
    ensures Charges(c, PreflightEntries(entries, c, depth), EntriesPrice(entries)) && EntriesAdmissible(entries, depth)
    decreases entries, 0
  {
    if entries != [] {
      var n := |entries| - 1;
      PreflightEntriesIsExact(entries[..n], c, depth);
      PreflightEntryIsExact(entries[n], PreflightEntries(entries[..n], c, depth), depth);
    }
  }

  lemma {:induction false} PreflightEntryIsExact(entry: Entry, c: Charged, depth: nat)
    requires PreflightEntry(entry, c, depth).status == Fine
    ensures Charges(c, PreflightEntry(entry, c, depth), EntryPrice(entry)) && EntryAdmissible(entry, depth)
    decreases entry, 2
  {
    var e := ChargeResponse(Enter(c, depth + 1), 3);
    PreflightIsExact(entry.key, e, depth + 2);
    PreflightIsExact(entry.item, Preflight(entry.key, e, depth + 2), depth + 2);
  }

  // ---- the price covers the cost ----

  /** Every admitted value converts within its charges: as many nodes, no longer a text, all bounds kept. */
  ghost predicate Covered(t: Total, c: Cost) {
    c.nodes == t.nodes && c.size <= t.response
  }

  lemma {:induction false} PriceCovers(v: Arrow, p: Py, depth: nat)
    requires Admissible(v, depth) && LeavesRendered(v) && Materialize(v) == Some(p)
    ensures Covered(Price(v), CostOf(Convert(p))) && Fits(Convert(p), depth)
    decreases v, 1
  {
    match v
    case Leaf(scalar) => LeafCovered(scalar, p.leaf, depth);
    case List(_) => ListCovered(v, p, depth);
    case Struct(fields) =>
      FieldsCovered(fields, p.fields, depth + 1);
      ObjectCovered(FieldsPrice(fields), |fields|, ConvertFields(p.fields), depth);
    case Map(_) => MapCovered(v, p, depth);
    case Dictionary(target) => PriceCovers(target, p, depth);
  }

  lemma {:induction false} ListCovered(v: Arrow, p: Py, depth: nat)
    requires v.List? && Admissible(v, depth) && LeavesRendered(v) && Materialize(v) == Some(p)
    ensures Covered(Price(v), CostOf(Convert(p))) && Fits(Convert(p), depth)
    decreases v, 0
  {
    ItemsCovered(v.items, p.items, depth + 1);
  }

  function ObjectPrice(t: Total, n: nat): Total {
    Add(Total(1, 0, 2 + Max0(n - 1) + n, 0), t)
  }

  /** The colons of an object's fields are part of its own charge. */
  lemma ObjectCovered(t: Total, n: nat, js: seq<JField>, depth: nat)
    requires |js| == n <= MAX_ITEMS && depth <= MAX_DEPTH && FieldsFit(js, depth + 1)
    requires Covered(Add(t, Total(0, 0, n, 0)), FieldsCost(js))
    ensures Covered(ObjectPrice(t, n), CostOf(JDict(js))) && Fits(JDict(js), depth)
  {
  }

  lemma {:induction false} MapCovered(v: Arrow, p: Py, depth: nat)
    requires v.Map? && Admissible(v, depth) && LeavesRendered(v) && Materialize(v) == Some(p)
    ensures Covered(Price(v), CostOf(Convert(p))) && Fits(Convert(p), depth)
    decreases v, 0
  {
    EntriesCovered(v.entries, p.items, depth);
  }

  /** The fixed charges cover a leaf's text. */
  ghost predicate LeafFits(v: Scalar) {
    match v
    case Integer(n) => -0x8000_0000_0000_0000 <= n < 0x1_0000_0000_0000_0000
    case Floating(f) => f.Finite? ==> |f.text| <= 32
    case Decimal(precision, scale, text, asFloat, floatText) =>
      && Plain(text) && |text| <= DecimalText(precision, scale)
      && (asFloat ==> |floatText| <= DecimalText(precision, scale) + 2)
    case Temporal(text, inRange) => inRange ==> Plain(text) && |text| <= 64
    case Uuid(text) => Plain(text) && |text| <= 36
    case _ => true
  }

  /** No rendering is longer than its fixed charge. */
  lemma RenderedFits(v: Scalar)
    requires Rendered(v)
    ensures LeafFits(v)
  {
    match v
    case Floating(f) => if f.Finite? { FloatTextFits(f.text, 17); }
    case Decimal(precision, scale, text, asFloat, floatText) =>
      DecimalTextFits(text, precision, scale);
      DecimalTextIsPlain(text, precision, scale);
      if asFloat { FloatTextFits(floatText, precision); }
    case _ =>
  }

  lemma FloatTextFits(text: seq<byte>, most: nat)
    requires IsFloatText(text, most)
    ensures |text| <= 24 && |text| <= most + 18
  {
    var negative, digits, point :| FloatWrites(negative, digits, point, most, text);
    FloatTextBound(negative, digits, point);
  }

  lemma DecimalTextFits(text: seq<byte>, precision: nat, scale: int)
    requires IsDecimalText(text, precision, scale) && precision <= 76
    ensures |text| <= DecimalText(precision, scale)
  {
    var negative, digits :| DecimalWrites(negative, digits, precision, scale, text);
    DecimalStrBound(negative, digits, precision, scale);
  }

  lemma DecimalTextIsPlain(text: seq<byte>, precision: nat, scale: int)
    requires IsDecimalText(text, precision, scale)
    ensures Plain(text)
  {
    forall negative, digits | DecimalWrites(negative, digits, precision, scale, text) ensures Plain(text) {
      WrittenIsPlain(negative, digits, precision, scale, text);
    }
  }

  lemma WrittenIsPlain(negative: bool, digits: seq<byte>, precision: nat, scale: int, text: seq<byte>)
    requires DecimalWrites(negative, digits, precision, scale, text)
    ensures Plain(text)
  {
    DecimalStrIsPlain(negative, digits, -scale);
  }

  lemma LeafCovered(v: Scalar, p: Value, depth: nat)
    requires LeafAdmissible(v) && Rendered(v) && MaterializeLeaf(v) == Some(p) && depth <= MAX_DEPTH
    ensures Covered(LeafPrice(v), CostOf(ConvertLeaf(p))) && Fits(ConvertLeaf(p), depth)
  {
    RenderedFits(v);
    if v.Temporal? || v.Uuid? || v.Str? || v.Binary? { TextCovered(v, p, depth); } else { NumberCovered(v, p, depth); }
  }

  lemma NumberCovered(v: Scalar, p: Value, depth: nat)
    requires v.Null? || v.Boolean? || v.Integer? || v.Floating? || v.Decimal?
    requires LeafAdmissible(v) && LeafFits(v) && MaterializeLeaf(v) == Some(p) && depth <= MAX_DEPTH
    ensures Covered(LeafPrice(v), CostOf(ConvertLeaf(p))) && Fits(ConvertLeaf(p), depth)
  {
    match v
    case Integer(n) => IntTextBound(n);
    case Decimal(_, _, text, _, _) => PlainSize(text);
    case Floating(f) => if !f.Finite? { PlainSize(FloatName(f)); }
    case _ =>
  }

  lemma TextCovered(v: Scalar, p: Value, depth: nat)
    requires v.Temporal? || v.Uuid? || v.Str? || v.Binary?
    requires LeafAdmissible(v) && LeafFits(v) && MaterializeLeaf(v) == Some(p) && depth <= MAX_DEPTH
    ensures Covered(LeafPrice(v), CostOf(ConvertLeaf(p))) && Fits(ConvertLeaf(p), depth)
  {
    match v
    case Temporal(text, _) => PlainSize(text);
    case Uuid(text) => PlainSize(text);
    case Binary(size) => PlaceholderIsPlain(size);
    case Str(_, _) =>
  }

  lemma PlaceholderIsPlain(size: nat)
    ensures EscapeAll(Placeholder(size)) == Placeholder(size)
  {
    DigitsArePlain(size);
    PlainSize(Placeholder(size));
  }

  lemma ConvertItemsSnoc(ps: seq<Py>, p: Py)
    ensures ConvertItems(ps + [p]) == ConvertItems(ps) + [Convert(p)]
    ensures ItemsCost(ConvertItems(ps + [p])) == Plus(ItemsCost(ConvertItems(ps)), CostOf(Convert(p)))
    ensures forall d :: ItemsFit(ConvertItems(ps), d) && Fits(Convert(p), d) ==> ItemsFit(ConvertItems(ps + [p]), d)
  {
    assert (ps + [p])[..|ps|] == ps;
    assert (ConvertItems(ps) + [Convert(p)])[..|ps|] == ConvertItems(ps);
  }

  lemma ConvertFieldsSnoc(fs: seq<PField>, f: PField)
    ensures ConvertFields(fs + [f]) == ConvertFields(fs) + [JField(f.key, Convert(f.value))]
    ensures FieldsCost(ConvertFields(fs + [f])) ==
      Plus(FieldsCost(ConvertFields(fs)), FieldCost(JField(f.key, Convert(f.value))))
    ensures forall d :: FieldsFit(ConvertFields(fs), d) && FieldFits(JField(f.key, Convert(f.value)), d) ==>
      FieldsFit(ConvertFields(fs + [f]), d)
  {
    assert (fs + [f])[..|fs|] == fs;
    assert (ConvertFields(fs) + [JField(f.key, Convert(f.value))])[..|fs|] == ConvertFields(fs);
  }

  lemma {:induction false} ItemsCovered(items: seq<Arrow>, ps: seq<Py>, depth: nat)
    requires ItemsAdmissible(items, depth) && MaterializeItems(items) == Some(ps)
    requires forall i :: 0 <= i < |items| ==> LeavesRendered(items[i])
    ensures Covered(ItemsPrice(items), ItemsCost(ConvertItems(ps))) && ItemsFit(ConvertItems(ps), depth)
    decreases items, 0
  {
    if items != [] {
      var n := |items| - 1;
      ItemsCovered(items[..n], ps[..n], depth);
      PriceCovers(items[n], ps[n], depth);
      assert ps == ps[..n] + [ps[n]];
      ConvertItemsSnoc(ps[..n], ps[n]);
    }
  }

  lemma {:induction false} FieldsCovered(fields: seq<Field>, fs: seq<PField>, depth: nat)
    requires FieldsAdmissible(fields, depth) && MaterializeFields(fields) == Some(fs)
    requires forall i :: 0 <= i < |fields| ==> LeavesRendered(fields[i].value)
    ensures Covered(Add(FieldsPrice(fields), Total(0, 0, |fields|, 0)), FieldsCost(ConvertFields(fs)))
    ensures FieldsFit(ConvertFields(fs), depth)
    decreases fields, 0
  {
    if fields == [] {
      assert FieldsPrice(fields) == Total(0, 0, 0, 0);
      assert ConvertFields(fs) == [];
      assert FieldsCost([]) == Cost(0, 0, 0);
    } else {
      var n := |fields| - 1;
      var gs, p := MaterializeFields(fields[..n]).value, Materialize(fields[n].value).value;
      FieldsCovered(fields[..n], gs, depth);
      FieldCovered(fields[n], p, depth);
      MoreFieldsCovered(FieldsPrice(fields[..n]), n, gs, FieldPrice(fields[n]), PField(fields[n].name, p), depth);
    }
  }

  lemma MoreFieldsCovered(a: Total, n: nat, fs: seq<PField>, b: Total, f: PField, depth: nat)
    requires Covered(Add(a, Total(0, 0, n, 0)), FieldsCost(ConvertFields(fs))) && FieldsFit(ConvertFields(fs), depth)
    requires Covered(Add(b, Total(0, 0, 1, 0)), FieldCost(JField(f.key, Convert(f.value))))
      && FieldFits(JField(f.key, Convert(f.value)), depth)
    ensures Covered(Add(Add(a, b), Total(0, 0, n + 1, 0)), FieldsCost(ConvertFields(fs + [f])))
      && FieldsFit(ConvertFields(fs + [f]), depth)
  {
    ConvertFieldsSnoc(fs, f);
  }

  /** The colon of a field is part of its object's response charge. */
  lemma {:induction false} FieldCovered(f: Field, p: Py, depth: nat)
    requires FieldAdmissible(f, depth) && LeavesRendered(f.value) && Materialize(f.value) == Some(p)
    ensures Covered(Add(FieldPrice(f), Total(0, 0, 1, 0)), FieldCost(JField(f.name, Convert(p))))
    ensures FieldFits(JField(f.name, Convert(p)), depth)
    decreases f, 2
  {
    PriceCovers(f.value, p, depth);
  }

  lemma {:induction false} EntriesCovered(entries: seq<Entry>, ps: seq<Py>, depth: nat)
    requires EntriesAdmissible(entries, depth) && MaterializeEntries(entries) == Some(ps)
    requires forall i :: 0 <= i < |entries| ==> LeavesRendered(entries[i].key) && LeavesRendered(entries[i].item)
    ensures Covered(EntriesPrice(entries), ItemsCost(ConvertItems(ps))) && ItemsFit(ConvertItems(ps), depth + 1)
    decreases entries, 0
  {
    if entries != [] {
      var n := |entries| - 1;
      EntriesCovered(entries[..n], ps[..n], depth);
      EntryCovered(entries[n], ps[n], depth);
      assert ps == ps[..n] + [ps[n]];
      ConvertItemsSnoc(ps[..n], ps[n]);
    }
  }

  lemma {:induction false} EntryCovered(entry: Entry, p: Py, depth: nat)
    requires EntryAdmissible(entry, depth) && MaterializeEntry(entry) == Some(p)
    requires LeavesRendered(entry.key) && LeavesRendered(entry.item)
    ensures Covered(EntryPrice(entry), CostOf(Convert(p))) && Fits(Convert(p), depth + 1)
    decreases entry, 2
  {
    var k, x := EntryParts(entry, p, depth);
    PairCovered(Price(entry.key), Price(entry.item), k, x, depth + 1);
  }

  lemma {:induction false} EntryParts(entry: Entry, p: Py, depth: nat) returns (k: Py, x: Py)
    requires EntryAdmissible(entry, depth) && MaterializeEntry(entry) == Some(p)
    requires LeavesRendered(entry.key) && LeavesRendered(entry.item)
    ensures p == PList([k, x]) && depth + 1 <= MAX_DEPTH
    ensures Covered(Price(entry.key), CostOf(Convert(k))) && Fits(Convert(k), depth + 2)
    ensures Covered(Price(entry.item), CostOf(Convert(x))) && Fits(Convert(x), depth + 2)
    decreases entry, 1
  {
    k, x := Materialize(entry.key).value, Materialize(entry.item).value;
    PriceCovers(entry.key, k, depth + 2);
    PriceCovers(entry.item, x, depth + 2);
  }

  /** A map entry materialises as a list of its key and its item. */
  lemma PairCovered(a: Total, b: Total, k: Py, x: Py, depth: nat)
    requires Covered(a, CostOf(Convert(k))) && Fits(Convert(k), depth + 1)
    requires Covered(b, CostOf(Convert(x))) && Fits(Convert(x), depth + 1) && depth <= MAX_DEPTH
    ensures Covered(Add(Total(1, 0, 3, 0), Add(a, b)), CostOf(Convert(PList([k, x]))))
      && Fits(Convert(PList([k, x])), depth)
  {
    PairConverts(k, x, depth + 1);
    assert Convert(PList([k, x])) == JList(ConvertItems([k, x])) && |ConvertItems([k, x])| == 2;
  }

  lemma OneConverts(k: Py, depth: nat)
    ensures ConvertItems([k]) == [Convert(k)] && ItemsCost([Convert(k)]) == CostOf(Convert(k))
    ensures Fits(Convert(k), depth) ==> ItemsFit([Convert(k)], depth)
  {
    ConvertItemsSnoc([], k);
    assert [] + [k] == [k] && [] + [Convert(k)] == [Convert(k)];
    assert [Convert(k)][..0] == [];
  }

  lemma PairConverts(k: Py, x: Py, depth: nat)
    ensures ItemsCost(ConvertItems([k, x])) == Plus(CostOf(Convert(k)), CostOf(Convert(x)))
    ensures Fits(Convert(k), depth) && Fits(Convert(x), depth) ==> ItemsFit(ConvertItems([k, x]), depth)
  {
    OneConverts(k, depth);
    ConvertItemsSnoc([k], x);
    assert [k] + [x] == [k, x];
  }

  // ---- rows: a later column of the same name replaces the earlier one, which only saves ----

  lemma {:induction false} ConvertFieldsAt(fs: seq<PField>, k: nat)
    requires k < |fs|
    ensures ConvertFields(fs)[k] == JField(fs[k].key, Convert(fs[k].value))
  {
    if k < |fs| - 1 { ConvertFieldsAt(fs[..|fs| - 1], k); }
  }

  lemma ConvertFieldsUpdate(fs: seq<PField>, k: nat, f: PField)
    requires k < |fs|
    ensures ConvertFields(fs[k := f]) == ConvertFields(fs)[k := JField(f.key, Convert(f.value))]
  {
    var a, b := ConvertFields(fs[k := f]), ConvertFields(fs)[k := JField(f.key, Convert(f.value))];
    forall i | 0 <= i < |fs| ensures a[i] == b[i] {
      ConvertFieldsAt(fs[k := f], i);
      ConvertFieldsAt(fs, i);
    }
  }

  ghost predicate NoMore(a: Cost, b: Cost) {
    a.nodes <= b.nodes && a.text <= b.text && a.size <= b.size
  }

  lemma {:induction false} ReplacingSaves(js: seq<JField>, k: nat, f: JField, depth: nat)
    requires k < |js| && FieldsFit(js, depth) && FieldFits(f, depth)
    ensures NoMore(FieldsCost(js[k := f]), Plus(FieldsCost(js), FieldCost(f))) && FieldsFit(js[k := f], depth)
  {
    var n, js' := |js| - 1, js[k := f];
    assert FieldsCost(js) == Plus(FieldsCost(js[..n]), FieldCost(js[n]));
    assert FieldsCost(js') == Plus(FieldsCost(js'[..n]), FieldCost(js'[n]));
    if k == n {
      assert js'[..n] == js[..n];
    } else {
      ReplacingSaves(js[..n], k, f, depth);
      assert js'[..n] == js[..n][k := f];
    }
  }

  /** The columns of a row, converted: no more nodes and no longer a text than the columns were charged. */
  ghost predicate RowCovered(t: Total, n: nat, js: seq<JField>, depth: nat) {
    && |js| <= n
    && FieldsCost(js).nodes <= t.nodes
    && FieldsCost(js).size <= t.response + n
    && FieldsFit(js, depth)
  }

  lemma PutCovered(t: Total, n: nat, fs: seq<PField>, u: Total, key: seq<byte>, p: Py, depth: nat)
    requires RowCovered(t, n, ConvertFields(fs), depth)
    requires Covered(Add(u, Total(0, 0, 1, 0)), FieldCost(JField(key, Convert(p))))
      && FieldFits(JField(key, Convert(p)), depth)
    ensures RowCovered(Add(t, u), n + 1, ConvertFields(Put(fs, key, p)), depth)
  {
    var k := Find(fs, key);
    if k < |fs| {
      ConvertFieldsUpdate(fs, k, PField(key, p));
      ReplacingSaves(ConvertFields(fs), k, JField(key, Convert(p)), depth);
    } else {
      ConvertFieldsSnoc(fs, PField(key, p));
    }
  }

  lemma {:induction false} ColumnsCovered(columns: seq<Field>, fs: seq<PField>, depth: nat)
    requires FieldsAdmissible(columns, depth) && MaterializeRow(columns) == Some(fs)
    requires forall i :: 0 <= i < |columns| ==> LeavesRendered(columns[i].value)
    ensures RowCovered(FieldsPrice(columns), |columns|, ConvertFields(fs), depth)
  {
    if columns == [] {
      assert ConvertFields(fs) == [];
      assert FieldsCost([]) == Cost(0, 0, 0);
    } else {
      var n := |columns| - 1;
      var gs, p := MaterializeRow(columns[..n]).value, Materialize(columns[n].value).value;
      ColumnsCovered(columns[..n], gs, depth);
      FieldCovered(columns[n], p, depth);
      PutCovered(FieldsPrice(columns[..n]), n, gs, FieldPrice(columns[n]), columns[n].name, p, depth);
    }
  }

  lemma DictCovered(t: Total, n: nat, js: seq<JField>)
    requires RowCovered(t, n, js, 1) && n <= MAX_ITEMS
    ensures Fits(JDict(js), 0)
    ensures CostOf(JDict(js)).nodes <= 1 + t.nodes && CostOf(JDict(js)).size <= 2 + Max0(n - 1) + n + t.response
  {
  }

  lemma RowCovers(columns: seq<Field>, fs: seq<PField>)
    requires Admissible(Struct(columns), 0) && MaterializeRow(columns) == Some(fs)
    requires forall i :: 0 <= i < |columns| ==> LeavesRendered(columns[i].value)
    ensures Fits(Convert(PDict(fs)), 0)
    ensures CostOf(Convert(PDict(fs))).nodes <= Price(Struct(columns)).nodes
    ensures CostOf(Convert(PDict(fs))).size <= Price(Struct(columns)).response
  {
    ColumnsCovered(columns, fs, 1);
    DictCovered(FieldsPrice(columns), |columns|, ConvertFields(fs));
  }

  /** What a row's preflight charged, and what its conversion spent. */
  ghost predicate Dominates(c: Charge, d: Charge, s: Spend, r: Converted, j: Json) {
    && r.status == Fine && r.value == j
    && s.nodes - r.left.nodes <= c.nodes - d.nodes
    && s.text - r.left.text <= |Encode(j)| <= c.response - d.response <= c.response
  }

  lemma DominatesByPrice(c: Charge, d: Charged, s: Spend, r: Converted, j: Json, t: Total)
    requires Charges(Charged(Fine, c), d, t) && 0 <= c.response <= s.text && 0 <= c.nodes <= s.nodes
    requires CostOf(j).nodes <= t.nodes && CostOf(j).size <= t.response && Fits(j, 0)
    requires Exact(r.status == Fine, s, r.left, Fits(j, 0), CostOf(j)) && (r.status == Fine ==> r.value == j)
    ensures Dominates(c, d.left, s, r, j)
  {
    SizeIsExact(j);
  }

  /**
   * A row that the preflight admits, and that materialises, always converts. It spends no more nodes than were
   * charged, its encoded text is no longer than the response charge, and the text it spends is within that length.
   */
  lemma RowConverts(columns: seq<Field>, fs: seq<PField>, c: Charge, s: Spend)
    requires Preflight(Struct(columns), Charged(Fine, c), 0).status == Fine && MaterializeRow(columns) == Some(fs)
    requires forall i :: 0 <= i < |columns| ==> LeavesRendered(columns[i].value)
    requires 0 <= c.response <= s.text && 0 <= c.nodes <= s.nodes
    ensures Dominates(c, Preflight(Struct(columns), Charged(Fine, c), 0).left, s, JsonSafe(PDict(fs), s, 0),
      Convert(PDict(fs)))
  {
    PreflightIsExact(Struct(columns), Charged(Fine, c), 0);
    RowCovers(columns, fs);
    CoveredConverts(Struct(columns), PDict(fs), c, s);
  }

  lemma CoveredConverts(v: Arrow, p: Py, c: Charge, s: Spend)
    requires Preflight(v, Charged(Fine, c), 0).status == Fine
    requires CostOf(Convert(p)).nodes <= Price(v).nodes && CostOf(Convert(p)).size <= Price(v).response
      && Fits(Convert(p), 0)
    requires 0 <= c.response <= s.text && 0 <= c.nodes <= s.nodes
    ensures Dominates(c, Preflight(v, Charged(Fine, c), 0).left, s, JsonSafe(p, s, 0), Convert(p))
  {
    PreflightIsExact(v, Charged(Fine, c), 0);
    ConversionIsExact(p, s, 0);
    DominatesByPrice(c, Preflight(v, Charged(Fine, c), 0), s, JsonSafe(p, s, 0), Convert(p), Price(v));
  }

  /** A float that is not finite spends text that the preflight never charged; its response charge still covers it. */
  lemma UnchargedText(s: Spend, depth: nat)
    requires s.nodes >= 1 && s.text >= 3 && depth <= MAX_DEPTH
    ensures Price(Leaf(Floating(NaN))).text == 0
    ensures JsonSafe(PLeaf(PFloat(NaN)), s, depth).left.text == s.text - 3
  {
  }
}
