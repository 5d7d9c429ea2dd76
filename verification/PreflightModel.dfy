/**
 * Budgeted preflight of one Arrow row against its materialisation.
 *
 * `Preflight` walks the Arrow values and charges nodes, text, response and
 * materialisation bytes without building anything. `JsonSafe` later walks the
 * materialised Python value and spends nodes and text for real. The result is
 * that a row the preflight admits is always converted, within its charges.
 */
module PreflightModel {
  import opened Options
  import opened Json
  import opened Renderings

  const MAX_DEPTH: nat := 16
  const MAX_NODES: nat := 20000
  const MAX_ITEMS: nat := 4096
  const MAX_TEXT: nat := 64 * 1024
  const RESPONSE_MAX: nat := 256 * 1024

  // ---- Arrow side ----

  /** How a floating value renders: its finite decimal text, or one of three names. */
  datatype Float = Finite(text: seq<byte>) | NaN | Infinity | NegInfinity

  datatype Scalar =
    | Null
    | Boolean(b: bool)
    | Integer(n: int)
    | Floating(f: Float)
    | Decimal(precision: nat, scale: int, text: seq<byte>, asFloat: bool, floatText: seq<byte>)
    | Temporal(text: seq<byte>, inRange: bool)
    | Uuid(text: seq<byte>)
    | Str(bytes: seq<byte>, utf8: bool)
    | Binary(size: nat)
    | Unsupported
  datatype Arrow =
    | Leaf(scalar: Scalar)
    | List(items: seq<Arrow>)
    | Struct(fields: seq<Field>)
    | Map(entries: seq<Entry>)
    | Dictionary(target: Arrow)
  datatype Field = Field(name: seq<byte>, value: Arrow)
  datatype Entry = Entry(key: Arrow, item: Arrow)

  /** What Arrow's types hold and Python makes of it: 64-bit integers, doubles, decimals, ISO texts and UUIDs. */
  ghost predicate Rendered(v: Scalar) {
    match v
    case Integer(n) => -0x8000_0000_0000_0000 <= n < 0x1_0000_0000_0000_0000
    case Floating(f) => f.Finite? ==> IsFloatText(f.text, 17)
    case Decimal(precision, scale, text, asFloat, floatText) =>
      precision <= 76 && IsDecimalText(text, precision, scale) && (asFloat ==> IsFloatText(floatText, precision))
    case Temporal(text, inRange) => inRange ==> exists iso :: text == IsoText(iso)
    case Uuid(text) => exists bytes: seq<byte> :: |bytes| == 16 && text == UuidText(bytes)
    case _ => true
  }

  /** `repr` of a double that no more than `most` digits identify. */
  ghost predicate IsFloatText(text: seq<byte>, most: nat) {
    exists negative, digits, point :: FloatWrites(negative, digits, point, most, text)
  }

  ghost predicate FloatWrites(negative: bool, digits: seq<byte>, point: int, most: nat, text: seq<byte>) {
    IsDouble(digits, point) && |digits| <= most && text == FloatText(negative, digits, point)
  }

  /** `str` of a decimal whose coefficient has no more digits than the precision. */
  ghost predicate IsDecimalText(text: seq<byte>, precision: nat, scale: int) {
    exists negative, digits :: DecimalWrites(negative, digits, precision, scale, text)
  }

  ghost predicate DecimalWrites(negative: bool, digits: seq<byte>, precision: nat, scale: int, text: seq<byte>) {
    DecimalDigits(digits) && |digits| <= precision && text == DecimalStr(negative, digits, -scale)
  }

  ghost predicate LeavesRendered(v: Arrow)
    decreases v
  {
    match v
       case Leaf(scalar) => Rendered(scalar)
       case List(items) => forall i :: 0 <= i < |items| ==> LeavesRendered(items[i])
       case Struct(fields) => forall i :: 0 <= i < |fields| ==> LeavesRendered(fields[i].value)
       case Map(entries) =>
         forall i :: 0 <= i < |entries| ==> LeavesRendered(entries[i].key) && LeavesRendered(entries[i].item)
       case Dictionary(target) => LeavesRendered(target)
  }

  function DecimalText(precision: nat, scale: int): nat {
    precision + (if scale < 0 then -scale else scale) + 16
  }

  function Placeholder(size: nat): seq<byte> {
    [60] + Digits(size) + [32, 98, 121, 116, 101, 115, 62]
  }

  /** The three failures of a walk; over budget and unavailable are caught by the reader loop. */
  datatype Status = Fine | OverBudget | Unavailable

  datatype Charge = Charge(nodes: int, text: int, response: int, materialization: int)
  datatype Charged = Charged(status: Status, left: Charge)

  // ---- the charges, one budget call each; the first failure ends the walk ----

  function ChargeNode(c: Charged): Charged {
    if c.status != Fine then c
    else
      var l := c.left.(nodes := c.left.nodes - 1);
      Charged(if l.nodes < 0 then OverBudget else Fine, l)
  }

  function ChargeText(c: Charged, size: nat): Charged {
    if c.status != Fine then c
    else if size > MAX_TEXT then c.(status := Unavailable)
    else
      var l := c.left.(text := c.left.text - size);
      Charged(if l.text < 0 then OverBudget else Fine, l)
  }

  function ChargeResponse(c: Charged, size: nat): Charged {
    if c.status != Fine then c
    else
      var l := c.left.(response := c.left.response - size);
      Charged(if l.response < 0 then OverBudget else Fine, l)
  }

  function ChargeMaterial(c: Charged, size: nat): Charged {
    if c.status != Fine then c
    else
      var l := c.left.(materialization := c.left.materialization - size);
      Charged(if l.materialization < 0 then OverBudget else Fine, l)
  }

  function Refuse(c: Charged, bad: bool): Charged {
    if c.status == Fine && bad then c.(status := Unavailable) else c
  }

  function Max0(n: int): nat {
    if n < 0 then 0 else n
  }

  function TextLeaf(c: Charged, size: nat): Charged {
    ChargeResponse(ChargeMaterial(ChargeText(c, size), size), size + 2)
  }

  function PreflightLeaf(v: Scalar, c: Charged): Charged {
    match v
    case Null => ChargeResponse(c, 4)
    case Boolean(_) => ChargeResponse(c, 5)
    case Integer(_) => ChargeResponse(c, 21)
    case Floating(_) => ChargeResponse(c, 32)
    case Decimal(precision, scale, _, _, _) => TextLeaf(c, DecimalText(precision, scale))
    case Temporal(_, _) => TextLeaf(c, 64)
    case Uuid(_) => TextLeaf(c, 36)
    case Str(bytes, _) => ChargeResponse(ChargeMaterial(ChargeText(c, |bytes|), |bytes|), |JsonString(bytes)|)
    case Binary(size) =>
      var p := |Placeholder(size)|;
      ChargeResponse(ChargeText(ChargeMaterial(Refuse(c, size > MAX_TEXT), size), p), p + 2)
    case Unsupported => Refuse(c, true)
  }

  /** Every value is a node, and none may be nested too deeply. */
  function Enter(c: Charged, depth: nat): Charged {
    Refuse(ChargeNode(c), depth > MAX_DEPTH)
  }

  /** The brackets and separators of a container of `n` items. */
  function Open(c: Charged, n: nat, punctuation: nat): Charged {
    ChargeResponse(Refuse(c, n > MAX_ITEMS), punctuation)
  }

  /** `_preflight_arrow_value`. */
  function Preflight(v: Arrow, c0: Charged, depth: nat): Charged
    decreases v, 1
  {
    var c := Enter(c0, depth);
    if c.status != Fine then c
    else match v
      case Leaf(scalar) => PreflightLeaf(scalar, c)
      case List(items) => PreflightItems(items, Open(c, |items|, 2 + Max0(|items| - 1)), depth + 1)
      case Struct(fields) => PreflightFields(fields, Open(c, |fields|, 2 + Max0(|fields| - 1) + |fields|), depth + 1)
      case Map(entries) => PreflightEntries(entries, Open(c, |entries|, 2 + Max0(|entries| - 1)), depth)
      case Dictionary(target) =>
        var d := Preflight(target, c, depth);
        if d.status == Fine then d.(left := d.left.(nodes := d.left.nodes + 1)) else d
  }

  function PreflightItems(items: seq<Arrow>, c: Charged, depth: nat): Charged
    decreases items, 0
  {
    if items == [] then c
    else
      var n := |items| - 1;
      var d := PreflightItems(items[..n], c, depth);
      if d.status != Fine then d else Preflight(items[n], d, depth)
  }

  function PreflightFields(fields: seq<Field>, c: Charged, depth: nat): Charged
    decreases fields, 0
  {
    if fields == [] then c
    else
      var n := |fields| - 1;
      var d := PreflightFields(fields[..n], c, depth);
      if d.status != Fine then d else PreflightField(fields[n], d, depth)
  }

  function PreflightField(f: Field, c: Charged, depth: nat): Charged
    decreases f, 2
  {
    var e := ChargeResponse(ChargeText(c, |f.name|), |JsonString(f.name)|);
    if e.status != Fine then e else Preflight(f.value, e, depth)
  }

  /** A map is a list of pairs: each pair is a node one level down, its key and item two levels down. */
  function PreflightEntries(entries: seq<Entry>, c: Charged, depth: nat): Charged
    decreases entries, 0
  {
    if entries == [] then c
    else
      var n := |entries| - 1;
      var d := PreflightEntries(entries[..n], c, depth);
      if d.status != Fine then d else PreflightEntry(entries[n], d, depth)
  }

  function PreflightEntry(entry: Entry, c: Charged, depth: nat): Charged
    decreases entry, 2
  {
    var e := ChargeResponse(Enter(c, depth + 1), 3);
    if e.status != Fine then e
    else
      var k := Preflight(entry.key, e, depth + 2);
      if k.status != Fine then k else Preflight(entry.item, k, depth + 2)
  }

  // ---- Python side ----

  datatype Value =
    | PNone
    | PBool(b: bool)
    | PInt(n: int)
    | PFloat(f: Float)
    | PDecimal(text: seq<byte>, asFloat: bool, floatText: seq<byte>)
    | PStr(bytes: seq<byte>)
    | PBytes(size: nat)
    | PTime(text: seq<byte>)
    | PUuid(text: seq<byte>)
  datatype Py =
    | PLeaf(leaf: Value)
    | PList(items: seq<Py>)
    | PDict(fields: seq<PField>)
  datatype PField = PField(key: seq<byte>, value: Py)

  /** Where a key stands in a dict; its length when it is not there. */
  function Find(fields: seq<PField>, key: seq<byte>): (k: nat)
    ensures k <= |fields| && (k < |fields| ==> fields[k].key == key)
    ensures forall i :: 0 <= i < k ==> fields[i].key != key
  {
    if fields == [] then 0
    else
      var k := Find(fields[..|fields| - 1], key);
      if k < |fields| - 1 || fields[|fields| - 1].key == key then k else |fields|
  }

  /** A dict assignment: a key already there keeps its place and takes the new value. */
  function Put(fields: seq<PField>, key: seq<byte>, value: Py): seq<PField> {
    var k := Find(fields, key);
    if k < |fields| then fields[k := PField(key, value)] else fields + [PField(key, value)]
  }

  /** A struct with two fields of one name is refused by Arrow's own conversion. */
  predicate Repeats(fields: seq<Field>) {
    exists i, j :: 0 <= i < j < |fields| && fields[i].name == fields[j].name
  }

  function MaterializeLeaf(v: Scalar): Option<Value> {
    match v
    case Null => Some(PNone)
    case Boolean(b) => Some(PBool(b))
    case Integer(n) => Some(PInt(n))
    case Floating(f) => Some(PFloat(f))
    case Decimal(_, _, text, asFloat, floatText) => Some(PDecimal(text, asFloat, floatText))
    case Temporal(text, inRange) => if inRange then Some(PTime(text)) else None
    case Uuid(text) => Some(PUuid(text))
    case Str(bytes, utf8) => if utf8 then Some(PStr(bytes)) else None
    case Binary(size) => Some(PBytes(size))
    case Unsupported => None
  }

  /**
   * `as_py` on the whole tree; None when it raises (text that is not UTF-8, a time out of Python's range, a repeated
   * field name).
   */
  function Materialize(v: Arrow): Option<Py>
    decreases v, 1
  {
    match v
    case Leaf(scalar) => (match MaterializeLeaf(scalar) case None => None case Some(p) => Some(PLeaf(p)))
    case List(items) => (match MaterializeItems(items) case None => None case Some(ps) => Some(PList(ps)))
    case Struct(fields) =>
      if Repeats(fields) then None
      else (match MaterializeFields(fields) case None => None case Some(fs) => Some(PDict(fs)))
    case Map(entries) => (match MaterializeEntries(entries) case None => None case Some(ps) => Some(PList(ps)))
    case Dictionary(target) => Materialize(target)
  }

  function MaterializeItems(items: seq<Arrow>): (r: Option<seq<Py>>)
    ensures r.Some? ==> |r.value| == |items|
    decreases items, 0
  {
    if items == [] then Some([])
    else
      var n := |items| - 1;
      match (MaterializeItems(items[..n]), Materialize(items[n]))
      case (Some(ps), Some(p)) => Some(ps + [p])
      case _ => None
  }

  function MaterializeFields(fields: seq<Field>): (r: Option<seq<PField>>)
    ensures r.Some? ==> |r.value| == |fields|
    decreases fields, 0
  {
    if fields == [] then Some([])
    else
      var n := |fields| - 1;
      match (MaterializeFields(fields[..n]), Materialize(fields[n].value))
      case (Some(fs), Some(p)) => Some(fs + [PField(fields[n].name, p)])
      case _ => None
  }

  /** `_materialize_arrow_row`: a dict over the columns, in which a later column of the same name wins. */
  function MaterializeRow(columns: seq<Field>): Option<seq<PField>> {
    if columns == [] then Some([])
    else
      var n := |columns| - 1;
      match (MaterializeRow(columns[..n]), Materialize(columns[n].value))
      case (Some(fs), Some(p)) => Some(Put(fs, columns[n].name, p))
      case _ => None
  }

  function MaterializeEntries(entries: seq<Entry>): (r: Option<seq<Py>>)
    ensures r.Some? ==> |r.value| == |entries|
    decreases entries, 0
  {
    if entries == [] then Some([])
    else
      var n := |entries| - 1;
      match (MaterializeEntries(entries[..n]), MaterializeEntry(entries[n]))
      case (Some(ps), Some(p)) => Some(ps + [p])
      case _ => None
  }

  function MaterializeEntry(entry: Entry): Option<Py>
    decreases entry, 2
  {
    match (Materialize(entry.key), Materialize(entry.item))
    case (Some(k), Some(p)) => Some(PList([k, p]))
    case _ => None
  }

  // ---- what the conversion spends ----

  datatype Spend = Spend(nodes: int, text: int)
  /** The status of a conversion, its budget afterwards, and its value (JNull unless fine). */
  datatype Converted = Converted(status: Status, left: Spend, value: Json)
  datatype ConvertedItems = ConvertedItems(status: Status, left: Spend, items: seq<Json>)
  datatype ConvertedFields = ConvertedFields(status: Status, left: Spend, fields: seq<JField>)

  /** `_ExampleBudget.text`. */
  function SpendText(s: Spend, bytes: seq<byte>): Converted {
    if |bytes| > MAX_TEXT then Converted(Unavailable, s, JNull)
    else
      var s' := s.(text := s.text - |bytes|);
      if s'.text < 0 then Converted(OverBudget, s', JNull) else Converted(Fine, s', JText(bytes))
  }

  function FloatName(f: Float): seq<byte>
    requires !f.Finite?
  {
    match f
    case NaN => [78, 97, 78]
    case Infinity => [73, 110, 102, 105, 110, 105, 116, 121]
    case NegInfinity => [45, 73, 110, 102, 105, 110, 105, 116, 121]
  }

  function JsonSafeLeaf(v: Value, s: Spend): Converted {
    match v
    case PNone => Converted(Fine, s, JNull)
    case PBool(b) => Converted(Fine, s, JBool(b))
    case PInt(n) => Converted(Fine, s, JInt(n))
    case PFloat(f) => if f.Finite? then Converted(Fine, s, JFloat(f.text)) else SpendText(s, FloatName(f))
    case PDecimal(text, asFloat, floatText) => if asFloat then Converted(Fine, s, JFloat(floatText))
      else SpendText(s, text)
    case PStr(bytes) => SpendText(s, bytes)
    case PBytes(size) => SpendText(s, Placeholder(size))
    case PTime(text) => SpendText(s, text)
    case PUuid(text) => SpendText(s, text)
  }

  /** `_json_safe_example`. */
  function JsonSafe(p: Py, s0: Spend, depth: nat): Converted
    decreases p, 1
  {
    var s := s0.(nodes := s0.nodes - 1);
    if s.nodes < 0 then Converted(OverBudget, s, JNull)
    else if depth > MAX_DEPTH then Converted(Unavailable, s, JNull)
    else match p
      case PLeaf(leaf) => JsonSafeLeaf(leaf, s)
      case PList(items) =>
        if |items| > MAX_ITEMS then Converted(Unavailable, s, JNull)
        else
          var r := JsonSafeItems(items, s, depth + 1);
          Converted(r.status, r.left, if r.status == Fine then JList(r.items) else JNull)
      case PDict(fields) =>
        if |fields| > MAX_ITEMS then Converted(Unavailable, s, JNull)
        else
          var r := JsonSafeFields(fields, s, depth + 1);
          Converted(r.status, r.left, if r.status == Fine then JDict(r.fields) else JNull)
  }

  function JsonSafeItems(items: seq<Py>, s: Spend, depth: nat): ConvertedItems
    decreases items, 0
  {
    if items == [] then ConvertedItems(Fine, s, [])
    else
      var n := |items| - 1;
      var r := JsonSafeItems(items[..n], s, depth);
      if r.status != Fine then r
      else
        var x := JsonSafe(items[n], r.left, depth);
        ConvertedItems(x.status, x.left, if x.status == Fine then r.items + [x.value] else r.items)
  }

  function JsonSafeFields(fields: seq<PField>, s: Spend, depth: nat): ConvertedFields
    decreases fields, 0
  {
    if fields == [] then ConvertedFields(Fine, s, [])
    else
      var n := |fields| - 1;
      var r := JsonSafeFields(fields[..n], s, depth);
      if r.status != Fine then r
      else
        var k := SpendText(r.left, fields[n].key);
        if k.status != Fine then ConvertedFields(k.status, k.left, r.fields)
        else
          var x := JsonSafe(fields[n].value, k.left, depth);
          ConvertedFields(x.status, x.left, if x.status == Fine then r.fields + [JField(fields[n].key, x.value)]
            else r.fields)
  }
}
