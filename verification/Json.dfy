/**
 * JSON text as `json.dumps` writes it here: compact separators, non-ASCII bytes
 * unescaped, strings escaped as section 7 of RFC 8259 asks.
 */
module Json {

  type byte = b: int | 0 <= b < 256

  const QUOTE: byte := 34
  const BACKSLASH: byte := 92

  datatype Json =
    | JNull
    | JBool(b: bool)
    | JInt(n: int)
    | JFloat(text: seq<byte>)
    | JText(bytes: seq<byte>)
    | JList(items: seq<Json>)
    | JDict(fields: seq<JField>)
  datatype JField = JField(key: seq<byte>, value: Json)

  // ---- strings ----

  function HexDigit(d: int): byte
    requires 0 <= d < 16
  {
    if d < 10 then 48 + d else 87 + d
  }

  /** The letter after the backslash in the two-byte escapes. */
  function ShortEscape(b: byte): (letter: byte)
    ensures letter != 0 ==> b in [8, 9, 10, 12, 13, 34, 92]
  {
    if b == 8 then 98 else if b == 9 then 116 else if b == 10 then 110 else if b == 12 then 102
    else if b == 13 then 114 else if b == QUOTE || b == BACKSLASH then b else 0
  }

  function EscapeByte(b: byte): seq<byte> {
    if ShortEscape(b) != 0 then [BACKSLASH, ShortEscape(b)]
    else if b < 32 then [BACKSLASH, 117, 48, 48, HexDigit(b / 16), HexDigit(b % 16)]
    else [b]
  }

  function EscapeAll(s: seq<byte>): seq<byte> {
    if s == [] then [] else EscapeByte(s[0]) + EscapeAll(s[1..])
  }

  function JsonString(s: seq<byte>): seq<byte> {
    [QUOTE] + EscapeAll(s) + [QUOTE]
  }

  lemma {:induction false} EscapeAllSnoc(s: seq<byte>, b: byte)
    ensures EscapeAll(s + [b]) == EscapeAll(s) + EscapeByte(b)
  {
    if s == [] {
      assert s + [b] == [b];
    } else {
      EscapeAllSnoc(s[1..], b);
      assert (s + [b])[1..] == s[1..] + [b];
    }
  }

  /** `_escaped_json_string_size`: one pass over the bytes, without building the text. */
  method EscapedJsonStringSize(buffer: seq<byte>, start: nat, size: nat) returns (encoded: nat)
    requires start + size <= |buffer|
    ensures encoded == |JsonString(buffer[start..start + size])|
  {
    encoded := 2;
    for i := start to start + size
      invariant encoded == 2 + |EscapeAll(buffer[start..i])|
    {
      var b := buffer[i];
      EscapeAllSnoc(buffer[start..i], b);
      assert buffer[start..i + 1] == buffer[start..i] + [b];
      if b in [8, 9, 10, 12, 13, 34, 92] {
        encoded := encoded + 2;
      } else if b < 32 {
        encoded := encoded + 6;
      } else {
        encoded := encoded + 1;
      }
    }
  }

  datatype Parsed = Malformed | Parsed(bytes: seq<byte>)

  function HexValue(b: byte): int {
    if 48 <= b <= 57 then b - 48 else if 97 <= b <= 102 then b - 87 else -1
  }

  function LongForm(letter: byte): (b: int)
    ensures b == -1 || 0 <= b < 256
  {
    if letter == 98 then 8 else if letter == 116 then 9 else if letter == 110 then 10 else if letter == 102 then 12
    else if letter == 114 then 13 else if letter == QUOTE || letter == BACKSLASH then letter else -1
  }

  /** A reader of the text between the quotes: no raw quote, backslash or control byte is accepted. */
  function Unescape(t: seq<byte>): Parsed
    decreases |t|
  {
    if t == [] then Parsed([])
    else if t[0] != BACKSLASH then
      if t[0] < 32 || t[0] == QUOTE then Malformed else Prepend(t[0], Unescape(t[1..]))
    else if |t| >= 2 && LongForm(t[1]) >= 0 then Prepend(LongForm(t[1]), Unescape(t[2..]))
    else if |t| >= 6 && t[1] == 117 && t[2] == 48 && t[3] == 48 && HexValue(t[4]) >= 0 && HexValue(t[5]) >= 0 then
      Prepend(HexValue(t[4]) * 16 + HexValue(t[5]), Unescape(t[6..]))
    else Malformed
  }

  function Prepend(b: byte, p: Parsed): Parsed {
    if p.Malformed? then Malformed else Parsed([b] + p.bytes)
  }

  /** What is written is legal between quotes, and reads back as the same bytes. */
  lemma {:induction false} EscapeRoundTrip(s: seq<byte>)
    ensures Unescape(EscapeAll(s)) == Parsed(s)
  {
    if s != [] {
      EscapeRoundTrip(s[1..]);
      OneByteReadsBack(s[0], EscapeAll(s[1..]));
      assert [s[0]] + s[1..] == s;
    }
  }

  /** In front of any text, an escaped byte reads as that byte. */
  lemma OneByteReadsBack(b: byte, rest: seq<byte>)
    ensures Unescape(EscapeByte(b) + rest) == Prepend(b, Unescape(rest))
  {
    var e := EscapeByte(b);
    var t := e + rest;
    assert t[|e|..] == rest;
    if ShortEscape(b) != 0 {
      assert t[0] == BACKSLASH && LongForm(t[1]) == b;
    } else if b < 32 {
      assert t[0] == BACKSLASH && t[1] == 117 && LongForm(t[1]) == -1 && t[2] == 48 && t[3] == 48;
      assert HexValue(t[4]) * 16 + HexValue(t[5]) == b;
    } else {
      assert t[0] == b != BACKSLASH;
    }
  }

  lemma {:induction false} EscapeGrows(s: seq<byte>)
    ensures |s| <= |EscapeAll(s)|
  {
    if s != [] { EscapeGrows(s[1..]); }
  }

  ghost predicate Plain(s: seq<byte>) {
    forall i :: 0 <= i < |s| ==> s[i] >= 32 && s[i] != QUOTE && s[i] != BACKSLASH
  }

  /** Text without quotes, backslashes or control bytes only gains its quotes. */
  lemma {:induction false} PlainSize(s: seq<byte>)
    requires Plain(s)
    ensures EscapeAll(s) == s
  {
    if s != [] {
      PlainSize(s[1..]);
      assert [s[0]] + s[1..] == s;
    }
  }

  // ---- numbers ----

  function Digits(n: nat): seq<byte> {
    if n < 10 then [48 + n] else Digits(n / 10) + [48 + n % 10]
  }

  function IntText(n: int): seq<byte> {
    if n < 0 then [45] + Digits(-n) else Digits(n)
  }

  function Pow10(k: nat): nat {
    if k == 0 then 1 else 10 * Pow10(k - 1)
  }

  lemma {:induction false} DigitsBound(n: nat, k: nat)
    requires k >= 1 && n < Pow10(k)
    ensures |Digits(n)| <= k
  {
    if n >= 10 {
      assert k >= 2;
      DigitsBound(n / 10, k - 1);
    }
  }

  /** Any 64-bit integer, signed or not, takes at most twenty characters. */
  lemma IntTextBound(n: int)
    requires -0x8000_0000_0000_0000 <= n < 0x1_0000_0000_0000_0000
    ensures |IntText(n)| <= 20
  {
    assert Pow10(5) == 100000 && Pow10(10) == 10000000000;
    assert Pow10(15) == 1000000000000000;
    assert Pow10(19) == 10000000000000000000;
    if n < 0 { DigitsBound(-n, 19); } else { DigitsBound(n, 20); }
  }

  // ---- documents ----

  function Encode(j: Json): seq<byte>
    decreases j, 1
  {
    match j
    case JNull => [110, 117, 108, 108]
    case JBool(b) => if b then [116, 114, 117, 101] else [102, 97, 108, 115, 101]
    case JInt(n) => IntText(n)
    case JFloat(text) => text
    case JText(bytes) => JsonString(bytes)
    case JList(items) => [91] + EncodeItems(items) + [93]
    case JDict(fields) => [123] + EncodeFields(fields) + [125]
  }

  function EncodeItems(items: seq<Json>): seq<byte>
    decreases items, 0
  {
    if items == [] then []
    else if |items| == 1 then Encode(items[0])
    else EncodeItems(items[..|items| - 1]) + [44] + Encode(items[|items| - 1])
  }

  function EncodeField(f: JField): seq<byte>
    decreases f, 2
  {
    JsonString(f.key) + [58] + Encode(f.value)
  }

  function EncodeFields(fields: seq<JField>): seq<byte>
    decreases fields, 0
  {
    if fields == [] then []
    else if |fields| == 1 then EncodeField(fields[0])
    else EncodeFields(fields[..|fields| - 1]) + [44] + EncodeField(fields[|fields| - 1])
  }
}
