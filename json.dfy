/** The JSON tree as Jackson's `JsonNode` presents it to the source: objects
    keep their fields in insertion order (as `ObjectNode` does), and the
    accessors below follow Jackson's rules for each node kind, including the
    `MissingNode` that `path` returns for an absent field. */
module Json {

  import opened Results
  import Text

  /** Java's `int`. */
  type Int32 = i: int | -0x8000_0000 <= i < 0x8000_0000

  datatype Json =
    | Missing                                // MissingNode: what path() gives for an absent field
    | NullNode                               // NullNode
    | Boolean(b: bool)                       // BooleanNode
    | IntNode(i: Int32)                      // IntNode: a number that fits an int, isInt() holds
    | Decimal(value: real, text: string)     // any other numeric node, with Jackson's rendering
    | TextNode(s: string)                    // TextNode
    | Array(items: seq<Json>)                // ArrayNode
    | Object(fields: seq<(string, Json)>)    // ObjectNode, fields in insertion order

  /** The value stored under `key`, if any (the first match). */
  function Lookup(fields: seq<(string, Json)>, key: string): (r: Option<Json>)
    ensures r.Some? <==> exists i :: 0 <= i < |fields| && fields[i].0 == key
    ensures r.Some? ==> exists i :: 0 <= i < |fields| && fields[i] == (key, r.value)
  {
    if |fields| == 0 then None
    else if fields[0].0 == key then Some(fields[0].1)
    else
      var r := Lookup(fields[1..], key);
      if r.Some? then
        ghost var i :| 0 <= i < |fields[1..]| && fields[1..][i] == (key, r.value);
        assert fields[i + 1] == (key, r.value);
        r
      else r
  }

  /** `node.has(key)`: only an ObjectNode has fields. */
  predicate Has(node: Json, key: string)
  {
    node.Object? && Lookup(node.fields, key).Some?
  }

  /** `node.path(key)`: the field's value, or MissingNode. */
  function Path(node: Json, key: string): (r: Json)
    ensures !Has(node, key) ==> r == Missing
    ensures Has(node, key) ==> r == Lookup(node.fields, key).value
  {
    if node.Object? then
      match Lookup(node.fields, key)
      case Some(v) => v
      case None => Missing
    else Missing
  }

  /** Field names in insertion order (`fieldNames()`); empty for non-objects. */
  function FieldNames(node: Json): (r: seq<string>)
    ensures |r| == |Fields(node)|
    ensures forall k :: 0 <= k < |r| ==> r[k] == Fields(node)[k].0
  {
    if node.Object? then seq(|node.fields|, k requires 0 <= k < |node.fields| => node.fields[k].0) else []
  }

  /** Entries in insertion order (`fields()`); empty for non-objects. */
  function Fields(node: Json): seq<(string, Json)>
  {
    if node.Object? then node.fields else []
  }

  predicate IsTextual(node: Json) { node.TextNode? }
  predicate IsNumber(node: Json) { node.IntNode? || node.Decimal? }
  predicate IsObject(node: Json) { node.Object? }
  predicate IsArray(node: Json) { node.Array? }

  /** `size()`: elements of an array, fields of an object, 0 otherwise. */
  function Size(node: Json): nat
  {
    match node
    case Array(items) => |items|
    case Object(fields) => |fields|
    case _ => 0
  }

  /** `asText()`. */
  function AsText(node: Json): string
  {
    match node
    case Missing => ""
    case NullNode => "null"
    case Boolean(b) => if b then "true" else "false"
    case IntNode(i) => Text.IntToText(i)
    case Decimal(_, text) => text
    case TextNode(s) => s
    case Array(_) => ""
    case Object(_) => ""
  }

  /** `asInt()`: an integral number as is, a decimal truncated toward zero,
      a boolean as 1 or 0, a text of optional sign and digits as that
      number, and 0 for every other node. */
  function AsInt(node: Json): int
  {
    match node
    case IntNode(i) => i
    case Decimal(v, _) => if v >= 0.0 then v.Floor else -((-v).Floor)
    case Boolean(b) => if b then 1 else 0
    case TextNode(s) => (match Text.ParseInt(s) case Some(i) => i case None => 0)
    case _ => 0
  }

  /** `get(i)` with `0 <= i < size()` gives null: an ObjectNode's `size()`
      counts its fields, but it has no elements, so the loops of the form
      `for (i < node.size()) node.get(i)...` throw on an object with fields. */
  predicate IndexedNull(node: Json)
  {
    node.Object? && |node.fields| > 0
  }
}
