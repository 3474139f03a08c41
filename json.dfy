/**
 * JSON values as the web layer and the Redis/Kafka transports see them, and
 * Python's truthiness on them (`x or default`, `if x:`).
 */
module Json {

  datatype JsonValue =
    | JNull
    | JBool(b: bool)
    | JInt(i: int)
    | JReal(r: real)
    | JStr(s: string)
    | JList(items: seq<JsonValue>)
    | JObj(fields: map<string, JsonValue>)

  /** A flat JSON object: request data, event payloads, Kafka events. */
  type Payload = map<string, JsonValue>

  /** Python's `bool(v)`: None, False, 0, 0.0, "", [] and {} are false. */
  predicate Truthy(v: JsonValue)
  {
    match v
    case JNull => false
    case JBool(b) => b
    case JInt(i) => i != 0
    case JReal(r) => r != 0.0
    case JStr(s) => s != ""
    case JList(items) => |items| != 0
    case JObj(fields) => |fields| != 0
  }

  /** `[JStr(x) for x in ids]`: a list of ids as a JSON array. */
  function StrList(ids: seq<string>): (j: JsonValue)
    ensures j.JList? && |j.items| == |ids|
    ensures forall i :: 0 <= i < |ids| ==> j.items[i] == JStr(ids[i])
  {
    JList(seq(|ids|, i requires 0 <= i < |ids| => JStr(ids[i])))
  }
}
