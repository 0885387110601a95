/**
 * The parsed JSON documents the client navigates (Jackson's JsonNode tree),
 * as immutable values. Only the operations the client uses are modelled:
 * looking a field up, and reading a node as a Java int.
 */
module Json {
  import opened Wrappers

  /** A JSON node. Numbers are integral; a JSON null is JNull. */
  datatype Json =
    | JNull
    | JBool(b: bool)
    | JInt(n: int)
    | JStr(s: string)
    | JArr(items: seq<Json>)
    | JObj(fields: map<string, Json>)

  /** JsonNode.get(key): the field's value on an object node; None (a Java
      null) when the field is absent or the node is not an object. */
  function Field(j: Json, key: string): (r: Option<Json>)
    ensures r.Some? <==> j.JObj? && key in j.fields
  {
    if j.JObj? && key in j.fields then Some(j.fields[key]) else None
  }

  const TwoTo31: int := 0x8000_0000
  const TwoTo32: int := 0x1_0000_0000

  /** The Java int a narrowing cast `(int) n` yields: the unique value in
      the 32-bit range that is congruent to n modulo 2^32. */
  function ToInt32(n: int): (r: int)
    ensures -TwoTo31 <= r < TwoTo31
    ensures (n - r) % TwoTo32 == 0
    ensures -TwoTo31 <= n < TwoTo31 ==> r == n
  {
    (n + TwoTo31) % TwoTo32 - TwoTo31
  }

  /** JsonNode.asInt(): a number is cast to int, true reads as 1, and every
      other node reads as the default 0. */
  function AsInt(j: Json): (r: int)
    ensures -TwoTo31 <= r < TwoTo31
    ensures j.JInt? && -TwoTo31 <= j.n < TwoTo31 ==> r == j.n
  {
    match j
    case JInt(n) => ToInt32(n)
    case JBool(b) => if b then 1 else 0
    case _ => 0
  }
}
