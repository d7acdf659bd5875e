/** Untrusted JSON-like values: stored records and model output. */
module Json {
  /** One `key: value` of an object, in insertion order. */
  datatype Member = Member(key: string, value: Json)

  datatype Json =
    | Undefined
    | Null
    | Flag(flag: bool)
    | Number(value: real)
    | NonFinite
    | Text(text: string)
    | Array(items: seq<Json>)
    | Object(members: seq<Member>)

  /** `j?.key`: absent keys, and fields of anything but an object, are undefined. */
  function Field(j: Json, key: string): Json {
    if j.Object? then Lookup(j.members, key) else Undefined
  }

  function Lookup(members: seq<Member>, key: string): Json {
    if members == [] then Undefined
    else if members[0].key == key then members[0].value
    else Lookup(members[1..], key)
  }

  predicate Missing(j: Json) {
    j.Undefined? || j.Null?
  }

  /** `a ?? b`. */
  function Coalesce(a: Json, b: Json): Json {
    if Missing(a) then b else a
  }

  predicate Truthy(j: Json) {
    match j
    case Undefined => false
    case Null => false
    case Flag(b) => b
    case Number(n) => n != 0.0
    case Text(s) => s != ""
    case _ => true
  }

  /** `Array.isArray(j) ? j : []`. */
  function Items(j: Json): seq<Json> {
    if j.Array? then j.items else []
  }
}
