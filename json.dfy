/** The values a parsed JSON document can hold: what TypeScript's `any` stands
    for in the uploaded data, in property records and in default values. */
module Json {

  /** An object is kept as its list of entries, so that key order (the order
      `Object.keys` reports) is part of the value. */
  datatype Value =
    | Null
    | Bool(b: bool)
    | Number(n: real)
    | Str(s: string)
    | Array(items: seq<Value>)
    | Object(entries: seq<(string, Value)>)

  /** The keys of an object's entry list, in order: `Object.keys`. */
  function Keys(entries: seq<(string, Value)>): (r: seq<string>)
    ensures |r| == |entries|
    ensures forall i :: 0 <= i < |r| ==> r[i] == entries[i].0
    ensures forall k :: k in r <==> exists v :: (k, v) in entries
  {
    seq(|entries|, i requires 0 <= i < |entries| => entries[i].0)
  }
}
