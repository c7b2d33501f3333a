/** Small building blocks shared by every other module: an optional value
    (the SDK's `param.Field` that is either set or left out), the dynamic
    JSON documents Go handles as `map[string]any`, and an order-preserving
    filter over sequences. */
module Base {

  /** A value that is either present or absent. */
  datatype Option<+T> = None | Some(value: T)

  /** A JSON value. Numbers keep their literal spelling: nothing in this
      layer does arithmetic on them. */
  datatype JsonValue =
    | JsonNull
    | JsonBool(b: bool)
    | JsonNumber(literal: string)
    | JsonString(s: string)
    | JsonArray(items: seq<JsonValue>)
    | JsonObjectValue(fields: map<string, JsonValue>)

  /** Go's `map[string]any`: tool inputs, tool outputs and input schemas.
      A nil map and an empty map are both the empty map here. */
  type JsonObject = map<string, JsonValue>

  /** The elements of `s` that satisfy `keep`, in their original order. */
  function Filter<T(==,!new)>(s: seq<T>, keep: T -> bool): (r: seq<T>)
    ensures |r| <= |s|
    ensures forall k | 0 <= k < |r| :: keep(r[k])
    ensures forall x :: x in r <==> x in s && keep(x)
  {
    if s == [] then []
    else (if keep(s[0]) then [s[0]] else []) + Filter(s[1..], keep)
  }

  /** Splitting the head off a concatenation whose left part is non-empty. */
  lemma ConsAppend<T>(a: seq<T>, b: seq<T>)
    requires a != []
    ensures (a + b)[0] == a[0] && (a + b)[1..] == a[1..] + b
  {
  }

  lemma AppendAssoc<T>(a: seq<T>, b: seq<T>, c: seq<T>)
    ensures a + (b + c) == (a + b) + c
  {
  }
}
