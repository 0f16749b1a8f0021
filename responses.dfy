/**
 * How the v5 endpoints read a response body: not at all, as one resource,
 * as the raw body, or as the list under one field decoded element by
 * element (`[decode(x) for x in body[field]]`), optionally reading a null
 * or empty field as the empty list (`body[field] or []`). The decoder
 * (`construct_from`) is a parameter.
 */
module Responses {
  import opened Wrappers
  import opened Values

  /** A decoded JSON document. */
  datatype Json =
    | JNull | JBool(b: bool) | JNum(n: int) | JStr(s: string)
    | JArr(items: seq<Json>) | JObj(fields: map<string, Json>)

  /** `bool(x)` for a JSON value. */
  predicate Truthy(j: Json)
  {
    match j
    case JNull => false
    case JBool(b) => b
    case JNum(n) => n != 0
    case JStr(s) => s != ""
    case JArr(xs) => xs != []
    case JObj(m) => m != map[]
  }

  /** True for the values a comprehension iterates over without decoding anything: an empty string or object. */
  predicate EmptyIterable(j: Json)
  {
    j == JStr("") || j == JObj(map[])
  }

  /** What an endpoint does with the body it gets back. */
  datatype Reply =
    | Nothing                                     // the call returns None
    | Object(kind: Resource)                      // kind.construct_from(body)
    | Items(kind: Resource, field: string)        // [kind.construct_from(x) for x in body[field]]
    | ItemsOrEmpty(kind: Resource, field: string) // the same over body[field] or []
    | RawBody                                     // the body itself

  /** What the endpoint returns to its caller. */
  datatype Returned<R> = NoValue | One(item: R) | Many(items: seq<R>) | Body(json: Json)

  /** `r` returns one decoded `kind` per element of `xs`, in the same order. */
  ghost predicate DecodedEach<R>(r: Result<Returned<R>, Error>, kind: Resource, xs: seq<Json>, decode: (Resource, Json) -> R)
  {
    && r.Ok? && r.value.Many? && |r.value.items| == |xs|
    && forall i :: 0 <= i < |xs| ==> r.value.items[i] == decode(kind, xs[i])
  }

  /** Decodes every element, keeping the order and the count. */
  function DecodeAll<R>(kind: Resource, xs: seq<Json>, decode: (Resource, Json) -> R): (ys: seq<R>)
    ensures |ys| == |xs|
    ensures forall i :: 0 <= i < |xs| ==> ys[i] == decode(kind, xs[i])
  {
    if |xs| == 0 then []
    else [decode(kind, xs[0])] + DecodeAll(kind, xs[1..], decode)
  }

  /** `body[field]`: only an object has fields, and only the ones it holds. */
  function Field(body: Json, field: string): (r: Result<Json, Error>)
    ensures r.Ok? <==> body.JObj? && field in body.fields
    ensures r.Ok? ==> r.value == body.fields[field]
    ensures r.Err? && body.JObj? ==> r.error == KeyError(field)
    ensures r.Err? && !body.JObj? ==> r.error == TypeError(field)
  {
    match body
    case JObj(fields) => if field in fields then Ok(fields[field]) else Err(KeyError(field))
    case _ => Err(TypeError(field))
  }

  /** Reads `body` as `reply` says, decoding resources with `decode`. */
  function Interpret<R>(reply: Reply, body: Json, decode: (Resource, Json) -> R): (r: Result<Returned<R>, Error>)
    ensures reply.Nothing? ==> r == Ok(NoValue)
    ensures reply.Object? ==> r == Ok(One(decode(reply.kind, body)))
    ensures reply.RawBody? ==> r == Ok(Body(body))
    ensures (reply.Items? || reply.ItemsOrEmpty?) && Field(body, reply.field).Err? ==>
              r == Err(Field(body, reply.field).error)
    // a list field gives one decoded resource per element, in order
    ensures (reply.Items? || reply.ItemsOrEmpty?) && Field(body, reply.field).Ok? && Field(body, reply.field).value.JArr? ==>
              DecodedEach(r, reply.kind, Field(body, reply.field).value.items, decode)
    // a null field is an error for a plain comprehension and an empty list under `or []`
    ensures reply.Items? && Field(body, reply.field) == Ok(JNull) ==> r == Err(TypeError(reply.field))
    // numbers and booleans cannot be iterated; an empty string or object gives no elements
    ensures reply.Items? && Field(body, reply.field).Ok? && (Field(body, reply.field).value.JNum?
                                                             || Field(body, reply.field).value.JBool?) ==>
              r == Err(TypeError(reply.field))
    ensures reply.Items? && Field(body, reply.field).Ok? && EmptyIterable(Field(body, reply.field).value) ==>
              r == Ok(Many([]))
    ensures reply.ItemsOrEmpty? && Field(body, reply.field).Ok? && !Truthy(Field(body, reply.field).value) ==>
              r == Ok(Many([]))
    ensures (reply.Items? || reply.ItemsOrEmpty?) && r.Ok? ==> r.value.Many?
  {
    match reply
    case Nothing => Ok(NoValue)
    case Object(kind) => Ok(One(decode(kind, body)))
    case RawBody => Ok(Body(body))
    case Items(kind, field) =>
      (match Field(body, field)
       case Err(e) => Err(e)
       case Ok(JArr(xs)) => Ok(Many(DecodeAll(kind, xs, decode)))
       case Ok(v) => if EmptyIterable(v) then Ok(Many([])) else Err(TypeError(field)))
    case ItemsOrEmpty(kind, field) =>
      (match Field(body, field)
       case Err(e) => Err(e)
       case Ok(v) =>
         if !Truthy(v) then Ok(Many([]))
         else if v.JArr? then Ok(Many(DecodeAll(kind, v.items, decode)))
         else Err(TypeError(field)))
  }
}
