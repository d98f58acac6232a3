/**
 * JSON values as the handlers store and return them. An ISO-8601 timestamp
 * string is kept as the number of milliseconds it denotes, so that the
 * handlers' `new Date(x).getTime()` comparisons become comparisons of naturals.
 */
module Json {
  import opened Text

  datatype Json =
    | Null
    | Bool(b: bool)
    | Num(n: int)
    | Str(s: string)
    | Date(ms: nat)
    | Arr(items: seq<Json>)
    | Obj(fields: map<string, Json>)

  /** A JSON object: its own keys and their values. */
  type Object = map<string, Json>

  /**
   * The object literal `{ ...before, ...body, ...after }`: a later key
   * overwrites an earlier one.
   */
  function Spread(before: Object, body: Object, after: Object): (r: Object)
    ensures r.Keys == before.Keys + body.Keys + after.Keys
    ensures forall k <- after :: r[k] == after[k]
    ensures forall k <- body :: k !in after ==> r[k] == body[k]
    ensures forall k <- before :: k !in body && k !in after ==> r[k] == before[k]
  {
    before + body + after
  }

  /**
   * `{ id: `${prefix}${now}`, ...body, created_at: now }`: the record a
   * handler makes from a request body. A body id replaces the generated one;
   * the timestamp is always the handler's.
   */
  function Stamped(prefix: string, body: Object, now: nat): (r: Object)
    ensures r.Keys == body.Keys + {"id", "created_at"}
    ensures r["created_at"] == Date(now)
    ensures r["id"] == if "id" in body then body["id"] else Str(prefix + Decimal(now))
    ensures forall k <- body :: k != "created_at" ==> r[k] == body[k]
  {
    Spread(map["id" := Str(prefix + Decimal(now))], body, map["created_at" := Date(now)])
  }

  /** `r.key === v` */
  predicate FieldIs(r: Object, key: string, v: Json)
  {
    key in r && r[key] == v
  }

  /** `r.key` holds a timestamp. */
  predicate HasDate(r: Object, key: string)
  {
    key in r && r[key].Date?
  }

  /** `new Date(r.key).getTime()` for a record whose `key` holds a timestamp. */
  function DateOf(r: Object, key: string): nat
  {
    if HasDate(r, key) then r[key].ms else 0
  }
}
