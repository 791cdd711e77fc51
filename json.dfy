/**
 * Values as the handlers receive them in a parsed request body and as the
 * store keeps them in free-form (`Mixed`) fields. `undefined` is the absence of
 * a value and is written `None` where a field may be missing.
 */
module Json {
  import opened Wrappers

  datatype Json =
    | JNull
    | JBool(b: bool)
    | JNum(n: real)
    | JStr(s: string)
    | JArr(items: seq<Json>)
    | JObj(fields: map<string, Json>)
    | JId(id: nat)   // an ObjectId held inside a Mixed field

  /** JavaScript truthiness: `null`, `false`, `0` and `""` are falsy, everything else truthy. */
  predicate Truthy(v: Json) {
    match v
    case JNull => false
    case JBool(b) => b
    case JNum(n) => n != 0.0
    case JStr(s) => s != ""
    case _ => true
  }

  /** Truthiness of a possibly missing value (`undefined` is falsy). */
  predicate TruthyOpt(v: Option<Json>) {
    v.Some? && Truthy(v.value)
  }

  /** `typeof v === "object"`, which holds for `null` too. */
  predicate TypeofObject(v: Json) {
    v.JNull? || v.JArr? || v.JObj? || v.JId?
  }

  /** `v.key` on a value that is not null: own fields of plain objects, undefined otherwise. */
  function Get(v: Json, key: string): Option<Json> {
    if v.JObj? && key in v.fields then Some(v.fields[key]) else None
  }

  /** `v.key` on a possibly missing value that is known not to be null or undefined. */
  function GetOpt(v: Option<Json>, key: string): Option<Json> {
    if v.Some? then Get(v.value, key) else None
  }

  predicate IsString(v: Option<Json>) {
    v.Some? && v.value.JStr?
  }

  predicate IsNumber(v: Option<Json>) {
    v.Some? && v.value.JNum?
  }

  predicate IsBool(v: Option<Json>) {
    v.Some? && v.value.JBool?
  }

  /** `body.key` on a request body: the value, or `None` (undefined) when the key is absent. */
  function FieldOf(body: map<string, Json>, key: string): (v: Option<Json>)
    ensures v.Some? <==> key in body
    ensures v.Some? ==> v.value == body[key]
  {
    if key in body then Some(body[key]) else None
  }

  /** A plain object from a field map. */
  function Obj(fields: map<string, Json>): Json {
    JObj(fields)
  }
}
