/**
 * JSON values as the application sees them after `JSON.parse`, with the few
 * JavaScript operations applied to them: property reads, truthiness,
 * `Object.keys(v).length > 0` and `String(v)`. Numbers are integers.
 */
module Json {
  import opened Options
  import opened Seqs
  import opened Text

  datatype Json =
    | JNull
    | JBool(b: bool)
    | JNum(n: int)
    | JStr(s: string)
    | JArr(items: seq<Json>)
    | JObj(fields: seq<(string, Json)>)   // members in source order; duplicates allowed

  /** The value of the last member named `key` (the one `JSON.parse` keeps). */
  function Lookup(fields: seq<(string, Json)>, key: string): (r: Option<Json>)
    ensures r.Some? <==> exists i :: 0 <= i < |fields| && fields[i].0 == key
    ensures r.Some? ==> (key, r.value) in fields
  {
    if fields == [] then None
    else if Last(fields).0 == key then Some(Last(fields).1)
    else
      var r := Lookup(AllButLast(fields), key);
      assert forall i :: 0 <= i < |fields| - 1 ==> fields[i] == AllButLast(fields)[i];
      r
  }

  /** The property read `v.key`: a member of an object, `undefined` (None) for anything else. */
  function Get(v: Json, key: string): Option<Json> {
    if v.JObj? then Lookup(v.fields, key) else None
  }

  /** `v == null` in JavaScript's loose sense: `undefined` or `null`. */
  predicate IsNullish(v: Option<Json>) {
    v.None? || v.value == JNull
  }

  /** JavaScript truthiness. */
  predicate Truthy(v: Json) {
    match v
    case JNull => false
    case JBool(b) => b
    case JNum(n) => n != 0
    case JStr(s) => s != ""
    case JArr(_) => true
    case JObj(_) => true
  }

  predicate TruthyOpt(v: Option<Json>) {
    v.Some? && Truthy(v.value)
  }

  /** `Object.keys(v).length > 0`: strings and arrays have index keys, objects their members. */
  predicate HasKeys(v: Json)
    ensures HasKeys(v) ==> Truthy(v)
  {
    match v
    case JStr(s) => |s| > 0
    case JArr(a) => |a| > 0
    case JObj(f) => |f| > 0
    case _ => false
  }

  /** `String(v)`: arrays join their elements with commas, `null` elements print as nothing. */
  function ToText(v: Json): string
    decreases v
  {
    match v
    case JNull => "null"
    case JBool(b) => if b then "true" else "false"
    case JNum(n) => IntToString(n)
    case JStr(s) => s
    case JArr(items) =>
      Join(seq(|items|, i requires 0 <= i < |items| => if items[i] == JNull then "" else ToText(items[i])), ',')
    case JObj(_) => "[object Object]"
  }
}
