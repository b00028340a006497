/** Parsed JSON values as the hub browser's JavaScript handles them, and the
    three operators its fallback rules are written with: truthiness, `||`
    and optional member access `?.`. */
module JsValues {
  import opened Wrappers

  /** A parsed JSON value. JavaScript's `null` and `undefined` are both
      `Null`. `||`, `?.` and `!` do not tell them apart, and the plain
      member accesses (`.data`, `.success`, `.type`, `.access_token`,
      `.relationships`) are only applied to values that are never
      `undefined`: parsed response bodies and the results of `||`.
      Numbers are integers. */
  datatype Json =
    | Null
    | Bool(b: bool)
    | Num(n: int)
    | Str(s: string)
    | Arr(items: seq<Json>)
    | Obj(fields: map<string, Json>)

  /** JavaScript truthiness: `null`, `false`, `0` and `""` are falsy;
      every array and every object, even an empty one, is truthy. */
  predicate Truthy(v: Json) {
    match v
    case Null => false
    case Bool(b) => b
    case Num(n) => n != 0
    case Str(s) => s != ""
    case Arr(_) => true
    case Obj(_) => true
  }

  /** `a || b`. */
  function Or(a: Json, b: Json): Json {
    if Truthy(a) then a else b
  }

  /** `v?.key`: the field of an object, and `undefined` for a missing field
      or for anything that is not an object. */
  function Get(v: Json, key: string): Json {
    if v.Obj? && key in v.fields then v.fields[key] else Null
  }

  /** `v.key` without `?.`: reading a member of `null` throws a TypeError,
      shown here as `None`. */
  function Member(v: Json, key: string): (r: Option<Json>)
    ensures r.None? <==> v.Null?
    ensures r.Some? ==> r.value == Get(v, key)
  {
    if v.Null? then None else Some(Get(v, key))
  }

  /** The chain `c[0] || c[1] || ... || c[|c|-1]`: the first truthy operand,
      or the last operand when none is truthy. */
  function Coalesce(c: seq<Json>): (r: Json)
    requires |c| > 0
    ensures forall i :: 0 <= i < |c| && Truthy(c[i]) && (forall j :: 0 <= j < i ==> !Truthy(c[j])) ==> r == c[i]
    ensures (forall i :: 0 <= i < |c| ==> !Truthy(c[i])) ==> r == c[|c| - 1]
    ensures Truthy(r) <==> exists i :: 0 <= i < |c| && Truthy(c[i])
  {
    if |c| == 1 then c[0] else Or(c[0], Coalesce(c[1..]))
  }

  /** How a template literal `${v}` renders an optional string. */
  function TemplateText(v: Option<string>): string
  {
    if v.Some? then v.value else "undefined"
  }
}
