/**
  The values that `JSON.parse` yields for a configuration file, together with
  the few JavaScript operations the migration applies to them: truthiness,
  `o || d`, property reads, object spread and a `map` over an array whose
  callback may throw.
 */
module Json {
  import opened Wrappers

  /** A parsed JSON value. Numbers are integers in this model. */
  datatype Json =
    | Null
    | Bool(b: bool)
    | Num(n: int)
    | Str(s: string)
    | Arr(items: seq<Json>)
    | Obj(props: map<string, Json>)

  /** JavaScript truthiness: `null`, `false`, `0` and `""` are falsy; arrays and objects, even empty, are truthy. */
  predicate Truthy(v: Json) {
    match v
    case Null => false
    case Bool(b) => b
    case Num(n) => n != 0
    case Str(s) => s != ""
    case Arr(_) => true
    case Obj(_) => true
  }

  /** `m[k]` on an object's properties; `None` when the key is missing (`undefined`). */
  function Lookup(m: map<string, Json>, k: string): Option<Json> {
    if k in m then Some(m[k]) else None
  }

  /**
    `v.k` for a value that is not `null`. Only objects have the property
    names the migration reads (`name`, `enabled`, `path`, ...); on a string,
    number, boolean or array they are `undefined`.
   */
  function Get(v: Json, k: string): Option<Json> {
    if v.Obj? then Lookup(v.props, k) else None
  }

  /** A possibly-undefined value that is truthy: the test `if (x)` passes. */
  predicate Present(o: Option<Json>) {
    o.Some? && Truthy(o.value)
  }

  /** `o || d`: the value itself when it is truthy, otherwise the default. */
  function Or(o: Option<Json>, d: Json): Json {
    if Present(o) then o.value else d
  }

  /** `Array.isArray(o)`. */
  predicate IsArray(o: Option<Json>) {
    o.Some? && o.value.Arr?
  }

  /** `Array.isArray(o) ? o : []`. */
  function ArrayOrEmpty(o: Option<Json>): Json {
    if IsArray(o) then o.value else Arr([])
  }

  /** The properties `{...v}` copies: an object's own properties, none for `null`, numbers and booleans. */
  function Spread(v: Json): map<string, Json> {
    if v.Obj? then v.props else map[]
  }

  /**
    `s.map(f)` where `f` may throw: the first failing element aborts the
    whole map with its error; otherwise the results keep length and order.
   */
  function MapAll<E>(f: Json -> Result<Json, E>, s: seq<Json>): (r: Result<seq<Json>, E>)
    ensures r.Ok? <==> forall i :: 0 <= i < |s| ==> f(s[i]).Ok?
    ensures r.Ok? ==> |r.value| == |s| && forall i :: 0 <= i < |s| ==> r.value[i] == f(s[i]).value
    ensures r.Err? ==> exists i :: 0 <= i < |s| && f(s[i]) == Err(r.error)
  {
    if s == [] then Ok([])
    else
      match f(s[0])
      case Err(e) => Err(e)
      case Ok(x) =>
        match MapAll(f, s[1..])
        case Err(e) => Err(e)
        case Ok(xs) => Ok([x] + xs)
  }
}
