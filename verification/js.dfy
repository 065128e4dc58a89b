/**
 * The JavaScript values the option middleware inspects: optional values
 * (`undefined`), parsed `package.json` content, truthiness, the nullish
 * coalescing operator `??` and property access with `?.`.
 */
module Js {

  /** `None` stands for a value that is `undefined` (a missing argument,
      an unset environment variable, an absent manifest field). */
  datatype Option<+T> = None | Some(value: T)

  /** A value read from `package.json`. Fields are type-checked by the
      middleware (`typeof x === 'boolean'`), so any JSON value may appear. */
  datatype Json =
    | JNull
    | JBool(b: bool)
    | JNum(n: real)
    | JStr(s: string)
    | JArr(items: seq<Json>)
    | JObj(fields: map<string, Json>)

  /** JavaScript truthiness of an optional JSON value: `undefined`, `null`,
      `false`, `0` and `''` are falsy, everything else is truthy. */
  predicate Truthy(v: Option<Json>)
  {
    match v
    case None => false
    case Some(JNull) => false
    case Some(JBool(b)) => b
    case Some(JNum(n)) => n != 0.0
    case Some(JStr(s)) => s != ""
    case Some(JArr(_)) => true
    case Some(JObj(_)) => true
  }

  /** `??` falls through only on `undefined` and `null`. */
  predicate Nullish(v: Option<Json>)
  {
    v.None? || v.value.JNull?
  }

  /** `a ?? b` */
  function Coalesce(a: Option<Json>, b: Option<Json>): Option<Json>
  {
    if Nullish(a) then b else a
  }

  /** `a ?? d` where the fallback `d` is a definite value. */
  function CoalesceOr(a: Option<Json>, d: Json): Json
  {
    if Nullish(a) then d else a.value
  }

  /** The value of an optional JSON value once `null` is identified with
      `undefined`: the form in which a `??` operand decides or falls through. */
  function Defined(v: Option<Json>): Option<Json>
  {
    if Nullish(v) then None else v
  }

  /** `v?.key`: `undefined` unless `v` is an object holding `key`. Property
      access on a number, string, boolean or array yields `undefined` for
      the keys read here. */
  function Member(v: Option<Json>, key: string): Option<Json>
  {
    if v.Some? && v.value.JObj? && key in v.value.fields then Some(v.value.fields[key]) else None
  }

  /** `obj.key` on a parsed object. */
  function Prop(obj: map<string, Json>, key: string): Option<Json>
  {
    if key in obj then Some(obj[key]) else None
  }

  /** `env.NAME`: an environment variable is a string or `undefined`. */
  function EnvGet(env: map<string, string>, name: string): Option<string>
  {
    if name in env then Some(env[name]) else None
  }

  /** `env.NAME` as a JSON operand of `??`. */
  function EnvJson(env: map<string, string>, name: string): Option<Json>
  {
    if name in env then Some(JStr(env[name])) else None
  }

  /** `typeof v === 'boolean' ? v : undefined` */
  function BoolOf(v: Option<Json>): Option<bool>
  {
    if v.Some? && v.value.JBool? then Some(v.value.b) else None
  }
}
