/** JavaScript values as the configuration builder reads them from `process.env`. */
module JsValues {

  /** `string | undefined` and the like: a value that is either present or `undefined`. */
  datatype Option<T> = None | Some(value: T)

  /** The process environment. A variable that is not a key of the map is `undefined`. */
  type Env = map<string, string>

  /** `process.env[name]`. */
  function Get(env: Env, name: string): Option<string>
  {
    if name in env then Some(env[name]) else None
  }

  /** JavaScript `!!v` on `string | undefined`: only a present, non-empty string is truthy. */
  predicate Truthy(v: Option<string>)
  {
    v.Some? && v.value != ""
  }

  /** JavaScript `v ?? d`: the default replaces `undefined` only, so `""` passes through. */
  function Coalesce<T>(v: Option<T>, d: T): T
  {
    if v.Some? then v.value else d
  }

  /** JavaScript `a ?? b` where `b` may itself be `undefined`. */
  function OrElse<T>(a: Option<T>, b: Option<T>): Option<T>
  {
    if a.Some? then a else b
  }
}
