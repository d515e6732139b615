/** Values as the route handlers and the page see them: optional JSON
    fields, JavaScript truthiness of strings, the configuration read from
    the environment, and what a `catch` clause receives. */
module Js {

  datatype Option<+T> = None | Some(value: T)

  /** A string read from a request body, a service reply or the
      environment is truthy when it is present and not the empty string. */
  predicate Truthy(s: Option<string>) {
    s.Some? && s.value != ""
  }

  /** The process environment, injected instead of read from `process.env`. */
  type Env = map<string, string>

  function Lookup(env: Env, key: string): Option<string> {
    if key in env then Some(env[key]) else None
  }

  /** `process.env[key]` is truthy. */
  predicate Configured(env: Env, key: string) {
    Truthy(Lookup(env, key))
  }

  /** What a `catch (error)` clause receives: an `Error` object carrying a
      message, or some other thrown value. */
  datatype Thrown = ErrorObject(message: string) | OtherValue

  /** `error instanceof Error ? error.message : fallback` */
  function MessageOf(t: Thrown, fallback: string): string {
    match t
    case ErrorObject(m) => m
    case OtherValue => fallback
  }
}
