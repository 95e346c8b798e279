/**
 * The process environment as the modules read it: `os.getenv(name)` is
 * `None` for an unset variable and the variable's text otherwise.
 */
module Env {
  import opened Wrappers

  type Environment = map<string, string>

  /** `os.getenv(name)` */
  function GetEnv(env: Environment, name: string): (v: Option<string>)
    ensures v.Some? <==> name in env
    ensures v.Some? ==> v.value == env[name]
  {
    if name in env then Some(env[name]) else None
  }

  /** `os.getenv(name, default)` */
  function GetEnvOr(env: Environment, name: string, default: string): (v: string)
    ensures name in env ==> v == env[name]
    ensures name !in env ==> v == default
  {
    if name in env then env[name] else default
  }

  /** Python truthiness of an optional string: set and non-empty. */
  predicate Truthy(v: Option<string>) {
    v.Some? && v.value != ""
  }

  /** `any(var is None for var in values)`, the test every `Config.validate` applies. */
  predicate AnyNone(values: seq<Option<string>>) {
    exists k :: 0 <= k < |values| && values[k].None?
  }

  /** The `EnvironmentError("Missing required environment variables.")` check. */
  function RequireAll(values: seq<Option<string>>): (r: Outcome<string>)
    ensures r.Pass? <==> forall k :: 0 <= k < |values| ==> values[k].Some?
  {
    if AnyNone(values) then Fail("Missing required environment variables.") else Pass
  }
}
