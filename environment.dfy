/** The process environment the gateway reads its settings from. */
module Environment {

  /** The environment variables that are set, with their values. */
  type Env = map<string, string>

  /** `os.Getenv(key)`: the empty text when the variable is unset. */
  function Getenv(env: Env, key: string): string
  {
    if key in env then env[key] else ""
  }
}
