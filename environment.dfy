/** The process environment as a map from variable names to values. */
module Environment {

  /** `os.Getenv`: the empty string for an unset variable. */
  function Getenv(env: map<string, string>, name: string): (v: string)
    ensures name !in env ==> v == ""
    ensures name in env ==> v == env[name]
  {
    if name in env then env[name] else ""
  }
}
