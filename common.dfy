/** Shared vocabulary: optional values, results that carry the Python
    exception a call would raise, and the process environment. */
module Common {

  datatype Option<+T> = None | Some(value: T)

  /** The exceptions the modelled code raises, with the message it gives them.
      `RuntimeError` stands for every failure of an ffmpeg run (a non-zero exit
      status or the timeout), which the code reports with the same exception type. */
  datatype Error =
    | ValueError(msg: string)
    | RuntimeError(msg: string)
    | FileNotFoundError(msg: string)

  datatype Result<+T> = Ok(value: T) | Err(error: Error)

  /** A call that returns nothing or raises. */
  datatype Outcome = Pass | Fail(error: Error)

  /** File-system paths and argument vectors are plain strings. */
  type Path = string
  type Cmd = seq<string>

  /** The process environment, as `os.environ` sees it. */
  type Env = map<string, string>

  /** `os.getenv(name)` */
  function GetEnv(env: Env, name: string): Option<string> {
    if name in env then Some(env[name]) else None
  }

  /** `os.getenv(name, default)`: the default applies only when the variable is
      unset; a variable set to the empty string yields the empty string. */
  function GetEnvOr(env: Env, name: string, default: string): string {
    match GetEnv(env, name)
    case Some(v) => v
    case None => default
  }

  /** Python truthiness of an optional string: set and non-empty. */
  predicate Truthy(s: Option<string>) {
    s.Some? && s.value != ""
  }

  /** `a / b` for two path components, as `pathlib` renders it. */
  function PathJoin(dir: Path, name: string): Path {
    dir + "/" + name
  }
}
