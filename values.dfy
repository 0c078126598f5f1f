/** Optional values, results and the metadata dictionaries that travel with
    documents, chunks and search hits. */
module Values {
  import Numeric

  datatype Option<T> = None | Some(value: T)

  /** An operation that either returns a value or raises an exception whose
      message is kept. */
  datatype Result<T> = Ok(value: T) | Err(message: string)

  /** The values a metadata dictionary holds: strings and integers (page
      counts, file sizes). */
  datatype Value = Str(s: string) | Int(i: int)

  /** A metadata dictionary (or a point payload): keys to values. */
  type Metadata = map<string, Value>

  /** Python truthiness of an optional string: `None` and `""` are false. */
  predicate Truthy(s: Option<string>) {
    s.Some? && s.value != ""
  }

  /** Python `d.get(key, default)` for a key whose value is read as a string. */
  function GetStr(m: Metadata, key: string, default: string): string
    requires key in m ==> m[key].Str?
  {
    if key in m then m[key].s else default
  }

  /** `metadata.get(key, "Unknown")`. */
  function MetaOr(m: Metadata, key: string): Value {
    if key in m then m[key] else Str("Unknown")
  }

  /** `os.getenv(key)`: the variable's value, or `None` when unset. */
  function Getenv(env: map<string, string>, key: string): Option<string> {
    if key in env then Some(env[key]) else None
  }

  /** `arg or os.getenv(key, default)`: a truthy argument wins, then the
      environment variable (even when set to the empty string), then the
      default. */
  function ArgOrEnv(arg: Option<string>, env: map<string, string>, key: string, default: string): (r: string)
    ensures Truthy(arg) ==> r == arg.value
    ensures !Truthy(arg) && key in env ==> r == env[key]
    ensures !Truthy(arg) && key !in env ==> r == default
  {
    if Truthy(arg) then arg.value else if key in env then env[key] else default
  }

  /** Python `str(v)`, as an f-string prints a metadata value. */
  function Show(v: Value): string {
    match v
    case Str(s) => s
    case Int(i) => Numeric.IntToString(i)
  }
}
