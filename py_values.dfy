/** Python-level values of a decoded Slack JSON payload, as the endpoint
    code observes them through `dict.get`, truthiness and `str()`. */
module PyValues {

  datatype Option<+T> = None | Some(value: T) {
    /** `dict.get(key, default)` for a key whose value is never null. */
    function GetOr(default: T): T {
      match this
      case Some(v) => v
      case None => default
    }
  }

  /** A scalar JSON value as Python sees it: `None` (JSON null) or a `str`. */
  datatype PyVal = PyNone | PyStr(s: string)

  /** One key of a decoded JSON object: absent, or present with a value. */
  datatype Field = Missing | Present(value: PyVal)

  /** `obj.get(key, default)`: the default is used only when the key is absent. */
  function Get(f: Field, default: PyVal): PyVal {
    match f
    case Missing => default
    case Present(v) => v
  }

  /** Python truthiness: `None` and the empty string are falsy. */
  predicate Truthy(v: PyVal) {
    v.PyStr? && v.s != ""
  }

  /** `str(v)`, as an f-string renders it. */
  function Str(v: PyVal): string {
    match v
    case PyNone => "None"
    case PyStr(s) => s
  }
}
