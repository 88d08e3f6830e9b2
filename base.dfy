/** Small shared vocabulary: Go's `error` results and its two-valued lookups. */
module Base {

  /** An optional value. As a Go `error`, `None` stands for `nil` and `Some(m)` for an error whose text is `m`. */
  datatype Option<+T> = None | Some(value: T) {

    /** The value, or `default` when there is none. */
    function GetOr(default: T): T {
      match this
      case Some(v) => v
      case None => default
    }
  }

  /** Go's `m[k]` on a `map[string]string`: the empty string when the key is absent. */
  function Lookup(m: map<string, string>, k: string): string {
    if k in m then m[k] else ""
  }
}
