/** Python values and Ansible parameters that both modules share. */
module Runtime {

  datatype Option<+T> = None | Some(value: T)

  /** The `state` parameter of both modules; Ansible restricts it to these two choices. */
  datatype State = Present | Absent

  /** The values the appliance client's steps hand back: `None`, a `bool`, or an HTTP status code. */
  datatype PyValue = PyNone | PyBool(b: bool) | PyInt(i: int) {

    /** Python's truth test: `None`, `False` and `0` are false. */
    predicate Truthy() {
      match this
      case PyNone => false
      case PyBool(b) => b
      case PyInt(i) => i != 0
    }
  }

  /** The status code a request hands back: `None` when the transport failed. */
  function StatusValue(status: Option<int>): PyValue {
    if status.Some? then PyInt(status.value) else PyNone
  }

  /** A string-valued parameter in a truth test: `None` and `''` are false. */
  predicate NonEmpty(s: Option<string>) {
    s.Some? && s.value != ""
  }

  /** Python's `set(xs)`. */
  function ToSet<T>(xs: seq<T>): set<T> {
    set x | x in xs
  }
}
