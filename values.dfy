/** Decoded JSON/YAML values as the Python code sees them, with the parts of
    Python's object protocol the modelled code depends on: truthiness,
    `key in container` and `container[key]`. */
module PyValues {
  import opened Wrappers
  import PyStr

  /** A Python value built from JSON/YAML data. `VRange(lo, hi)` is `range(lo, hi)`;
      `VSet` lists a set's members in the order iteration yields them. */
  datatype Value =
    | VNone
    | VBool(b: bool)
    | VInt(i: int)
    | VStr(s: string)
    | VList(items: seq<Value>)
    | VDict(entries: map<string, Value>)
    | VRange(lo: int, hi: int)
    | VSet(members: seq<Value>)

  /** Python truthiness (`if v:`). */
  predicate Truthy(v: Value) {
    match v
    case VNone => false
    case VBool(b) => b
    case VInt(i) => i != 0
    case VStr(s) => s != ""
    case VList(xs) => xs != []
    case VDict(m) => m != map[]
    case VRange(lo, hi) => lo < hi
    case VSet(xs) => xs != []
  }

  /** The TypeError Python raises for `key in v` when `v` is not a container. */
  datatype TypeError = TypeError

  /** `key in container` for a string key: a dict's keys, a list's or set's members,
      a substring of a string; `None`, a bool or a number raises TypeError. */
  function ContainsKey(container: Value, key: string): Result<bool, TypeError> {
    match container
    case VDict(m) => Ok(key in m)
    case VList(xs) => Ok(VStr(key) in xs)
    case VSet(xs) => Ok(VStr(key) in xs)
    case VStr(s) => Ok(PyStr.Contains(s, key))
    case VRange(_, _) => Ok(false)
    case _ => Err(TypeError)
  }

  /** `container[key]` for a string key: only a dict that holds the key answers;
      every other case raises (KeyError or TypeError), shown as `None`. */
  function GetItem(container: Value, key: string): Option<Value> {
    if container.VDict? && key in container.entries then Some(container.entries[key]) else None
  }

  /** `str(b)` for a bool. */
  function BoolStr(b: bool): string {
    if b then "True" else "False"
  }
}
