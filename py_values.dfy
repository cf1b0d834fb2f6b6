/** Python values as the agent's result dictionary holds them, and the few
    built-in operations on them that the output normaliser uses. */
module PyValues {

  /** A Python object, as far as the normaliser tells objects apart: None, a
      str, a list, a dict with str keys, or any other object (an int, a
      tuple, a message object, ...), known only by its identity. */
  datatype Value =
    | PyNone
    | PyStr(s: string)
    | PyList(items: seq<Value>)
    | PyDict(fields: map<string, Value>)
    | PyObject(id: nat)

  /** `d.get(key, default)` */
  function GetOr(d: map<string, Value>, key: string, default: Value): Value
  {
    if key in d then d[key] else default
  }

  /** `d.get(key)`: a missing key reads as None. */
  function Get(d: map<string, Value>, key: string): Value
  {
    GetOr(d, key, PyNone)
  }

  /** `str(v)` for a value that is not a str. `str(None)` is "None"; for any
      other object the text is whatever the object's `__str__` gives, which
      the model takes as the parameter `render`. */
  function ToStr(v: Value, render: Value -> string): string
  {
    if v == PyNone then "None" else render(v)
  }
}
