/** Option, Result and Outcome: the model's stand-ins for Python's None and for raised exceptions. */
module Wrappers {

  /** A value or Python's `None`. */
  datatype Option<+T> = None | Some(value: T)
  {
    /** `d.get(key, default)` style fallback. */
    function GetOr(default: T): T
    {
      match this
      case Some(v) => v
      case None => default
    }
  }

  /** A value, or the exception that Python code raises instead of returning one. */
  datatype Result<+T, +E> = Ok(value: T) | Err(error: E)

  /** Completion of a statement that returns nothing, or the exception it raises. */
  datatype Outcome<+E> = Pass | Fail(error: E)

  /** Dictionary lookup without a default, `d.get(key)`. */
  function Get<K, V>(m: map<K, V>, k: K): (r: Option<V>)
    ensures r.Some? <==> k in m
    ensures r.Some? ==> r.value == m[k]
  {
    if k in m then Some(m[k]) else None
  }
}
