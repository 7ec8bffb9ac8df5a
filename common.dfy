/** Small value types shared by every module of the model. */
module Common {

  /** A value that may be absent: JavaScript's `null` / `undefined`. */
  datatype Option<T> = None | Some(value: T)

  /** JavaScript truthiness of an optional string: present and non-empty. */
  predicate Truthy(s: Option<string>)
  {
    s.Some? && s.value != ""
  }

  /**
   * `r` is what `{...current, ...patch}` leaves in one field: the patch's
   * value when the patch names the field, the current value otherwise.
   */
  predicate Merged<T(==)>(patch: Option<T>, r: T, current: T)
  {
    (patch.Some? ==> r == patch.value) && (patch.None? ==> r == current)
  }

  /** One field of an object spread. */
  function Override<T(==)>(patch: Option<T>, current: T): (r: T)
    ensures Merged(patch, r, current)
  {
    match patch
    case Some(v) => v
    case None => current
  }
}
