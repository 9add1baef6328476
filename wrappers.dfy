/** Option, as the handlers use `null`/`undefined` for an absent header, form field or e-mail. */
module Wrappers {

  datatype Option<+T> = None | Some(value: T)

  /** JavaScript truthiness of a string that may be absent: present and non-empty. */
  predicate Truthy(o: Option<string>)
  {
    o.Some? && o.value != ""
  }

  /** JavaScript's `x || ''`: a truthy string is kept, anything falsy (absent or empty) gives "". */
  function OrEmpty(o: Option<string>): (s: string)
    ensures Truthy(o) ==> s == o.value
    ensures !Truthy(o) ==> s == ""
  {
    if o.Some? then o.value else ""
  }
}
