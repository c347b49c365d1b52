/** An optional value: a JSON field or header that may be absent. */
module Wrappers {

  datatype Option<+T> = None | Some(value: T)

  /** An optional string is truthy: present and not the empty string. */
  predicate Given(x: Option<string>)
  {
    x.Some? && x.value != []
  }
}
