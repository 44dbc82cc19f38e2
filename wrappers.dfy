/** Small value wrappers shared by every module of the model. */
module Wrappers {

  /** A nullable value: `None` stands for JavaScript's `null`. */
  datatype Option<+T> = None | Some(value: T)

  /** A property of a partial record: `Unset` stands for a key the object does not
      have (reading it yields `undefined`), `Set(v)` for a key holding `v`. */
  datatype Field<+T> = Unset | Set(value: T)

  /** JavaScript's `v || d` on a nullable string: the empty string and `null`
      are both falsy, so either falls back to `d`. */
  function OrElse(v: Option<string>, d: string): (r: string)
    ensures r == d || (v.Some? && r == v.value)
    ensures v.Some? && v.value != "" ==> r == v.value
    ensures (v.None? || v.value == "") ==> r == d
  {
    if v.Some? && v.value != "" then v.value else d
  }
}
