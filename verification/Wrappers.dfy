/** Small shared datatypes. */
module Wrappers {

  /** A nullable value: the source's `Optional[...]`. */
  datatype Option<+T> = None | Some(value: T)

  /** The source's `x or ""`, used on every optional text that goes on the wire. */
  function OrEmpty(text: Option<string>): string {
    if text.Some? then text.value else ""
  }

  /** The source's `x or default` on optional text: a missing and an empty text are both replaced. */
  function OrDefault(text: Option<string>, default: string): string {
    if text.Some? && text.value != "" then text.value else default
  }
}
