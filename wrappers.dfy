/** Small value wrappers shared by every module of the model. */
module Wrappers {

  /** A value that may be absent (`undefined` / `null` in the source). */
  datatype Option<+T> = None | Some(value: T)

  /** A browser-storage slot as read back at load time: nothing stored (or an
      empty string), a blob that does not parse, or a parsed value. */
  datatype Slot<+T> = Missing | Corrupt | Stored(value: T)

  function Min(a: int, b: int): int { if a <= b then a else b }
}
