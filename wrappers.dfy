/** The optional value used for an argument the caller may leave out. */
module Wrappers {

  /** `None` stands for an omitted (`undefined`) argument. */
  datatype Option<+T> = None | Some(value: T)
}
