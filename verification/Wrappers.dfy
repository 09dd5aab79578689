/** The optional value every other module uses where the source has std::optional. */
module Wrappers {
  datatype Option<+T> = None | Some(value: T)
}
