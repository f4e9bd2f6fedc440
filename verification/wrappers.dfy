/** The optional-value datatype used for Swift's `String?` and for search results. */
module Wrappers {

  /** `None` plays the role of Swift's `nil`. */
  datatype Option<+T> = None | Some(value: T)
}
