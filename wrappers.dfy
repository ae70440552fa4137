/** Rust's `Option`, as used for the lexer's current character and the
    parser's optional statements and program. */
module Wrappers {
  datatype Option<+T> = None | Some(value: T)
}
