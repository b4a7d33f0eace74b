/** The conventional optional value, standing for a TypeScript `T | null | undefined`. */
module Wrappers {

  datatype Option<+T> = None | Some(value: T)
}
