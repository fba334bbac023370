/** The optional value used wherever the TypeScript source has `T | null`,
    `T | undefined` or an optional property `x?: T`. */
module Wrappers {

  datatype Option<+T> = None | Some(value: T)
}
