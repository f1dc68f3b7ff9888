/** The Option type used for partial operations (range resolution, the start timebase). */
module Wrappers {

  datatype Option<+T> = None | Some(value: T)
}
