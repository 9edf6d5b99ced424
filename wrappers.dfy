/** Absence of a value: a failed load, a NaN sample, no basin. */
module Wrappers {

  datatype Option<+T> = None | Some(value: T)
}
