/** Small shared vocabulary: optional values and real-number extrema. */
module Prelude {

  datatype Option<+T> = None | Some(value: T)

  function Max(x: real, y: real): (r: real) {
    if x >= y then x else y
  }

  function Min(x: real, y: real): (r: real) {
    if x <= y then x else y
  }

  function SetOf<T>(xs: seq<T>): (r: set<T>) {
    set x | x in xs
  }
}
