// Optional values and fallible results shared by the other modules.
module Wrappers {

  // A dictionary key that may be missing, or an argument that may be omitted.
  datatype Option<+T> = None | Some(value: T) {

    // `d.get(key, fallback)`: the stored value, or the fallback when the key is absent.
    function GetOr(fallback: T): T {
      if Some? then value else fallback
    }
  }

  // Either the selected value or the name of what was missing.
  datatype Result<+R, +E> = Success(value: R) | Failure(error: E)
}
