/** The one container type shared by all modules: a value that may be missing. */
module Wrappers {

  datatype Option<+T> = None | Some(value: T) {

    function UnwrapOr(default: T): T {
      if Some? then value else default
    }
  }
}
