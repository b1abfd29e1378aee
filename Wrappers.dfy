// Optional values: a JavaScript `undefined`/`null`, a missing dictionary key,
// or a step that threw.
module Wrappers {

  datatype Option<T> = None | Some(value: T) {

    function GetOr(default: T): T {
      match this
      case Some(v) => v
      case None => default
    }
  }
}
