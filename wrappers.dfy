/** Option, used for nullable values, values that may be missing and parsers that may fail. */
module Wrappers {

  datatype Option<+T> = None | Some(value: T) {

    /** The value, or `default` when there is none (the `x || default` idiom on nullables). */
    function GetOr(default: T): T {
      match this
      case Some(v) => v
      case None => default
    }
  }

  /** `list || []`: a null or undefined list is read as the empty list. */
  function Items<T>(list: Option<seq<T>>): seq<T> {
    list.GetOr([])
  }
}
