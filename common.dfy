/** Small shared datatypes. */
module Common {

  /** A value that may be absent (a missing JSON field, a failed lookup). */
  datatype Option<T> = None | Some(value: T) {

    /** The wrapped value, or `default` when absent. */
    function GetOr(default: T): T {
      match this
      case Some(v) => v
      case None => default
    }
  }
}
