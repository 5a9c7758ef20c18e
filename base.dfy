/** Small shared vocabulary: the optional value used wherever the Go code returns a nil pointer or a comma-ok pair. */
module Base {

  datatype Option<T> = None | Some(value: T) {

    /** The value, or `default` when there is none */
    function GetOr(default: T): T {
      match this
      case Some(v) => v
      case None => default
    }
  }
}
