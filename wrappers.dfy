/** The optional values the dashboard passes around: an absent query parameter,
    an undefined prop, a lookup that found nothing. */
module Wrappers {

  datatype Option<+T> = None | Some(value: T) {

    /** The value, or `default` when absent (the `x ?? default` and `x || default` of the source). */
    function GetOr(default: T): T
    {
      match this
      case Some(v) => v
      case None => default
    }

    /** This value when present, otherwise `other`. */
    function OrElse(other: Option<T>): Option<T>
    {
      if this.Some? then this else other
    }
  }
}
