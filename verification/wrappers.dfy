/** An optional value, used for the fare calculators' "no result"
    outcome: the form shows an alert and keeps its previous state. */
module Wrappers {

  /** `None` is the rejected calculation or the unparsable number. */
  datatype Option<+T> = None | Some(value: T) {

    /** Returns the wrapped value, or `default` when there is none. */
    function GetOr(default: T): (r: T)
      ensures Some? ==> r == value
      ensures None? ==> r == default
    {
      match this
      case Some(v) => v
      case None => default
    }
  }
}
