/** The optional-value wrapper shared by every module of the model. */
module Wrappers {

  /** `None` stands for JavaScript's `undefined`/`null` and Python's `None`. */
  datatype Option<+T> = None | Some(value: T) {

    /** The `??` operator: the wrapped value, or `default` when there is none. */
    function GetOr(default: T): T
    {
      match this
      case Some(v) => v
      case None => default
    }
  }
}
