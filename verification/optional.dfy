/**
 The optional value used throughout the model: Python's `None` versus a
 present value (a spreadsheet cell, the bot's chain, a chat input).
 */
module Optional {

  datatype Option<+T> = None | Some(value: T) {

    /** The value, or `default` when there is none. */
    function GetOr(default: T): (r: T)
      ensures Some? ==> r == value
      ensures None? ==> r == default
    {
      match this
      case Some(v) => v
      case None => default
    }
  }
}
