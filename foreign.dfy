/** Calls into code the model cannot see (document libraries, the speech-to-text
    and language-model services). Such a call either returns a value or raises a
    Python exception; the script never catches one, so a raised exception ends the
    run that made the call. */
module Foreign {

  datatype Outcome<+T> = Returned(value: T) | Raised(exception: string)

  /** A Python value that may be `None`. */
  datatype Option<+T> = None | Some(value: T)
}
