/** The errors `verify` reports. */
module Errors {

  /**
   * The five `badRequest` errors that `verify` builds itself, and the
   * transport and parser errors it passes on unchanged.
   */
  datatype ErrorKind =
    | InvalidUris
    | SelfReference
    | LoopbackSource
    | NotFound
    | NoMention
    | Transport(cause: string)
    | Parser(cause: string)

  /** The error's message: the `badRequest` texts of `verify`, or the foreign error's own. */
  function Message(e: ErrorKind): (r: string)
    ensures e.Transport? || e.Parser? ==> r == e.cause
    ensures !e.Transport? && !e.Parser? ==> "`source` " <= r
  {
    match e
    case InvalidUris => "`source` and `target` must be valid URIs"
    case SelfReference => "`source` and `target` cannot be equal"
    case LoopbackSource => "`source` cannot be loopback or local address"
    case NotFound => "`source` is not found"
    case NoMention => "`source` does not mention `target`"
    case Transport(cause) => cause
    case Parser(cause) => cause
  }

  /** The five errors `verify` builds itself can be told apart by their messages. */
  lemma OwnMessagesDistinct(e1: ErrorKind, e2: ErrorKind)
    requires !e1.Transport? && !e1.Parser? && !e2.Transport? && !e2.Parser?
    ensures Message(e1) == Message(e2) <==> e1 == e2
  {
  }

}
