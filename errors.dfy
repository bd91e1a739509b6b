/** Go error values as the core builds and inspects them. */
module Errors {

  /**
   * An error value: the repository's sentinel `ErrNotFound`, an `errors.New` message
   * (or an opaque error of a collaborator), or a `fmt.Errorf("<context>: %w", cause)` wrapping.
   */
  datatype Error =
    | NotFound
    | Plain(text: string)
    | Wrapped(context: string, cause: Error)

  /** err.Error(): the message the wrapping chain prints. */
  function Message(e: Error): string
  {
    match e
    case NotFound => "not found"
    case Plain(t) => t
    case Wrapped(c, cause) => c + ": " + Message(cause)
  }

  /** errors.Is(e, ErrNotFound): the sentinel itself, or somewhere down the %w chain. */
  predicate IsNotFound(e: Error)
  {
    match e
    case NotFound => true
    case Plain(_) => false
    case Wrapped(_, cause) => IsNotFound(cause)
  }

  /** fmt.Errorf("<context>: %w", ...) applied once per context, the last context outermost. */
  function WrapAll(contexts: seq<string>, e: Error): (w: Error)
    ensures |contexts| > 0 ==> w.Wrapped? && w.context == contexts[0]
  {
    if |contexts| == 0 then e else Wrapped(contexts[0], WrapAll(contexts[1..], e))
  }

  /**
   * errors.Is sees through any number of %w wrappings, and the wrapped error's message is
   * still the tail of the printed message.
   */
  lemma {:induction false} IsNotFoundThroughWrapping(contexts: seq<string>, e: Error)
    ensures IsNotFound(WrapAll(contexts, e)) <==> IsNotFound(e)
    ensures |Message(e)| <= |Message(WrapAll(contexts, e))|
    ensures Message(WrapAll(contexts, e))[|Message(WrapAll(contexts, e))| - |Message(e)|..] == Message(e)
  {
    if |contexts| > 0 {
      IsNotFoundThroughWrapping(contexts[1..], e);
    }
  }
}
