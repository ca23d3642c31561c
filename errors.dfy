/**
 * Go errors as the balance engine produces and inspects them. `fmt.Errorf("ctx: %w", err)`
 * becomes `Wrapped("ctx", err)`; the sentinel errors are constructors of their own; an
 * error coming out of a library or a transport the model does not look inside is `Opaque`.
 */
module Errors {
  import opened Text

  datatype Error =
    | ProviderNotFound(symbol: string)          // fmt.Errorf("%w: %s", ErrProviderNotFoundForSymbol, symbol)
    | Wrapped(context: string, cause: Error)    // fmt.Errorf("<context>: %w", cause)
    | Canceled                                  // context.Canceled
    | DeadlineExceeded                          // context.DeadlineExceeded
    | IndexOutOfRange                           // ErrIndexOutOfRange of bitcoin, litecoin and kaspa
    | InvalidEthereumAddress                    // ethereum.ErrInvalidEthereumAddress
    | InvalidSolanaAddress                      // solana.ErrInvalidSolanaAddress
    | UnexpectedStatus(code: nat, body: string) // fmt.Errorf("%w %d: %s", ErrUnexpectedStatus, code, body)
    | Opaque(message: string)                   // any other error, known only by its text

  /** `err.Error()`: the text a caller (and a batch result slot) sees. */
  function Message(e: Error): (m: string)
  {
    match e
    case ProviderNotFound(symbol) => "provider not found for symbol: " + symbol
    case Wrapped(context, cause) => context + ": " + Message(cause)
    case Canceled => "context canceled"
    case DeadlineExceeded => "context deadline exceeded"
    case IndexOutOfRange => "index out of range for uint32"
    case InvalidEthereumAddress => "invalid Ethereum address format"
    case InvalidSolanaAddress => "invalid Solana address format"
    case UnexpectedStatus(code, body) => "unexpected status " + DecimalString(code) + ": " + body
    case Opaque(message) => message
  }

  /** A wrapped error's message starts with its context and ends with its cause's message. */
  lemma WrappedMessage(context: string, cause: Error)
    ensures var m := Message(Wrapped(context, cause));
      m[..|context|] == context && m[|m| - |Message(cause)|..] == Message(cause)
  {
  }

  /**
   * `errors.Is(err, context.Canceled) || errors.Is(err, context.DeadlineExceeded)`:
   * `errors.Is` follows the `%w` chain, so a wrapped cancellation still counts.
   */
  function IsContextError(e: Error): (matches: bool)
    ensures matches <==> Innermost(e).Canceled? || Innermost(e).DeadlineExceeded?
  {
    match e
    case Canceled => true
    case DeadlineExceeded => true
    case Wrapped(_, cause) => IsContextError(cause)
    case _ => false
  }

  /** The error at the end of the `%w` chain. */
  function Innermost(e: Error): Error
  {
    match e
    case Wrapped(_, cause) => Innermost(cause)
    case _ => e
  }

  /** Wrapping never hides a cancellation or a deadline from `errors.Is`, nor invents one. */
  lemma {:induction false} ContextErrorThroughWrapping(contexts: seq<string>, e: Error)
    ensures IsContextError(WrapAll(contexts, e)) == IsContextError(e)
  {
    if contexts != [] {
      ContextErrorThroughWrapping(contexts[1..], e);
    }
  }

  /** `e` wrapped by each context in turn, innermost last: the chain `fmt.Errorf` builds up the call stack. */
  function WrapAll(contexts: seq<string>, e: Error): Error
  {
    if contexts == [] then e else Wrapped(contexts[0], WrapAll(contexts[1..], e))
  }
}
