/**
 * The exceptions of the adapter (src/exceptions.py) together with the Python
 * built-in exceptions the modelled code lets escape. The texts of built-in
 * exceptions are Python's own; a tagged constructor stands for them.
 */
module Errors {
  import opened Wrappers

  datatype Error =
      /** AgiloftAuthError: login failed, or no token when one is needed. */
    | Auth(message: string)
      /** AgiloftAPIError, with the HTTP status and raw body when known. */
    | Api(message: string, status: Option<int>, body: Option<string>)
      /** AgiloftConfigError: the configuration file could not be loaded. */
    | Config(message: string)
      /** ValueError raised by the adapter itself (unknown tool, entity, handler). */
    | Value(message: string)
      /** A raw aiohttp.ClientError that no handler converts. */
    | Transport(message: string)
      /** A Python TypeError, AttributeError, KeyError, IndexError or ValueError from a
          built-in operation applied to data of the wrong shape. */
    | Builtin(kind: BuiltinKind)

  datatype BuiltinKind = TypeError | AttributeError | KeyError | IndexError | ValueError

  /** `str(e)`: the message the exception was raised with. A built-in
      exception's own text is not modelled; its kind in angle brackets stands
      for it. */
  function Text(e: Error): string {
    match e
    case Auth(m) => m
    case Api(m, _, _) => m
    case Config(m) => m
    case Value(m) => m
    case Transport(m) => m
    case Builtin(k) =>
      match k
      case TypeError => "<TypeError>"
      case AttributeError => "<AttributeError>"
      case KeyError => "<KeyError>"
      case IndexError => "<IndexError>"
      case ValueError => "<ValueError>"
  }
}
