/** Payment error kinds: which may end a command for good, and which may be retried against the bank. */
module Errors {

  datatype ErrorKind =
    | InvalidInput | NotFound | IdempotencyConflict | IdempotencyInProgress | StatusConflict
    | AuthorizationExpired | BankStateConflict | BankUnavailable | BankTimeout | Internal

  /** A kind that may be stored as the failure of a completed command. */
  predicate IsTerminalFailure(kind: ErrorKind) {
    kind == AuthorizationExpired
  }

  /** A bank outcome that is unknown: the request may or may not have taken effect. */
  predicate IsRetryable(kind: ErrorKind) {
    kind == BankTimeout || kind == BankUnavailable
  }

  /** The kind of the error rebuilt from a stored kind; two kinds carry request data and cannot be rebuilt. */
  function ErrorOfKind(kind: ErrorKind): (rebuilt: ErrorKind)
    ensures rebuilt == kind <==> kind != InvalidInput && kind != NotFound
    ensures IsTerminalFailure(kind) ==> rebuilt == kind
  {
    match kind
    case InvalidInput => Internal
    case NotFound => Internal
    case k => k
  }
}
