/** The error values of the backend: the sentinels of errs/errors.go, plus
    every other error, which the Go code builds with a message. */
module Errors {

  datatype Error =
    | NoAudioChunksInManifest
    | UserHasNoStripeAccount
    | UserHasNoActiveSubscription
    | UserSubscriptionIsExpired
    | ExceededSubscriptionTranscriptionLimits
    | UnverifiedEmailAccount
    | InvalidAuthToken
    | AuthTokenDoesNotMatchAcessedUser
      /** Any error created with a message (`errors.New`, `fmt.Errorf`) or
          returned by a collaborator. */
    | Failure(message: string)
  {
    /** The text `Error()` returns; for the sentinels it is their stable id. */
    function Text(): string {
      match this
      case NoAudioChunksInManifest => "NoAudioChunksInManifest"
      case UserHasNoStripeAccount => "ErrUserHasNoStripeAccount"
      case UserHasNoActiveSubscription => "ErrUserHasNoActiveSubscription"
      case UserSubscriptionIsExpired => "ErrUserSubscriptionIsExpired"
      case ExceededSubscriptionTranscriptionLimits => "ErrExceededSubscriptionTranscriptionLimits"
      case UnverifiedEmailAccount => "ErrUnverifiedEmailAccount"
      case InvalidAuthToken => "ErrInvalidAuthToken"
      case AuthTokenDoesNotMatchAcessedUser => "ErrAuthTokenDoesNotMatchAcessedUser"
      case Failure(m) => m
    }
  }

  /** The document store's answer when a read or an update names a
      document that does not exist. */
  function NotFound(path: string): Error {
    Failure("rpc error: code = NotFound desc = no document at " + path)
  }

  /** The document store's answer when a create names an existing document. */
  function AlreadyExists(path: string): Error {
    Failure("rpc error: code = AlreadyExists desc = document already exists: " + path)
  }

  datatype Option<+T> = None | Some(value: T)

  /** A Go `(value, error)` pair where exactly one side is meaningful. */
  datatype Result<+T> = Ok(value: T) | Err(error: Error) {
    predicate IsFailure() { Err? }

    function PropagateFailure<U>(): Result<U>
      requires Err?
    {
      Err(error)
    }

    function Extract(): T
      requires Ok?
    {
      value
    }
  }

  /** A Go function that returns only an `error`. */
  datatype Outcome = Pass | Fail(error: Error) {
    predicate IsFailure() { Fail? }

    function PropagateFailure(): Outcome
      requires Fail?
    {
      this
    }
  }
}
