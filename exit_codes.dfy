/** The entry point's classification of how a run ended into the process
    exit code: 0 for success, 1 for a user error (the caller's mistake),
    2 for anything else (an application error). Two kinds of credential
    failures raised while running are the caller's mistake and are promoted
    to user errors first. */
module ExitCodes {
  import opened Errors

  const INVALID_CLIENT_TOKEN_ID: string := "InvalidClientTokenId"
  const SIGNATURE_DOES_NOT_MATCH: string := "SignatureDoesNotMatch"

  /** Whether an error is a rejected STS credential or an Azure 403. */
  predicate IsCredentialRejection(e: Error) {
    || (e.StsException? && (e.awsErrorCode == INVALID_CLIENT_TOKEN_ID || e.awsErrorCode == SIGNATURE_DOES_NOT_MATCH))
    || (e.AzureServiceException? && e.code == 403)
  }

  /** The inner `catch` blocks: rejected STS credentials become a user error
      carrying the AWS message, an Azure 403 one carrying the service
      message; every other error is re-thrown unchanged. */
  function Promote(e: Error): (r: Error)
    ensures e.StsException? && IsCredentialRejection(e) ==> r == UserException(e.awsErrorMessage)
    ensures e.AzureServiceException? && IsCredentialRejection(e) ==> r == UserException(e.errorMessage)
    ensures !IsCredentialRejection(e) ==> r == e
  {
    match e
    case StsException(code, message) =>
      if code == INVALID_CLIENT_TOKEN_ID || code == SIGNATURE_DOES_NOT_MATCH then UserException(message) else e
    case AzureServiceException(code, message) =>
      if code == 403 then UserException(message) else e
    case _ => e
  }

  /** Promotion never touches a user error and never needs repeating. */
  lemma PromoteIdempotent(e: Error)
    ensures Promote(Promote(e)) == Promote(e)
    ensures e.UserException? ==> Promote(e) == e
  {
  }

  /** How the process ended: the component could not be constructed (the
      configuration did not load), or it ran to `result`. */
  datatype Ending = ConstructionFailed(error: Error) | Ran(result: Result<()>)

  /** The outer `catch` blocks. Errors of construction are outside the
      promoting `try` and are classified as they are. */
  function ExitCode(ending: Ending): (code: nat)
    ensures code <= 2
    ensures code == 0 <==> ending.Ran? && ending.result.Ok?
    ensures code == 1 <==> || (ending.ConstructionFailed? && ending.error.UserException?)
                           || (ending.Ran? && ending.result.Err?
                               && (ending.result.error.UserException? || IsCredentialRejection(ending.result.error)))
  {
    match ending
    case ConstructionFailed(e) => if e.UserException? then 1 else 2
    case Ran(Ok(_)) => 0
    case Ran(Err(e)) => if Promote(e).UserException? then 1 else 2
  }

  /** A region mismatch, a type error, any S3 failure and any other STS or
      Azure failure ends as an application error. */
  lemma ApplicationErrorsExitTwo(e: Error)
    requires !e.UserException? && !IsCredentialRejection(e)
    ensures ExitCode(Ran(Err(e))) == 2
    ensures ExitCode(ConstructionFailed(e)) == 2
  {
  }
}
