/** `AuthController.getAzureToken`: the outcome of the token request becomes
    an HTTP reply. A token is a 200 reply carrying it; an `IOException`
    whose message names conditional access is a 401 with the remediation
    text; every other exception is a 500 naming its kind and message. */
module AuthController {
  import opened Wrappers
  import opened Text
  import opened AuthService

  /** The reply: a 200 carrying the token, or an error body with its status,
      error code and message. */
  datatype Reply = TokenReply(token: string) | ErrorReply(status: int, code: string, message: string)

  function Status(r: Reply): int
  {
    if r.TokenReply? then 200 else r.status
  }

  const ConditionalAccessCode: string := "AZURE_AUTH_CONDITIONAL_ACCESS_ERROR"
  const InternalErrorCode: string := "INTERNAL_SERVER_ERROR"

  /** The fixed text of the 401 reply. */
  const ConditionalAccessReply: string :=
    "Azure 조건부 액세스 정책 오류: 다음 명령어를 터미널에서 실행하고 다시 시도하세요.\n" + RemedySteps

  const IoErrorPrefix: string := "Azure CLI 실행 중 IO 오류: "
  const InterruptedPrefix: string := "Azure CLI 실행이 중단됨: "
  const FailurePrefix: string := "Azure 토큰 획득 실패: "

  /** A message as string concatenation prints it: `null` when absent. */
  function Printed(message: Option<string>): string
  {
    if message.Some? then message.value else "null"
  }

  /** The three texts whose presence in the message means conditional access. */
  predicate NamesConditionalAccess(message: Option<string>)
  {
    message.Some? &&
    (Contains(message.value, ConditionalAccessPolicy) || Contains(message.value, "Conditional Access") ||
     Contains(message.value, "AADSTS"))
  }

  /** The reply to the outcome of `getAzureAccessToken`. */
  function Respond(outcome: Result<string, Exception>): Reply
  {
    match outcome
    case Ok(token) => TokenReply(token)
    case Err(IOException(m)) =>
      if NamesConditionalAccess(m) then ErrorReply(401, ConditionalAccessCode, ConditionalAccessReply)
      else ErrorReply(500, InternalErrorCode, IoErrorPrefix + Printed(m))
    case Err(InterruptedException(m)) => ErrorReply(500, InternalErrorCode, InterruptedPrefix + Printed(m))
    case Err(RuntimeException(m)) => ErrorReply(500, InternalErrorCode, FailurePrefix + Printed(m))
  }

  /** Every reply is a 200, a 401 or a 500: 200 exactly for a token, 401
      exactly for an `IOException` naming conditional access, with its
      fixed code and text, and a 500 carries the internal-error code and a
      message that opens with the prefix of the exception's kind and ends
      with the printed message. */
  lemma ReplyClassified(outcome: Result<string, Exception>)
    ensures var r := Respond(outcome);
            (Status(r) == 200 <==> outcome.Ok?) &&
            (outcome.Ok? ==> r == TokenReply(outcome.value)) &&
            (Status(r) == 401 <==>
               outcome.Err? && outcome.error.IOException? && NamesConditionalAccess(outcome.error.message)) &&
            (Status(r) == 401 ==> r.code == ConditionalAccessCode && r.message == ConditionalAccessReply) &&
            (Status(r) == 200 || Status(r) == 401 || Status(r) == 500) &&
            (Status(r) == 500 ==>
               var prefix := match outcome.error
                             case IOException(_) => IoErrorPrefix
                             case InterruptedException(_) => InterruptedPrefix
                             case RuntimeException(_) => FailurePrefix;
               r.code == InternalErrorCode &&
               r.message == prefix + Printed(outcome.error.message))
  {
  }

  /** An `IOException` with no message is a 500 whose message ends in
      `null`. */
  lemma NullMessageIsServerError()
    ensures Respond(Err(IOException(None))) == ErrorReply(500, InternalErrorCode, IoErrorPrefix + "null")
  {
  }

  /** What the endpoint answers for a given CLI: the service's outcome, its
      failures thrown as their `IOException`s. */
  function ServeToken(az: AzCommand -> CliRun): Reply
  {
    var a := AcquireToken(az);
    Respond(if a.result.Ok? then Ok(a.result.value) else Err(Thrown(a.result.error)))
  }

  /** The refusal's message names conditional access. */
  lemma RefusalNamesConditionalAccess()
    ensures NamesConditionalAccess(Some(BlockedMessage))
  {
    BlockedMessageOpensWithMarker();
    ContainsWhenOccurs(BlockedMessage, ConditionalAccessPolicy, 0);
  }

  /** Neither "cannot obtain" message names conditional access. */
  lemma NoTokenMessagesNameNothing()
    ensures !NamesConditionalAccess(Some(NoTokenMessage))
    ensures !NamesConditionalAccess(Some(BlankTokenMessage))
  {
    NoTokenMessageLacks();
    BlankTokenMessageLacks();
    assert ConditionalAccessPolicy[0] == '조';
    assert "Conditional Access"[0] == 'C' && "Conditional Access"[1] == 'o';
    assert "AADSTS"[2] == 'D';
    MissingCharNotContained(NoTokenMessage, ConditionalAccessPolicy, '조');
    MissingCharNotContained(NoTokenMessage, "Conditional Access", 'C');
    MissingCharNotContained(NoTokenMessage, "AADSTS", 'D');
    MissingCharNotContained(BlankTokenMessage, ConditionalAccessPolicy, '조');
    MissingCharNotContained(BlankTokenMessage, "Conditional Access", 'o');
    MissingCharNotContained(BlankTokenMessage, "AADSTS", 'D');
  }

  /** The service's refusal is a 401 with the fixed text; its two "cannot
      obtain" errors are 500s reported as I/O errors. */
  lemma FailureReplies(f: Failure)
    ensures Respond(Err(Thrown(f))) ==
            match f
            case Refused => ErrorReply(401, ConditionalAccessCode, ConditionalAccessReply)
            case Unobtainable => ErrorReply(500, InternalErrorCode, IoErrorPrefix + NoTokenMessage)
            case BlankToken => ErrorReply(500, InternalErrorCode, IoErrorPrefix + BlankTokenMessage)
  {
    RefusalNamesConditionalAccess();
    NoTokenMessagesNameNothing();
  }

  /** Across the service and the controller: a token is a 200 carrying a
      token that is not blank; the conditional-access refusal, and only it,
      is a 401; the two "cannot obtain" errors are 500s reported as I/O
      errors, so the interrupted and generic replies never occur. */
  lemma EndpointReplies(az: AzCommand -> CliRun)
    ensures var r := ServeToken(az);
            var a := AcquireToken(az);
            (Status(r) == 200 <==> a.result.Ok?) &&
            (a.result.Ok? ==> r == TokenReply(a.result.value) && !IsBlank(r.token)) &&
            (Status(r) == 401 <==> a.result == Err(Refused)) &&
            (a.result == Err(Unobtainable) ==>
               r == ErrorReply(500, InternalErrorCode, IoErrorPrefix + NoTokenMessage)) &&
            (a.result == Err(BlankToken) ==>
               r == ErrorReply(500, InternalErrorCode, IoErrorPrefix + BlankTokenMessage))
  {
    var a := AcquireToken(az);
    if a.result.Ok? {
      ReturnedTokenNotBlank(az);
    } else {
      FailureReplies(a.result.error);
    }
  }
}
