/** `AuthService`: an Azure access token obtained through the Azure CLI. The
    CLI is an oracle from the command to what its process reports; the
    scoped graph and management requests come first, a conditional-access
    refusal ends the attempt, any other failure gets one recovery pass
    (`az account clear`, then an unscoped request), and a blank token is
    refused. */
module AuthService {
  import opened Wrappers
  import opened Text

  /** The four CLI invocations the service can make. */
  datatype AzCommand = GraphToken | ManagementToken | AccountClear | PlainToken

  /** The command line of each invocation. */
  function CommandLine(c: AzCommand): string
  {
    match c
    case GraphToken =>
      "az account get-access-token --scope " + GraphScope + " --query accessToken -o tsv"
    case ManagementToken =>
      "az account get-access-token --scope https://management.azure.com//.default --query accessToken -o tsv"
    case AccountClear => "az account clear"
    case PlainToken => "az account get-access-token --query accessToken -o tsv"
  }

  /** What one CLI process reports: its output and error lines and its exit
      code, or the exception starting it (`IOException`) or waiting for it
      (`InterruptedException`) raised, with that exception's message. */
  datatype CliRun =
    | Finished(stdout: seq<string>, stderr: seq<string>, exit: int)
    | StartFailed(message: Option<string>)
    | Interrupted(message: Option<string>)

  /** The checked exceptions of the service, and any other one, with the
      message `getMessage` returns (`None` for `null`). */
  datatype Exception =
    | IOException(message: Option<string>)
    | InterruptedException(message: Option<string>)
    | RuntimeException(message: Option<string>)

  const CliFailurePrefix: string := "Azure CLI 명령 실행 실패: "

  /** `executeAzCliCommand` on what the process reports: a non-zero exit is
      an `IOException` carrying the error lines, each ended by a newline;
      otherwise the output lines, joined without separator and trimmed. */
  function CliResult(run: CliRun): (r: Result<string, Exception>)
    ensures r.Err? ==> !r.error.RuntimeException?
  {
    match run
    case StartFailed(m) => Err(IOException(m))
    case Interrupted(m) => Err(InterruptedException(m))
    case Finished(stdout, stderr, exit) =>
      if exit != 0 then Err(IOException(Some(CliFailurePrefix + Terminated(stderr))))
      else Ok(Trim(Concat(stdout)))
  }

  /** The CLI helper, reading both streams line by line before the exit
      code is looked at. */
  method ExecuteAzCliCommand(c: AzCommand, az: AzCommand -> CliRun) returns (r: Result<string, Exception>)
    ensures r == CliResult(az(c))
  {
    var run := az(c);
    match run
    case StartFailed(m) =>
      return Err(IOException(m));
    case Interrupted(m) =>
      return Err(InterruptedException(m));
    case Finished(stdout, stderr, exit) =>
      var output := JoinLines(stdout);
      var error := JoinTerminated(stderr);
      if exit != 0 {
        return Err(IOException(Some(CliFailurePrefix + error)));
      }
      r := Ok(Trim(output));
  }

  /** A failed helper call reports the exit code's error text after the
      fixed prefix, and a successful one gives trimmed text. */
  lemma CliResultShape(run: CliRun)
    ensures var r := CliResult(run);
            (r.Ok? ==> run.Finished? && run.exit == 0 && Trim(r.value) == r.value &&
                       (r.value == [] || (!IsTrimmed(r.value[0]) && !IsTrimmed(r.value[|r.value| - 1])))) &&
            (run.Finished? && run.exit != 0 ==>
               r.Err? && r.error.IOException? && r.error.message.Some? &&
               r.error.message.value == CliFailurePrefix + Terminated(run.stderr))
  {
    if run.Finished? && run.exit == 0 {
      TrimIdempotent(Concat(run.stdout));
      TrimProperties(Concat(run.stdout));
    }
  }

  // ---------------------------------------------------------------------
  // Messages

  const GraphScope: string := GraphHost + GraphPath
  const GraphHost: string := "https://graph."
  const GraphPath: string := "microsoft.com//.default"

  /** The four remediation steps both the service and the controller give. */
  const RemedySteps: string :=
    "1. az account clear\n" +
    "2. rm -rf ~/.azure\n" +
    "3. az login --scope " + GraphScope + "\n" +
    "4. 로그인 후 다시 시도하세요."

  /** The marker the controller looks for first. */
  const ConditionalAccessPolicy: string := "조건부 액세스 정책"

  /** The error of a conditional-access refusal. */
  const BlockedMessage: string := ConditionalAccessPolicy + BlockedRest

  const BlockedRest: string := "으로 인해 인증이 차단되었습니다. 터미널에서 다음 명령을 실행하세요:\n" + RemedySteps

  const NoTokenLead: string := "Azure 액세스 토큰을 획득할 수 없습니다. "
  const TerminalPiece: string := "터미널에서 "
  const LoginPiece: string := "'az login --scope "
  const RetryPiece: string := "'를 실행한 후 다시 시도하세요."
  const CliPiece: string := "Azure CLI로 "
  const CheckPiece: string := "로그인되어 있는지 확인하세요."

  /** The error when the recovery pass fails too. */
  const NoTokenMessage: string :=
    NoTokenLead + TerminalPiece + LoginPiece + GraphHost + GraphPath + RetryPiece

  /** The error when the token obtained is blank. */
  const BlankTokenMessage: string := NoTokenLead + CliPiece + CheckPiece

  // Which characters the two "cannot obtain" messages lack, piece by piece:
  // no `D` (so no "AADSTS"), no `C` or no `o` (so no "Conditional Access")
  // and no `조` (so no "조건부 액세스 정책").

  lemma LeadLacksLetters()
    ensures 'D' !in NoTokenLead && 'C' !in NoTokenLead
  {
  }

  lemma LeadLacksOthers()
    ensures 'o' !in NoTokenLead && '조' !in NoTokenLead
  {
  }

  lemma InstructionLacks()
    ensures 'D' !in TerminalPiece && 'C' !in TerminalPiece && '조' !in TerminalPiece
    ensures 'D' !in LoginPiece && 'C' !in LoginPiece && '조' !in LoginPiece
  {
  }

  lemma HostLacks()
    ensures 'D' !in GraphHost && 'C' !in GraphHost && '조' !in GraphHost
  {
  }

  lemma PathLacks()
    ensures 'D' !in GraphPath && 'C' !in GraphPath && '조' !in GraphPath
  {
  }

  lemma RetryLacks()
    ensures 'D' !in RetryPiece && 'C' !in RetryPiece && '조' !in RetryPiece
  {
  }

  lemma CheckLacks()
    ensures 'D' !in CliPiece && 'o' !in CliPiece && '조' !in CliPiece
    ensures 'D' !in CheckPiece && 'o' !in CheckPiece && '조' !in CheckPiece
  {
  }

  lemma NoTokenMessageLacks()
    ensures 'D' !in NoTokenMessage && 'C' !in NoTokenMessage && '조' !in NoTokenMessage
  {
    LeadLacksLetters();
    LeadLacksOthers();
    InstructionLacks();
    HostLacks();
    PathLacks();
    RetryLacks();
  }

  lemma BlankTokenMessageLacks()
    ensures 'D' !in BlankTokenMessage && 'o' !in BlankTokenMessage && '조' !in BlankTokenMessage
  {
    LeadLacksOthers();
    LeadLacksLetters();
    CheckLacks();
  }

  /** The refusal message opens with the conditional-access marker. */
  lemma BlockedMessageOpensWithMarker()
    ensures OccursAt(BlockedMessage, ConditionalAccessPolicy, 0)
  {
    OccursAtFront(ConditionalAccessPolicy, BlockedRest);
  }

  // ---------------------------------------------------------------------
  // The token protocol

  /** The messages that mark a conditional-access refusal. */
  predicate IsConditionalAccessRefusal(message: Option<string>)
  {
    message.Some? &&
    (Contains(message.value, "AADSTS53003") || Contains(message.value, "AADSTS50079") ||
     Contains(message.value, "AADSTS50076") ||
     Contains(message.value, "Access has been blocked by Conditional Access policies"))
  }

  /** Where the service gives up: the conditional-access refusal (the
      `throw` at AuthService.java line 53), the failed recovery (line 70) and
      the blank token (line 75). */
  datatype Failure = Refused | Unobtainable | BlankToken

  /** The `IOException` each failure throws. */
  function Thrown(f: Failure): Exception
  {
    match f
    case Refused => IOException(Some(BlockedMessage))
    case Unobtainable => IOException(Some(NoTokenMessage))
    case BlankToken => IOException(Some(BlankTokenMessage))
  }

  /** How far the CLI calls got: a token, or the exception of the last call. */
  datatype Attempt = Attempt(result: Result<string, Exception>, issued: seq<AzCommand>)

  /** The graph request and then the management one; the graph token is
      overwritten by the management one. */
  function ScopedAttempt(az: AzCommand -> CliRun): Attempt
  {
    match CliResult(az(GraphToken))
    case Err(e) => Attempt(Err(e), [GraphToken])
    case Ok(_) => Attempt(CliResult(az(ManagementToken)), [GraphToken, ManagementToken])
  }

  /** The recovery pass: the cache is cleared and the token requested without
      a scope; the result is the unscoped request's, or the failure of the
      clear. */
  function RecoveryAttempt(az: AzCommand -> CliRun): Attempt
  {
    match CliResult(az(AccountClear))
    case Err(e) => Attempt(Err(e), [AccountClear])
    case Ok(_) => Attempt(CliResult(az(PlainToken)), [AccountClear, PlainToken])
  }

  /** The outcome of `getAzureAccessToken` and the CLI commands it made. */
  datatype Acquisition = Acquisition(result: Result<string, Failure>, issued: seq<AzCommand>)

  /** `getAzureAccessToken`. */
  function AcquireToken(az: AzCommand -> CliRun): Acquisition
  {
    var scoped := ScopedAttempt(az);
    if scoped.result.Err? && IsConditionalAccessRefusal(scoped.result.error.message) then
      Acquisition(Err(Refused), scoped.issued)
    else
      var last := if scoped.result.Ok? then scoped
                  else var recovery := RecoveryAttempt(az);
                       Attempt(recovery.result, scoped.issued + recovery.issued);
      match last.result
      case Err(_) => Acquisition(Err(Unobtainable), last.issued)
      case Ok(token) =>
        if IsBlank(token) then Acquisition(Err(BlankToken), last.issued)
        else Acquisition(Ok(token), last.issued)
  }

  /** The first `try` block: the graph request, then the management one. */
  method TryScoped(az: AzCommand -> CliRun) returns (a: Attempt)
    ensures a == ScopedAttempt(az)
  {
    var graph := ExecuteAzCliCommand(GraphToken, az);
    if graph.Err? {
      return Attempt(graph, [GraphToken]);
    }
    var management := ExecuteAzCliCommand(ManagementToken, az);
    a := Attempt(management, [GraphToken, ManagementToken]);
  }

  /** The recovery `try` block: clear, then the unscoped request. */
  method TryRecovery(az: AzCommand -> CliRun) returns (a: Attempt)
    ensures a == RecoveryAttempt(az)
  {
    var clear := ExecuteAzCliCommand(AccountClear, az);
    if clear.Err? {
      return Attempt(clear, [AccountClear]);
    }
    var plain := ExecuteAzCliCommand(PlainToken, az);
    a := Attempt(plain, [AccountClear, PlainToken]);
  }

  method GetAzureAccessToken(az: AzCommand -> CliRun)
    returns (result: Result<string, Failure>, issued: seq<AzCommand>)
    ensures Acquisition(result, issued) == AcquireToken(az)
  {
    var last := TryScoped(az);
    if last.result.Err? {
      if IsConditionalAccessRefusal(last.result.error.message) {
        return Err(Refused), last.issued;
      }
      var recovery := TryRecovery(az);
      last := Attempt(recovery.result, last.issued + recovery.issued);
    }
    issued := last.issued;
    if last.result.Err? {
      return Err(Unobtainable), issued;
    }
    if IsBlank(last.result.value) {
      return Err(BlankToken), issued;
    }
    result := Ok(last.result.value);
  }

  // ---------------------------------------------------------------------
  // Properties of the protocol

  /** When both scoped requests succeed with a token that is not blank, the
      management token is returned, whatever the graph request gave, and no
      recovery is made. */
  lemma HappyPath(az: AzCommand -> CliRun)
    requires CliResult(az(GraphToken)).Ok? && CliResult(az(ManagementToken)).Ok?
    requires !IsBlank(CliResult(az(ManagementToken)).value)
    ensures AcquireToken(az) ==
            Acquisition(Ok(CliResult(az(ManagementToken)).value), [GraphToken, ManagementToken])
  {
  }

  /** A scoped failure whose message marks a conditional-access refusal ends
      the attempt with the remediation error; neither recovery command is
      made. */
  lemma RefusalStops(az: AzCommand -> CliRun)
    requires ScopedAttempt(az).result.Err?
    requires IsConditionalAccessRefusal(ScopedAttempt(az).result.error.message)
    ensures AcquireToken(az) == Acquisition(Err(Refused), ScopedAttempt(az).issued)
    ensures AccountClear !in AcquireToken(az).issued && PlainToken !in AcquireToken(az).issued
  {
  }

  /** Any other scoped failure, a `null` message included, gets exactly one
      recovery pass: the cache is cleared, and only if that succeeds the
      unscoped request is made; a failure of either is the "cannot obtain"
      error, and a token it yields is returned unless blank. */
  lemma RecoveryPass(az: AzCommand -> CliRun)
    requires ScopedAttempt(az).result.Err?
    requires !IsConditionalAccessRefusal(ScopedAttempt(az).result.error.message)
    ensures var a := AcquireToken(az);
            var clear := CliResult(az(AccountClear));
            var plain := CliResult(az(PlainToken));
            a.issued == ScopedAttempt(az).issued + [AccountClear] + (if clear.Ok? then [PlainToken] else []) &&
            (clear.Err? || plain.Err? <==> a.result == Err(Unobtainable)) &&
            (clear.Ok? && plain.Ok? ==>
               a.result == if IsBlank(plain.value) then Err(BlankToken) else Ok(plain.value))
  {
    if CliResult(az(AccountClear)).Ok? {
      assert RecoveryAttempt(az) == Attempt(CliResult(az(PlainToken)), [AccountClear, PlainToken]);
    } else {
      assert RecoveryAttempt(az) == Attempt(CliResult(az(AccountClear)), [AccountClear]);
    }
  }

  /** The position of each command in the protocol. */
  function Rank(c: AzCommand): nat
  {
    match c
    case GraphToken => 0
    case ManagementToken => 1
    case AccountClear => 2
    case PlainToken => 3
  }

  /** Commands made in protocol order, none twice. */
  predicate InProtocolOrder(issued: seq<AzCommand>)
  {
    forall i, j :: 0 <= i < j < |issued| ==> Rank(issued[i]) < Rank(issued[j])
  }

  /** Joining two ordered runs of commands, the second starting after the
      first ends, keeps the order. */
  lemma OrderedJoin(xs: seq<AzCommand>, ys: seq<AzCommand>)
    requires InProtocolOrder(xs) && InProtocolOrder(ys)
    requires xs != [] && ys != [] && Rank(xs[|xs| - 1]) < Rank(ys[0])
    ensures InProtocolOrder(xs + ys)
  {
    var s := xs + ys;
    forall i, j | 0 <= i < j < |s| ensures Rank(s[i]) < Rank(s[j]) {
      if i < |xs| && j >= |xs| {
        assert Rank(s[i]) <= Rank(xs[|xs| - 1]);
        assert Rank(ys[0]) <= Rank(s[j]);
      }
    }
  }

  lemma PairOrdered(a: AzCommand, b: AzCommand)
    requires Rank(a) < Rank(b)
    ensures InProtocolOrder([a]) && InProtocolOrder([a, b])
  {
  }

  /** The commands made are the scoped ones, followed by the recovery ones
      exactly when a scoped failure is not a refusal. */
  lemma IssuedCommands(az: AzCommand -> CliRun)
    ensures var scoped := ScopedAttempt(az);
            AcquireToken(az).issued ==
              if scoped.result.Err? && !IsConditionalAccessRefusal(scoped.result.error.message)
              then scoped.issued + RecoveryAttempt(az).issued
              else scoped.issued
  {
  }

  /** At most four CLI commands are made, none twice, in the order graph,
      management, clear, unscoped; the graph request always comes first,
      and the unscoped request only after a clear. */
  lemma CommandOrder(az: AzCommand -> CliRun)
    ensures var issued := AcquireToken(az).issued;
            1 <= |issued| <= 4 && issued[0] == GraphToken && InProtocolOrder(issued) &&
            (PlainToken in issued ==> AccountClear in issued)
  {
    PairOrdered(GraphToken, ManagementToken);
    PairOrdered(AccountClear, PlainToken);
    var scoped := ScopedAttempt(az).issued;
    var recovery := RecoveryAttempt(az).issued;
    OrderedJoin(scoped, recovery);
    IssuedCommands(az);
    assert (scoped + recovery)[|scoped|] == AccountClear;
  }

  /** A token handed back is never blank, and is already trimmed. */
  lemma ReturnedTokenNotBlank(az: AzCommand -> CliRun)
    requires AcquireToken(az).result.Ok?
    ensures !IsBlank(AcquireToken(az).result.value)
    ensures Trim(AcquireToken(az).result.value) == AcquireToken(az).result.value
  {
    var scoped := ScopedAttempt(az);
    if scoped.result.Ok? {
      assert scoped.result == CliResult(az(ManagementToken));
      CliResultShape(az(ManagementToken));
    } else {
      assert RecoveryAttempt(az).result == CliResult(az(PlainToken));
      CliResultShape(az(PlainToken));
    }
  }

  /** Whatever the CLI does, the service throws nothing but an
      `IOException`: an interrupted CLI call ends in one too. */
  lemma OnlyIOExceptions(az: AzCommand -> CliRun)
    requires AcquireToken(az).result.Err?
    ensures Thrown(AcquireToken(az).result.error).IOException?
  {
  }
}
