/** Running Terraform in a workspace: the environment handed to each
    `terraform` process, `init` before `apply`, the scan of the apply output
    for signs of an Azure access failure, and the outcome of a run in the
    two authentication modes. Every process is an oracle from the command
    and its environment to its exit code and output lines. */
module Execution {
  import opened Wrappers
  import opened Text
  import opened ConfigTree
  import opened Reconcile

  // ---------------------------------------------------------------------
  // Process environments

  /** Why `ProcessBuilder.environment().put` refuses a value: a `null` value
      throws `NullPointerException`, a NUL character
      `IllegalArgumentException`. */
  datatype EnvError = NullValue(key: string) | NulInValue(key: string)

  function PutCheck(key: string, value: Option<string>): (e: Option<EnvError>)
    ensures e.None? <==> value.Some? && '\0' !in value.value
    ensures e.Some? ==> e.value.key == key
  {
    if value.None? then Some(NullValue(key))
    else if '\0' in value.value then Some(NulInValue(key))
    else None
  }

  /** `System.getenv(key)`: the inherited value, or `null`. */
  function Lookup(vars: map<string, string>, key: string): Option<string>
  {
    if key in vars then Some(vars[key]) else None
  }

  /** The environment of one process, a copy of the server's own that the
      code then edits key by key. */
  class Environment {
    var vars: map<string, string>

    constructor (inherited: map<string, string>)
      ensures vars == inherited
    {
      vars := inherited;
    }

    method Remove(key: string)
      modifies this
      ensures vars == old(vars) - {key}
    {
      vars := vars - {key};
    }

    method Put(key: string, value: Option<string>) returns (e: Option<EnvError>)
      modifies this
      ensures e == PutCheck(key, value)
      ensures e.None? ==> vars == old(vars)[key := value.value]
      ensures e.Some? ==> vars == old(vars)
    {
      e := PutCheck(key, value);
      if e.None? {
        vars := vars[key := value.value];
      }
    }
  }

  /** The inherited keys token mode removes before setting its own. */
  const TokenModeRemoved: set<string> :=
    {"ARM_CLIENT_ID", "ARM_CLIENT_SECRET", "ARM_USE_CLI", "ARM_USE_AZURECLI_AUTH",
     "ARM_USE_MSI", "ARM_USE_OIDC", "AZURE_CONFIG_DIR"}

  const TokenModeTenant: string := "e6c9ec09-8430-4a99-bf15-242bc089b409"
  const SessionSubscription: string := "4793a72d-f4c1-4471-9327-e04225717278"

  /** The keys token mode sets, with their values. */
  function TokenSettings(token: string, subscription: string, logPath: string): map<string, string>
  {
    map["ARM_ACCESS_TOKEN" := token, "ARM_SUBSCRIPTION_ID" := subscription,
        "ARM_TENANT_ID" := TokenModeTenant, "ARM_USE_CLI" := "false",
        "ARM_USE_AZURECLI_AUTH" := "false", "ARM_USE_MSI" := "false",
        "ARM_USE_OIDC" := "false", "TF_LOG" := "DEBUG", "TF_LOG_PATH" := logPath]
  }

  /** The seven removals of token mode, in the order the code makes them. */
  function Stripped(vars: map<string, string>): map<string, string>
  {
    vars - {"ARM_CLIENT_ID"} - {"ARM_CLIENT_SECRET"} - {"ARM_USE_CLI"} - {"ARM_USE_AZURECLI_AUTH"}
         - {"ARM_USE_MSI"} - {"ARM_USE_OIDC"} - {"AZURE_CONFIG_DIR"}
  }

  /** The first three settings of token mode, in the order the code makes
      them; a value holding a NUL stops the sequence with its key. */
  function SetCredentials(vars: map<string, string>, token: string, subscription: string)
    : Result<map<string, string>, EnvError>
  {
    if '\0' in token then Err(NulInValue("ARM_ACCESS_TOKEN"))
    else if '\0' in subscription then Err(NulInValue("ARM_SUBSCRIPTION_ID"))
    else Ok(vars["ARM_ACCESS_TOKEN" := token]["ARM_SUBSCRIPTION_ID" := subscription]
                ["ARM_TENANT_ID" := TokenModeTenant])
  }

  /** The remaining six settings: the four flags, then the logging ones. */
  function SetFlags(vars: map<string, string>, logPath: string): Result<map<string, string>, EnvError>
  {
    if '\0' in logPath then Err(NulInValue("TF_LOG_PATH"))
    else Ok(vars["ARM_USE_CLI" := "false"]["ARM_USE_AZURECLI_AUTH" := "false"]
                ["ARM_USE_MSI" := "false"]["ARM_USE_OIDC" := "false"]
                ["TF_LOG" := "DEBUG"]["TF_LOG_PATH" := logPath])
  }

  function Settled(vars: map<string, string>, token: string, subscription: string, logPath: string)
    : Result<map<string, string>, EnvError>
  {
    match SetCredentials(vars, token, subscription)
    case Err(e) => Err(e)
    case Ok(m) => SetFlags(m, logPath)
  }

  /** The token-mode environment of one process, built from a copy of the
      server's own. */
  function TokenEnv(inherited: map<string, string>, token: string, subscription: string,
                    logPath: string): Result<map<string, string>, EnvError>
  {
    Settled(Stripped(inherited), token, subscription, logPath)
  }

  method Strip(env: Environment)
    modifies env
    ensures env.vars == Stripped(old(env.vars))
  {
    env.Remove("ARM_CLIENT_ID");
    env.Remove("ARM_CLIENT_SECRET");
    env.Remove("ARM_USE_CLI");
    env.Remove("ARM_USE_AZURECLI_AUTH");
    env.Remove("ARM_USE_MSI");
    env.Remove("ARM_USE_OIDC");
    env.Remove("AZURE_CONFIG_DIR");
  }

  method SettleCredentials(env: Environment, token: string, subscription: string)
    returns (failure: Option<EnvError>)
    modifies env
    ensures match SetCredentials(old(env.vars), token, subscription)
      case Err(e) => failure == Some(e)
      case Ok(m) => failure.None? && env.vars == m
  {
    failure := env.Put("ARM_ACCESS_TOKEN", Some(token));
    if failure.Some? { return; }
    failure := env.Put("ARM_SUBSCRIPTION_ID", Some(subscription));
    if failure.Some? { return; }
    failure := env.Put("ARM_TENANT_ID", Some(TokenModeTenant));
  }

  method SettleFlags(env: Environment, logPath: string) returns (failure: Option<EnvError>)
    modifies env
    ensures match SetFlags(old(env.vars), logPath)
      case Err(e) => failure == Some(e)
      case Ok(m) => failure.None? && env.vars == m
  {
    failure := env.Put("ARM_USE_CLI", Some("false"));
    failure := env.Put("ARM_USE_AZURECLI_AUTH", Some("false"));
    failure := env.Put("ARM_USE_MSI", Some("false"));
    failure := env.Put("ARM_USE_OIDC", Some("false"));
    failure := env.Put("TF_LOG", Some("DEBUG"));
    failure := env.Put("TF_LOG_PATH", Some(logPath));
  }

  /** The removals and then the settings of token mode on one process
      environment. */
  method ConfigureForToken(env: Environment, token: string, subscription: string, logPath: string)
    returns (failure: Option<EnvError>)
    modifies env
    ensures match TokenEnv(old(env.vars), token, subscription, logPath)
      case Err(e) => failure == Some(e)
      case Ok(m) => failure.None? && env.vars == m
  {
    Strip(env);
    failure := SettleCredentials(env, token, subscription);
    if failure.None? {
      failure := SettleFlags(env, logPath);
    }
  }

  /** Token mode refuses exactly a token, subscription or log path holding
      a NUL character. */
  lemma TokenEnvAccepts(inherited: map<string, string>, token: string, subscription: string,
                        logPath: string)
    ensures TokenEnv(inherited, token, subscription, logPath).Ok? <==>
            '\0' !in token && '\0' !in subscription && '\0' !in logPath
  {
  }

  /** In a token-mode environment the service-principal credentials and the
      CLI session directory are gone, whatever the server's environment held. */
  lemma TokenEnvDropsCredentials(inherited: map<string, string>, token: string,
                                 subscription: string, logPath: string)
    requires TokenEnv(inherited, token, subscription, logPath).Ok?
    ensures var m := TokenEnv(inherited, token, subscription, logPath).value;
            "ARM_CLIENT_ID" !in m && "ARM_CLIENT_SECRET" !in m && "AZURE_CONFIG_DIR" !in m
  {
  }

  /** Every key token mode sets carries its value. */
  lemma TokenEnvSettings(inherited: map<string, string>, token: string,
                         subscription: string, logPath: string)
    requires TokenEnv(inherited, token, subscription, logPath).Ok?
    ensures var m := TokenEnv(inherited, token, subscription, logPath).value;
            var s := TokenSettings(token, subscription, logPath);
            forall k :: k in s ==> k in m && m[k] == s[k]
  {
  }

  /** Every variable token mode neither removes nor sets is inherited as it
      was, and none is added. */
  lemma TokenEnvKeepsOthers(inherited: map<string, string>, token: string,
                            subscription: string, logPath: string, k: string)
    requires TokenEnv(inherited, token, subscription, logPath).Ok?
    requires k !in TokenModeRemoved && k !in TokenSettings(token, subscription, logPath)
    ensures var m := TokenEnv(inherited, token, subscription, logPath).value;
            (k in m <==> k in inherited) && (k in inherited ==> m[k] == inherited[k])
  {
  }

  // The session-mode environment.

  /** With CLI authentication: managed identity off, CLI authentication on,
      and the CLI's session directory named. */
  function CliEnv(vars: map<string, string>, cliPath: string): Result<map<string, string>, EnvError>
  {
    if '\0' in cliPath then Err(NulInValue("AZURE_CONFIG_DIR"))
    else Ok(vars["ARM_USE_MSI" := "false"]["ARM_USE_AZURECLI_AUTH" := "true"]
                ["AZURE_CONFIG_DIR" := cliPath])
  }

  /** With a service principal: the fixed subscription, then the three
      credentials read from the server's environment `serverEnv`, a missing
      one making `put` throw. */
  function ServicePrincipalEnv(vars: map<string, string>, serverEnv: map<string, string>)
    : Result<map<string, string>, EnvError>
  {
    var tenant := Lookup(serverEnv, "ARM_TENANT_ID");
    var client := Lookup(serverEnv, "ARM_CLIENT_ID");
    var secret := Lookup(serverEnv, "ARM_CLIENT_SECRET");
    if PutCheck("ARM_TENANT_ID", tenant).Some? then Err(PutCheck("ARM_TENANT_ID", tenant).value)
    else if PutCheck("ARM_CLIENT_ID", client).Some? then Err(PutCheck("ARM_CLIENT_ID", client).value)
    else if PutCheck("ARM_CLIENT_SECRET", secret).Some? then Err(PutCheck("ARM_CLIENT_SECRET", secret).value)
    else Ok(vars["ARM_SUBSCRIPTION_ID" := SessionSubscription]["ARM_TENANT_ID" := tenant.value]
                ["ARM_CLIENT_ID" := client.value]["ARM_CLIENT_SECRET" := secret.value])
  }

  function SessionEnv(vars: map<string, string>, serverEnv: map<string, string>, useCliAuth: bool,
                      cliPath: string): Result<map<string, string>, EnvError>
  {
    if useCliAuth then CliEnv(vars, cliPath) else ServicePrincipalEnv(vars, serverEnv)
  }

  method ConfigureForCli(env: Environment, cliPath: string) returns (failure: Option<EnvError>)
    modifies env
    ensures match CliEnv(old(env.vars), cliPath)
      case Err(e) => failure == Some(e)
      case Ok(m) => failure.None? && env.vars == m
  {
    failure := env.Put("ARM_USE_MSI", Some("false"));
    failure := env.Put("ARM_USE_AZURECLI_AUTH", Some("true"));
    failure := env.Put("AZURE_CONFIG_DIR", Some(cliPath));
  }

  method ConfigureForServicePrincipal(env: Environment, serverEnv: map<string, string>)
    returns (failure: Option<EnvError>)
    modifies env
    ensures match ServicePrincipalEnv(old(env.vars), serverEnv)
      case Err(e) => failure == Some(e)
      case Ok(m) => failure.None? && env.vars == m
  {
    failure := env.Put("ARM_SUBSCRIPTION_ID", Some(SessionSubscription));
    failure := env.Put("ARM_TENANT_ID", Lookup(serverEnv, "ARM_TENANT_ID"));
    if failure.Some? { return; }
    failure := env.Put("ARM_CLIENT_ID", Lookup(serverEnv, "ARM_CLIENT_ID"));
    if failure.Some? { return; }
    failure := env.Put("ARM_CLIENT_SECRET", Lookup(serverEnv, "ARM_CLIENT_SECRET"));
  }

  method ConfigureForSession(env: Environment, serverEnv: map<string, string>, useCliAuth: bool,
                             cliPath: string)
    returns (failure: Option<EnvError>)
    modifies env
    ensures match SessionEnv(old(env.vars), serverEnv, useCliAuth, cliPath)
      case Err(e) => failure == Some(e)
      case Ok(m) => failure.None? && env.vars == m
  {
    if useCliAuth {
      failure := ConfigureForCli(env, cliPath);
    } else {
      failure := ConfigureForServicePrincipal(env, serverEnv);
    }
  }

  /** With a service principal, the environment of a process started from
      the server's own is accepted exactly when the three credentials are
      set there without NUL characters; it then differs from the server's
      only in the fixed subscription, the copied credentials being what
      they already were. */
  lemma ServicePrincipalEnvAccepts(inherited: map<string, string>)
    ensures ServicePrincipalEnv(inherited, inherited).Ok? <==>
            forall k :: k in ["ARM_TENANT_ID", "ARM_CLIENT_ID", "ARM_CLIENT_SECRET"] ==>
              k in inherited && '\0' !in inherited[k]
    ensures ServicePrincipalEnv(inherited, inherited).Ok? ==>
            ServicePrincipalEnv(inherited, inherited).value ==
              inherited["ARM_SUBSCRIPTION_ID" := SessionSubscription]
  {
  }

  /** With CLI authentication only the three CLI settings change. */
  lemma CliEnvSettings(inherited: map<string, string>, cliPath: string, k: string)
    requires CliEnv(inherited, cliPath).Ok?
    ensures var m := CliEnv(inherited, cliPath).value;
            m["AZURE_CONFIG_DIR"] == cliPath && m["ARM_USE_AZURECLI_AUTH"] == "true" &&
            m["ARM_USE_MSI"] == "false" &&
            (k !in {"AZURE_CONFIG_DIR", "ARM_USE_AZURECLI_AUTH", "ARM_USE_MSI"} ==>
               (k in m <==> k in inherited) && (k in inherited ==> m[k] == inherited[k]))
  {
  }

  // ---------------------------------------------------------------------
  // The apply output scan

  /** The texts whose presence in an apply output line marks an Azure
      access failure, in the order the code tests them. */
  const AccessSignatures: seq<string> :=
    [Aadsts, BlockedHead + BlockedTail, ContinuousAccess, InteractionRequired,
     LocationCondition, AzLogin, ObtainSubscription, AuthorizationFailed]

  const Aadsts: string := "AADSTS"
  const BlockedHead: string := "Access has been blocked "
  const BlockedTail: string := "by Conditional Access"
  const ContinuousAccess: string := "Continuous access evaluation"
  const InteractionRequired: string := "InteractionRequired"
  const LocationCondition: string := "LocationConditionEvaluation"
  const AzLogin: string := "az login"
  const ObtainSubscription: string := "obtain subscription"
  const AuthorizationFailed: string := "Authorization failed"

  /** A non-empty text with no line break in it. */
  predicate OneLine(s: string)
  {
    s != [] && '\n' !in s
  }

  lemma BlockedOneLine()
    ensures OneLine(BlockedHead + BlockedTail)
  {
    assert '\n' !in BlockedHead && '\n' !in BlockedTail;
  }

  lemma FirstSignaturesOneLine()
    ensures OneLine(Aadsts) && OneLine(ContinuousAccess) && OneLine(InteractionRequired)
  {
  }

  lemma LastSignaturesOneLine()
    ensures OneLine(LocationCondition) && OneLine(AzLogin) && OneLine(ObtainSubscription) &&
            OneLine(AuthorizationFailed)
  {
  }

  predicate SignalsAccessError(text: string)
  {
    exists k :: 0 <= k < |AccessSignatures| && Contains(text, AccessSignatures[k])
  }

  predicate AnyLineSignals(lines: seq<string>)
  {
    exists i :: 0 <= i < |lines| && SignalsAccessError(lines[i])
  }

  /** The apply output read line by line: every line is kept with a newline,
      and the flag is raised by any line holding a signature. */
  method ScanApplyOutput(lines: seq<string>) returns (output: string, hasAccessError: bool)
    ensures output == Terminated(lines)
    ensures hasAccessError <==> AnyLineSignals(lines)
  {
    output := "";
    hasAccessError := false;
    var i := 0;
    while i < |lines|
      invariant 0 <= i <= |lines|
      invariant output == Terminated(lines[..i])
      invariant hasAccessError <==> AnyLineSignals(lines[..i])
    {
      var line := lines[i];
      assert lines[..i + 1][..i] == lines[..i];
      output := output + line + "\n";
      if SignalsAccessError(line) {
        hasAccessError := true;
      }
      assert forall j :: 0 <= j < i + 1 ==> lines[..i + 1][j] == lines[j];
      i := i + 1;
    }
    assert lines[..i] == lines;
  }

  lemma SignaturesAreOneLine()
    ensures forall k :: 0 <= k < |AccessSignatures| ==> OneLine(AccessSignatures[k])
  {
    BlockedOneLine();
    FirstSignaturesOneLine();
    LastSignaturesOneLine();
  }

  /** None of the signatures spans a newline, so scanning line by line finds
      one exactly when the joined output holds one. */
  lemma ScanMatchesJoinedOutput(lines: seq<string>)
    ensures AnyLineSignals(lines) <==> SignalsAccessError(Terminated(lines))
  {
    SignaturesAreOneLine();
    forall k | 0 <= k < |AccessSignatures|
      ensures Contains(Terminated(lines), AccessSignatures[k]) <==>
              exists i :: 0 <= i < |lines| && Contains(lines[i], AccessSignatures[k])
    {
      TerminatedContains(lines, AccessSignatures[k]);
    }
  }

  // ---------------------------------------------------------------------
  // Runs

  datatype TfCommand = Init | Apply | Output

  /** One `terraform` process started, with the environment it was given. */
  datatype Launch = Launch(command: TfCommand, env: map<string, string>)

  /** What a finished process reports: its exit code and the lines it printed. */
  datatype ProcessRun = ProcessRun(exit: int, lines: seq<string>)

  /** Why a run stops: the exceptions the two run methods throw. */
  datatype RunFailure =
    | TokenMissing
    | EnvRejected(error: EnvError)
    | InitFailed(code: int)
    | AccessRejected
    | ApplyFailed(code: int)
    | OutputsFailed
    | OutputsUnreadable

  /** The outcome of a run and the processes it started, in order. */
  datatype Run<T> = Run(result: Result<T, RunFailure>, launched: seq<Launch>)

  const InitFailedPrefix: string := "Terraform init failed with exit code: "
  const ApplyFailedPrefix: string := "Terraform apply failed with exit code: "
  const AccessRejectedMessage: string :=
    "Azure 인증 오류: Azure 액세스 토큰이 유효하지 않거나 필요한 권한이 없습니다. " +
    "다시 로그인하거나 Azure 관리자에게 문의하세요."

  /** The exception message of a failure; `None` where the message is the
      runtime library's own (a refused environment value, unparsable JSON). */
  function FailureMessage(f: RunFailure): Option<string>
  {
    match f
    case TokenMissing => Some("Access token is empty or null")
    case EnvRejected(_) => None
    case InitFailed(code) => Some(InitFailedPrefix + IntToString(code))
    case AccessRejected => Some(AccessRejectedMessage)
    case ApplyFailed(code) => Some(ApplyFailedPrefix + IntToString(code))
    case OutputsFailed => Some("Failed to get Terraform outputs")
    case OutputsUnreadable => None
  }

  /** A message made of `prefix` and a rendered exit code: a minus sign when
      the code is negative, then digits that read back as its magnitude. */
  lemma CodeReadsBack(prefix: string, code: int)
    ensures var m := prefix + IntToString(code);
            var start := if code < 0 then |prefix| + 1 else |prefix|;
            start < |m| && m[..|prefix|] == prefix &&
            (code < 0 ==> m[|prefix|] == '-') &&
            (forall k :: start <= k < |m| ==> '0' <= m[k] <= '9') &&
            ParseNat(m[start..]) == if code < 0 then -code else code
  {
    var sign := if code < 0 then "-" else "";
    var magnitude := if code < 0 then -code else code;
    var digits := NatToString(magnitude);
    var m := prefix + sign + digits;
    assert prefix + IntToString(code) == m;
    assert m[..|prefix|] == prefix && m[|prefix| + |sign|..] == digits;
    NatToStringRoundTrip(magnitude);
  }

  /** A failed `init` or `apply` names the exit code: after the fixed prefix
      come a minus sign when the code is negative, then digits that read back
      as the code's magnitude. */
  lemma FailureNamesExitCode(f: RunFailure)
    requires f.InitFailed? || f.ApplyFailed?
    ensures var prefix := if f.InitFailed? then InitFailedPrefix else ApplyFailedPrefix;
            var m := FailureMessage(f).value;
            var start := if f.code < 0 then |prefix| + 1 else |prefix|;
            start < |m| && m[..|prefix|] == prefix &&
            (f.code < 0 ==> m[|prefix|] == '-') &&
            (forall k :: start <= k < |m| ==> '0' <= m[k] <= '9') &&
            ParseNat(m[start..]) == if f.code < 0 then -f.code else f.code
  {
    CodeReadsBack(if f.InitFailed? then InitFailedPrefix else ApplyFailedPrefix, f.code);
  }

  /** `Path.resolve` of a file name in the workspace directory. */
  function LogPath(dir: string, name: string): string
  {
    dir + "/" + name
  }

  /** How a finished `apply` ends a token-mode run. */
  function ApplyOutcome(exit: int, hasAccessError: bool): Result<(), RunFailure>
  {
    if exit == 0 then Ok(())
    else if hasAccessError then Err(AccessRejected)
    else Err(ApplyFailed(exit))
  }

  /** `executeTerraformWithToken`: `terraform` gives the run of a command in
      the environment it is started with. */
  function TokenRun(token: Option<string>, subscription: string, dir: string,
                    inherited: map<string, string>,
                    terraform: (TfCommand, map<string, string>) -> ProcessRun): Run<()>
  {
    if token.None? || token.value == [] then Run(Err(TokenMissing), [])
    else
      match TokenEnv(inherited, token.value, subscription, LogPath(dir, "terraform-init.log"))
      case Err(e) => Run(Err(EnvRejected(e)), [])
      case Ok(initEnv) =>
        var init := terraform(Init, initEnv);
        if init.exit != 0 then Run(Err(InitFailed(init.exit)), [Launch(Init, initEnv)])
        else
          var rest := TokenApply(token.value, subscription, dir, inherited, terraform);
          Run(rest.result, [Launch(Init, initEnv)] + rest.launched)
  }

  /** The `apply` stage of a token-mode run, once `init` has exited with 0. */
  function TokenApply(token: string, subscription: string, dir: string, inherited: map<string, string>,
                      terraform: (TfCommand, map<string, string>) -> ProcessRun): Run<()>
  {
    match TokenEnv(inherited, token, subscription, LogPath(dir, "terraform-apply.log"))
    case Err(e) => Run(Err(EnvRejected(e)), [])
    case Ok(applyEnv) =>
      var apply := terraform(Apply, applyEnv);
      Run(ApplyOutcome(apply.exit, AnyLineSignals(apply.lines)), [Launch(Apply, applyEnv)])
  }

  /** The log file names hold no NUL, so the apply environment is accepted
      whenever the init one was. */
  lemma ApplyEnvAccepted(inherited: map<string, string>, token: string, subscription: string,
                         dir: string)
    requires TokenEnv(inherited, token, subscription, LogPath(dir, "terraform-init.log")).Ok?
    ensures TokenEnv(inherited, token, subscription, LogPath(dir, "terraform-apply.log")).Ok?
  {
    TokenEnvAccepts(inherited, token, subscription, LogPath(dir, "terraform-init.log"));
    TokenEnvAccepts(inherited, token, subscription, LogPath(dir, "terraform-apply.log"));
    assert '\0' !in dir by {
      assert forall k :: 0 <= k < |dir| ==> LogPath(dir, "terraform-init.log")[k] == dir[k];
    }
    assert '\0' !in "/terraform-apply.log";
  }

  method ExecuteTerraformWithToken(token: Option<string>, subscription: string, dir: string,
                                   inherited: map<string, string>,
                                   terraform: (TfCommand, map<string, string>) -> ProcessRun)
    returns (result: Result<(), RunFailure>, launched: seq<Launch>)
    ensures Run(result, launched) == TokenRun(token, subscription, dir, inherited, terraform)
  {
    if token.None? || token.value == [] {
      return Err(TokenMissing), [];
    }
    var initEnv := new Environment(inherited);
    var failure := ConfigureForToken(initEnv, token.value, subscription, LogPath(dir, "terraform-init.log"));
    if failure.Some? {
      return Err(EnvRejected(failure.value)), [];
    }
    var init := terraform(Init, initEnv.vars);
    launched := [Launch(Init, initEnv.vars)];
    if init.exit != 0 {
      return Err(InitFailed(init.exit)), launched;
    }
    var rest, applied := ApplyWithToken(token.value, subscription, dir, inherited, terraform);
    return rest, launched + applied;
  }

  /** The second half of `executeTerraformWithToken`: `apply` in a fresh
      token-mode environment, its output scanned, its exit classified. */
  method ApplyWithToken(token: string, subscription: string, dir: string, inherited: map<string, string>,
                        terraform: (TfCommand, map<string, string>) -> ProcessRun)
    returns (result: Result<(), RunFailure>, launched: seq<Launch>)
    ensures Run(result, launched) == TokenApply(token, subscription, dir, inherited, terraform)
  {
    var applyEnv := new Environment(inherited);
    var failure := ConfigureForToken(applyEnv, token, subscription, LogPath(dir, "terraform-apply.log"));
    if failure.Some? {
      return Err(EnvRejected(failure.value)), [];
    }
    var apply := terraform(Apply, applyEnv.vars);
    launched := [Launch(Apply, applyEnv.vars)];
    var output, hasAccessError := ScanApplyOutput(apply.lines);
    if apply.exit != 0 {
      if hasAccessError {
        return Err(AccessRejected), launched;
      }
      return Err(ApplyFailed(apply.exit)), launched;
    }
    result := Ok(());
  }

  /** `executeTerraform` followed by `updateApplicationYmlWithTerraformOutputs`:
      `parseOutputs` is the JSON reading of the `output -json` text, `None`
      for text that is not a JSON object. */
  function SessionRun(inherited: map<string, string>, useCliAuth: bool, cliPath: string,
                      terraform: (TfCommand, map<string, string>) -> ProcessRun,
                      parseOutputs: string -> Option<seq<Entry>>): Run<Reconciliation>
  {
    match SessionEnv(inherited, inherited, useCliAuth, cliPath)
    case Err(e) => Run(Err(EnvRejected(e)), [])
    case Ok(env) =>
      var init := terraform(Init, env);
      if init.exit != 0 then Run(Err(InitFailed(init.exit)), [Launch(Init, env)])
      else
        var apply := terraform(Apply, env);
        if apply.exit != 0 then Run(Err(ApplyFailed(apply.exit)), [Launch(Init, env), Launch(Apply, env)])
        else
          var rest := SessionOutputs(inherited, terraform, parseOutputs);
          Run(rest.result, [Launch(Init, env), Launch(Apply, env)] + rest.launched)
  }

  /** `updateApplicationYmlWithTerraformOutputs`: `terraform output -json`
      in the server's own environment, its text parsed and reconciled. */
  function SessionOutputs(inherited: map<string, string>,
                          terraform: (TfCommand, map<string, string>) -> ProcessRun,
                          parseOutputs: string -> Option<seq<Entry>>): Run<Reconciliation>
  {
    var output := terraform(Output, inherited);
    if output.exit != 0 then Run(Err(OutputsFailed), [Launch(Output, inherited)])
    else
      match parseOutputs(Concat(output.lines))
      case None => Run(Err(OutputsUnreadable), [Launch(Output, inherited)])
      case Some(outputs) => Run(Ok(ReconcileOutputs(outputs)), [Launch(Output, inherited)])
  }

  method ExecuteTerraform(inherited: map<string, string>, useCliAuth: bool, cliPath: string,
                          terraform: (TfCommand, map<string, string>) -> ProcessRun,
                          parseOutputs: string -> Option<seq<Entry>>)
    returns (result: Result<Reconciliation, RunFailure>, launched: seq<Launch>)
    ensures Run(result, launched) == SessionRun(inherited, useCliAuth, cliPath, terraform, parseOutputs)
  {
    var initEnv := new Environment(inherited);
    var failure := ConfigureForSession(initEnv, inherited, useCliAuth, cliPath);
    if failure.Some? {
      return Err(EnvRejected(failure.value)), [];
    }
    var init := terraform(Init, initEnv.vars);
    launched := [Launch(Init, initEnv.vars)];
    if init.exit != 0 {
      return Err(InitFailed(init.exit)), launched;
    }
    var applyEnv := new Environment(inherited);
    failure := ConfigureForSession(applyEnv, inherited, useCliAuth, cliPath);
    assert failure.None? && applyEnv.vars == initEnv.vars;
    var apply := terraform(Apply, applyEnv.vars);
    launched := launched + [Launch(Apply, applyEnv.vars)];
    if apply.exit != 0 {
      return Err(ApplyFailed(apply.exit)), launched;
    }
    var rest, read := ReadOutputs(inherited, terraform, parseOutputs);
    return rest, launched + read;
  }

  /** The output stage of a session-mode run: the output lines joined with
      nothing between them, a non-zero exit fatal, the parsed outputs
      reconciled. */
  method ReadOutputs(inherited: map<string, string>,
                     terraform: (TfCommand, map<string, string>) -> ProcessRun,
                     parseOutputs: string -> Option<seq<Entry>>)
    returns (result: Result<Reconciliation, RunFailure>, launched: seq<Launch>)
    ensures Run(result, launched) == SessionOutputs(inherited, terraform, parseOutputs)
  {
    var output := terraform(Output, inherited);
    launched := [Launch(Output, inherited)];
    var json := JoinLines(output.lines);
    if output.exit != 0 {
      return Err(OutputsFailed), launched;
    }
    match parseOutputs(json)
    case None =>
      result := Err(OutputsUnreadable);
    case Some(outputs) =>
      result := Ok(ReconcileOutputs(outputs));
  }

  /** A token-mode run starts `init` and then `apply`, and no more: nothing
      without a usable token, and `apply` only after `init` exits with 0;
      a failed `init` ends the run with its exit code. */
  lemma TokenRunStages(token: Option<string>, subscription: string, dir: string,
                       inherited: map<string, string>,
                       terraform: (TfCommand, map<string, string>) -> ProcessRun)
    ensures var run := TokenRun(token, subscription, dir, inherited, terraform);
            (token.None? || token.value == [] ==> run == Run(Err(TokenMissing), [])) &&
            |run.launched| <= 2 &&
            (|run.launched| >= 1 ==> run.launched[0].command == Init) &&
            (|run.launched| == 2 ==>
               run.launched[1].command == Apply && terraform(Init, run.launched[0].env).exit == 0) &&
            (|run.launched| == 1 <==> run.launched != [] && terraform(Init, run.launched[0].env).exit != 0) &&
            (|run.launched| == 1 ==> run.result == Err(InitFailed(terraform(Init, run.launched[0].env).exit)))
  {
    if token.Some? && token.value != [] {
      var initPath := LogPath(dir, "terraform-init.log");
      if TokenEnv(inherited, token.value, subscription, initPath).Ok? {
        ApplyEnvAccepted(inherited, token.value, subscription, dir);
      }
    }
  }

  /** Every process of a token-mode run gets the token, its own log file,
      no service-principal credentials and no CLI session directory, and
      every other variable of the server's environment as it was. */
  lemma TokenRunEnvironments(token: Option<string>, subscription: string, dir: string,
                             inherited: map<string, string>,
                             terraform: (TfCommand, map<string, string>) -> ProcessRun, i: int)
    requires 0 <= i < |TokenRun(token, subscription, dir, inherited, terraform).launched|
    ensures var launch := TokenRun(token, subscription, dir, inherited, terraform).launched[i];
            var logPath := LogPath(dir, if launch.command == Init then "terraform-init.log"
                                        else "terraform-apply.log");
            token.Some? &&
            "ARM_CLIENT_ID" !in launch.env && "ARM_CLIENT_SECRET" !in launch.env &&
            "AZURE_CONFIG_DIR" !in launch.env &&
            "ARM_ACCESS_TOKEN" in launch.env && launch.env["ARM_ACCESS_TOKEN"] == token.value &&
            "TF_LOG_PATH" in launch.env && launch.env["TF_LOG_PATH"] == logPath &&
            forall k :: k !in TokenModeRemoved && k !in TokenSettings(token.value, subscription, logPath) ==>
              (k in launch.env <==> k in inherited) && (k in inherited ==> launch.env[k] == inherited[k])
  {
    var run := TokenRun(token, subscription, dir, inherited, terraform);
    TokenRunStages(token, subscription, dir, inherited, terraform);
    var launch := run.launched[i];
    var logPath := LogPath(dir, if launch.command == Init then "terraform-init.log"
                                else "terraform-apply.log");
    assert TokenEnv(inherited, token.value, subscription, logPath) == Ok(launch.env);
    TokenEnvShape(inherited, token.value, subscription, logPath, launch.env);
  }

  /** A token-mode environment, gathered: no credentials and no CLI
      directory, the token and the log path set, everything else inherited. */
  lemma TokenEnvShape(inherited: map<string, string>, token: string, subscription: string,
                      logPath: string, env: map<string, string>)
    requires TokenEnv(inherited, token, subscription, logPath) == Ok(env)
    ensures "ARM_CLIENT_ID" !in env && "ARM_CLIENT_SECRET" !in env && "AZURE_CONFIG_DIR" !in env
    ensures "ARM_ACCESS_TOKEN" in env && env["ARM_ACCESS_TOKEN"] == token
    ensures "TF_LOG_PATH" in env && env["TF_LOG_PATH"] == logPath
    ensures forall k :: k !in TokenModeRemoved && k !in TokenSettings(token, subscription, logPath) ==>
              (k in env <==> k in inherited) && (k in inherited ==> env[k] == inherited[k])
  {
    TokenEnvDropsCredentials(inherited, token, subscription, logPath);
    TokenEnvSettings(inherited, token, subscription, logPath);
    forall k | k !in TokenModeRemoved && k !in TokenSettings(token, subscription, logPath)
      ensures (k in env <==> k in inherited) && (k in inherited ==> env[k] == inherited[k])
    {
      TokenEnvKeepsOthers(inherited, token, subscription, logPath, k);
    }
  }

  /** Once `apply` has run in token mode, exit 0 is success whatever its
      output says; a non-zero exit is an access rejection exactly when the
      whole output holds a signature, and otherwise names the exit code. */
  lemma TokenApplyClassified(token: Option<string>, subscription: string, dir: string,
                             inherited: map<string, string>,
                             terraform: (TfCommand, map<string, string>) -> ProcessRun)
    requires |TokenRun(token, subscription, dir, inherited, terraform).launched| == 2
    ensures var run := TokenRun(token, subscription, dir, inherited, terraform);
            var apply := terraform(Apply, run.launched[1].env);
            var flagged := SignalsAccessError(Terminated(apply.lines));
            (run.result.Ok? <==> apply.exit == 0) &&
            (run.result == Err(AccessRejected) <==> apply.exit != 0 && flagged) &&
            (run.result == Err(ApplyFailed(apply.exit)) <==> apply.exit != 0 && !flagged)
  {
    var run := TokenRun(token, subscription, dir, inherited, terraform);
    var apply := terraform(Apply, run.launched[1].env);
    ScanMatchesJoinedOutput(apply.lines);
    assert run.result == ApplyOutcome(apply.exit, AnyLineSignals(apply.lines));
  }

  /** A session-mode run starts `init`, `apply` and `output` in this order,
      each only when the one before exited with 0. `init` and `apply` share
      the session environment; `output` gets the server's own. */
  lemma SessionRunStages(inherited: map<string, string>, useCliAuth: bool, cliPath: string,
                         terraform: (TfCommand, map<string, string>) -> ProcessRun,
                         parseOutputs: string -> Option<seq<Entry>>)
    ensures var run := SessionRun(inherited, useCliAuth, cliPath, terraform, parseOutputs);
            var env := SessionEnv(inherited, inherited, useCliAuth, cliPath);
            |run.launched| <= 3 &&
            (run.launched == [] <==> env.Err?) &&
            (forall i :: 0 <= i < |run.launched| && i < 2 ==> run.launched[i] == Launch([Init, Apply][i], env.value)) &&
            (|run.launched| >= 2 ==> terraform(Init, env.value).exit == 0) &&
            (|run.launched| == 3 ==>
               terraform(Apply, env.value).exit == 0 && run.launched[2] == Launch(Output, inherited))
  {
  }

  /** Session mode never reports an access rejection or a missing token,
      and a successful run is the reconciliation of the parsed outputs of
      an `output` that exited with 0. */
  lemma SessionRunResult(inherited: map<string, string>, useCliAuth: bool, cliPath: string,
                         terraform: (TfCommand, map<string, string>) -> ProcessRun,
                         parseOutputs: string -> Option<seq<Entry>>)
    ensures var run := SessionRun(inherited, useCliAuth, cliPath, terraform, parseOutputs);
            run.result != Err(AccessRejected) && run.result != Err(TokenMissing) &&
            (run.result.Ok? ==>
               |run.launched| == 3 &&
               var output := terraform(Output, inherited);
               output.exit == 0 && parseOutputs(Concat(output.lines)).Some? &&
               run.result.value == ReconcileOutputs(parseOutputs(Concat(output.lines)).value))
  {
  }
}
