/**
 * One invocation: validate the input, connect, check once, and choose what to
 * print and which exit code to return.
 */
module App {
  import opened Wrappers
  import opened Flags
  import opened Tls
  import opened Health
  import opened Config

  const ExitCodeUsage := 1
  const ExitCodeHealthCheckNegative := 2
  const ExitCodeUnexpected := 127

  const ConnectErrorPrefix := "can't connect to application: "
  const HealthCheckFailedMessage := "health-check failed"

  /** The CLI exit error: a message for stderr (none when empty) and the process exit code. */
  datatype ExitError = ExitError(message: string, code: int)

  /** What an invocation shows: whether the usage help was printed, the status line on stdout, and the exit. */
  datatype Outcome = Outcome(helpShown: bool, stdout: string, exit: ExitError)

  /** Dialling `address` with `creds`: the text of the dial error, or None when a connection exists. */
  type Dialer = (string, Credentials) -> Option<string>

  /**
   * `appMain`: a connect or check error ends the invocation with exit 127 and
   * nothing on stdout, whatever `noFail` says; otherwise the status name is
   * printed and the exit is 2 exactly when the status is not SERVING and
   * `noFail` is unset, 0 otherwise.
   */
  function AppMain(config: Config, dial: Dialer, rpc: HealthRpc): (o: Outcome)
    ensures !o.helpShown
    ensures o.exit.code in {0, ExitCodeHealthCheckNegative, ExitCodeUnexpected}
    ensures dial(config.serverAddress, config.creds).Some? ==>
      o == Outcome(false, "", ExitError(ConnectErrorPrefix + dial(config.serverAddress, config.creds).value, ExitCodeUnexpected))
    ensures dial(config.serverAddress, config.creds).None? && Check(rpc, config.serviceName).err != NoError ==>
      o == Outcome(false, "", ExitError(ErrorText(Check(rpc, config.serviceName).err), ExitCodeUnexpected))
    ensures o.exit.code == ExitCodeUnexpected <==>
      dial(config.serverAddress, config.creds).Some? || Check(rpc, config.serviceName).err != NoError
    ensures o.exit.code == ExitCodeUnexpected <==> o.stdout == ""
    ensures o.exit.code != ExitCodeUnexpected ==>
      o.stdout == StatusName(Check(rpc, config.serviceName).status) + "\n"
    ensures o.exit.code != ExitCodeUnexpected ==>
      (o.exit.code == ExitCodeHealthCheckNegative <==>
        !config.noFail && Check(rpc, config.serviceName).status != Serving)
    ensures o.exit.code == ExitCodeHealthCheckNegative ==> o.exit.message == HealthCheckFailedMessage
    ensures o.exit.code == 0 ==> o.exit.message == ""
  {
    match dial(config.serverAddress, config.creds)
    case Some(e) => Outcome(false, "", ExitError(ConnectErrorPrefix + e, ExitCodeUnexpected))
    case None =>
      var result := Check(rpc, config.serviceName);
      if result.err != NoError then
        Outcome(false, "", ExitError(ErrorText(result.err), ExitCodeUnexpected))
      else
        var stdout := StatusName(result.status) + "\n";
        if !(config.noFail || result.status == Serving) then
          Outcome(false, stdout, ExitError(HealthCheckFailedMessage, ExitCodeHealthCheckNegative))
        else
          Outcome(false, stdout, ExitError("", 0))
  }

  /**
   * The application action: a configuration error shows the usage help and
   * exits 1 without connecting; otherwise `appMain` runs.
   */
  function Run(flags: AppFlags, args: seq<string>, loader: CaLoader, dial: Dialer, rpc: HealthRpc): (o: Outcome)
    ensures Configure(flags, args, loader).Err? ==>
      o == Outcome(true, "", ExitError(Configure(flags, args, loader).error, ExitCodeUsage))
    ensures Configure(flags, args, loader).Ok? ==> o == AppMain(Configure(flags, args, loader).value, dial, rpc)
    ensures o.exit.code == ExitCodeUsage <==> o.helpShown
  {
    match Configure(flags, args, loader)
    case Err(e) => Outcome(true, "", ExitError(e, ExitCodeUsage))
    case Ok(config) => AppMain(config, dial, rpc)
  }

  /** `noFail` only turns a negative health result into success: stdout and every error exit stay as they are. */
  lemma NoFailOnlyMasksNegativeHealth(config: Config, dial: Dialer, rpc: HealthRpc)
    ensures var strict := AppMain(config.(noFail := false), dial, rpc);
            var lenient := AppMain(config.(noFail := true), dial, rpc);
            && strict.stdout == lenient.stdout
            && (strict.exit.code == ExitCodeUnexpected ==> strict == lenient)
            && lenient.exit.code != ExitCodeHealthCheckNegative
            && (strict.exit.code == ExitCodeHealthCheckNegative ==> lenient.exit == ExitError("", 0))
            && (strict.exit.code == 0 ==> strict == lenient)
  {
  }

  /** A configuration error is decided before any connection: neither the dialer nor the RPC is consulted. */
  lemma UsageErrorNeverConnects(flags: AppFlags, args: seq<string>, loader: CaLoader,
                                dial1: Dialer, rpc1: HealthRpc, dial2: Dialer, rpc2: HealthRpc)
    requires Configure(flags, args, loader).Err?
    ensures Run(flags, args, loader, dial1, rpc1) == Run(flags, args, loader, dial2, rpc2)
    ensures Run(flags, args, loader, dial1, rpc1).stdout == ""
    ensures Run(flags, args, loader, dial1, rpc1).exit.code == ExitCodeUsage
  {
  }

  /** Zero or three and more positional arguments: usage error, whatever the flags, CA material and network. */
  lemma WrongArgumentCount(flags: AppFlags, args: seq<string>, loader: CaLoader, dial: Dialer, rpc: HealthRpc)
    requires |args| == 0 || |args| >= 3
    ensures Run(flags, args, loader, dial, rpc) == Outcome(true, "", ExitError(ArgCountMessage, ExitCodeUsage))
  {
  }

  /** Two or more TLS options: usage error before any connection, whatever the CA material. */
  lemma ConflictingTlsOptions(flags: AppFlags, args: seq<string>, loader: CaLoader, dial: Dialer, rpc: HealthRpc)
    requires 1 <= |args| <= 2
    requires |SelectedOptions(flags)| >= 2
    ensures Run(flags, args, loader, dial, rpc) ==
      Outcome(true, "", ExitError(TlsConfigPrefix + TooManyTlsOptions, ExitCodeUsage))
  {
  }

  /**
   * CA material that fails to load is a usage error too: the help is shown,
   * the exit is 1 and the message is the loader's error under the TLS prefix.
   */
  lemma CaLoadFailureIsUsageError(flags: AppFlags, args: seq<string>, loader: CaLoader, dial: Dialer, rpc: HealthRpc)
    requires 1 <= |args| <= 2
    requires |SelectedOptions(flags)| == 1 && !flags.tlsInsecure
    requires loader(CaMaterial(flags.tlsCAFile, flags.tlsCAPath)).Some?
    ensures Run(flags, args, loader, dial, rpc) ==
      Outcome(true, "", ExitError(TlsConfigPrefix + loader(CaMaterial(flags.tlsCAFile, flags.tlsCAPath)).value, ExitCodeUsage))
  {
    NoTlsOptionIffAllUnset(flags);
  }

  /** A reachable plaintext server answering SERVING for the whole process: SERVING on stdout, exit 0. */
  lemma ServingServer(address: string, dial: Dialer, rpc: HealthRpc)
    requires dial(address, Plaintext).None?
    requires rpc("") == RpcReply(Some(Serving), NoError)
    ensures Run(AppFlags(1000000000, false, false, false, "", ""), [address], (m: CaMaterial) => None, dial, rpc) ==
      Outcome(false, "SERVING\n", ExitError("", 0))
  {
    NoTlsOptionIffAllUnset(AppFlags(1000000000, false, false, false, "", ""));
  }

  /** A service reporting NOT_SERVING: exit 2 with the failure note, or exit 0 under `noFail`; NOT_SERVING on stdout either way. */
  lemma NotServingService(config: Config, dial: Dialer, rpc: HealthRpc)
    requires dial(config.serverAddress, config.creds).None?
    requires rpc(config.serviceName) == RpcReply(Some(NotServing), NoError)
    ensures !config.noFail ==>
      AppMain(config, dial, rpc) == Outcome(false, "NOT_SERVING\n", ExitError(HealthCheckFailedMessage, ExitCodeHealthCheckNegative))
    ensures config.noFail ==>
      AppMain(config, dial, rpc) == Outcome(false, "NOT_SERVING\n", ExitError("", 0))
  {
  }

  /** A service the server does not know: exit 127, nothing on stdout, and a message naming the service. */
  lemma UnknownService(config: Config, dial: Dialer, rpc: HealthRpc, message: string)
    requires dial(config.serverAddress, config.creds).None?
    requires rpc(config.serviceName).err == RpcError(NotFound, message)
    ensures AppMain(config, dial, rpc) ==
      Outcome(false, "", ExitError(UnknownServicePrefix + config.serviceName, ExitCodeUnexpected))
  {
  }
}
