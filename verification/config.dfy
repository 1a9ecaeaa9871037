/** Turning the positional arguments and the flags into the application configuration. */
module Config {
  import opened Wrappers
  import opened Flags
  import opened Tls

  /** The value of an `appConfig`. */
  datatype Config = Config(
    timeout: int,
    noFail: bool,
    serverAddress: string,
    serviceName: string,
    creds: Credentials)

  const ArgCountMessage := "exactly 1 to 2 arguments are required"
  const TlsConfigPrefix := "can't parse TLS configuration: "

  /**
   * `createConfig` on values: one argument names the server, a second one the
   * service; any other number of arguments is refused before the TLS options
   * are looked at; a TLS failure is reported under a fixed prefix.
   */
  function Configure(flags: AppFlags, args: seq<string>, loader: CaLoader): (r: Result<Config>)
    ensures r.Ok? ==> 1 <= |args| <= 2 && r.value.serverAddress == args[0]
    ensures r.Ok? && |args| == 1 ==> r.value.serviceName == ""
    ensures r.Ok? && |args| == 2 ==> r.value.serviceName == args[1]
    ensures r.Ok? ==> r.value.timeout == flags.timeout && r.value.noFail == flags.noFail
    ensures r.Ok? ==> ParseCredentials(flags, loader) == Ok(r.value.creds)
    ensures !(1 <= |args| <= 2) ==> r == Err(ArgCountMessage)
    ensures 1 <= |args| <= 2 ==>
      (r.Err? <==> ParseCredentials(flags, loader).Err?)
    ensures 1 <= |args| <= 2 && r.Err? ==>
      r.error == TlsConfigPrefix + ParseCredentials(flags, loader).error
  {
    if |args| == 1 || |args| == 2 then
      match ParseCredentials(flags, loader)
      case Err(e) => Err(TlsConfigPrefix + e)
      case Ok(creds) =>
        var service := if |args| == 2 then args[1] else "";
        Ok(Config(flags.timeout, flags.noFail, args[0], service, creds))
    else
      Err(ArgCountMessage)
  }

  /** More than one TLS option, with a valid argument count, is refused with the fixed message. */
  lemma ConflictingTlsOptionsRefused(flags: AppFlags, args: seq<string>, loader: CaLoader)
    requires 1 <= |args| <= 2
    requires |SelectedOptions(flags)| >= 2
    ensures Configure(flags, args, loader) == Err(TlsConfigPrefix + TooManyTlsOptions)
  {
  }

  /** The `appConfig` record, filled in field by field. */
  class AppConfig {
    var timeout: int
    var noFail: bool
    var serverAddress: string
    var serviceName: string
    var creds: Credentials

    /** A record holding the zero value of every field (nil credentials are plaintext). */
    constructor ()
      ensures Value() == Config(0, false, "", "", Plaintext)
    {
      timeout := 0;
      noFail := false;
      serverAddress := "";
      serviceName := "";
      creds := Plaintext;
    }

    function Value(): Config
      reads this
    {
      Config(timeout, noFail, serverAddress, serviceName, creds)
    }
  }

  /** `createConfig`: a filled-in record, or nil and the error. */
  method CreateConfig(flags: AppFlags, args: seq<string>, loader: CaLoader) returns (config: AppConfig?, err: Option<string>)
    ensures config == null <==> err.Some?
    ensures config != null ==> fresh(config)
    ensures config != null ==> Configure(flags, args, loader) == Ok(config.Value())
    ensures err.Some? ==> Configure(flags, args, loader) == Err(err.value)
  {
    config := new AppConfig();
    if |args| == 2 {
      config.serviceName := args[1];
      config.serverAddress := args[0];
    } else if |args| == 1 {
      config.serverAddress := args[0];
    } else {
      return null, Some(ArgCountMessage);
    }

    var creds := ParseCredentials(flags, loader);
    if creds.Err? {
      return null, Some(TlsConfigPrefix + creds.error);
    }

    config.creds := creds.value;
    config.timeout := flags.timeout;
    config.noFail := flags.noFail;
    err := None;
  }
}
