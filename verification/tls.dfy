/**
 * Transport security selection: from the TLS flags to the credentials the
 * connection is dialled with. CA loading is an oracle that may fail.
 */
module Tls {
  import opened Wrappers
  import opened Flags

  /** The CA file and CA directory handed to the root-certificate loader. */
  datatype CaMaterial = CaMaterial(caFile: string, caPath: string)

  /** The CA loader (rootcerts.ConfigureTLS): the text of its error, or None on success. */
  type CaLoader = CaMaterial -> Option<string>

  /** A `tls.Config`: either accept any certificate, or verify with the roots loaded from `ca`. */
  datatype TlsConfig = SkipVerify | Verify(ca: CaMaterial)

  /** Transport credentials: none (plaintext, a nil credential) or TLS with a configuration. */
  datatype Credentials = Plaintext | Tls(config: TlsConfig)

  /** The five transport security modes a connection can run in. */
  datatype SecurityMode =
    | PlaintextMode
    | InsecureMode
    | SystemRootsMode
    | CAFileMode(file: string)
    | CAPathMode(dir: string)

  const TooManyTlsOptions := "at most one of --tls, --tls-insecure, --tls-cafile and --tls-capath is allowed"

  /**
   * The mode credentials run in. A CA file takes precedence over a CA directory,
   * as in the root-certificate loader; with neither, the system roots are used.
   */
  function ModeOf(c: Credentials): SecurityMode {
    match c
    case Plaintext => PlaintextMode
    case Tls(SkipVerify) => InsecureMode
    case Tls(Verify(ca)) =>
      if ca.caFile != "" then CAFileMode(ca.caFile)
      else if ca.caPath != "" then CAPathMode(ca.caPath)
      else SystemRootsMode
  }

  /** The mode that a TLS option, set on its own, asks for. */
  function OptionMode(o: TlsOption, flags: AppFlags): SecurityMode {
    match o
    case TlsSystem => SystemRootsMode
    case TlsInsecure => InsecureMode
    case TlsCAFile => CAFileMode(flags.tlsCAFile)
    case TlsCAPath => CAPathMode(flags.tlsCAPath)
  }

  /** `createTLSConfig`: insecure skips verification; otherwise the CA material is loaded. */
  function CreateTlsConfig(caFile: string, caPath: string, insecure: bool, loader: CaLoader): (r: Result<TlsConfig>)
    ensures insecure ==> r == Ok(SkipVerify)
    ensures !insecure && r.Ok? ==> r.value == Verify(CaMaterial(caFile, caPath))
    ensures !insecure ==> (r.Err? <==> loader(CaMaterial(caFile, caPath)).Some?)
    ensures r.Err? ==> Some(r.error) == loader(CaMaterial(caFile, caPath))
  {
    if insecure then Ok(SkipVerify)
    else
      match loader(CaMaterial(caFile, caPath))
      case Some(e) => Err(e)
      case None => Ok(Verify(CaMaterial(caFile, caPath)))
  }

  /** Insecure mode never consults the CA loader nor the CA paths. */
  lemma InsecureIgnoresCaMaterial(f1: string, p1: string, l1: CaLoader, f2: string, p2: string, l2: CaLoader)
    ensures CreateTlsConfig(f1, p1, true, l1) == CreateTlsConfig(f2, p2, true, l2)
  {
  }

  /** `parseCredentials`: dispatch on the number of TLS options set. */
  function ParseCredentials(flags: AppFlags, loader: CaLoader): (r: Result<Credentials>)
    ensures |SelectedOptions(flags)| == 0 ==> r == Ok(Plaintext)
    ensures |SelectedOptions(flags)| >= 2 ==> r == Err(TooManyTlsOptions)
    ensures r.Ok? && r.value.Tls? ==> |SelectedOptions(flags)| == 1
  {
    var count := |SelectedOptions(flags)|;
    if count == 0 then Ok(Plaintext)
    else if count == 1 then
      match CreateTlsConfig(flags.tlsCAFile, flags.tlsCAPath, flags.tlsInsecure, loader)
      case Ok(config) => Ok(Tls(config))
      case Err(e) => Err(e)
    else Err(TooManyTlsOptions)
  }

  /**
   * With exactly one TLS option set, the credentials run in the mode that option
   * asks for, and they fail exactly when the CA loader fails, except in insecure
   * mode, which never loads CA material.
   */
  lemma ParseCredentialsSingleOption(flags: AppFlags, loader: CaLoader)
    requires |SelectedOptions(flags)| == 1
    ensures ParseCredentials(flags, loader).Ok? ==>
      ModeOf(ParseCredentials(flags, loader).value) == OptionMode(SelectedOptions(flags)[0], flags)
    ensures SelectedOptions(flags)[0] == TlsInsecure ==>
      ParseCredentials(flags, loader) == Ok(Tls(SkipVerify))
    ensures SelectedOptions(flags)[0] != TlsInsecure ==>
      (ParseCredentials(flags, loader).Err? <==> loader(CaMaterial(flags.tlsCAFile, flags.tlsCAPath)).Some?)
    ensures ParseCredentials(flags, loader).Err? ==>
      Some(ParseCredentials(flags, loader).error) == loader(CaMaterial(flags.tlsCAFile, flags.tlsCAPath))
  {
    SingleTlsOption(flags);
    var o := SelectedOptions(flags)[0];
    match o
    case TlsSystem =>
      assert !IsSet(flags, TlsInsecure) && !IsSet(flags, TlsCAFile) && !IsSet(flags, TlsCAPath);
    case TlsInsecure =>
    case TlsCAFile =>
      assert !IsSet(flags, TlsInsecure) && !IsSet(flags, TlsCAPath);
    case TlsCAPath =>
      assert !IsSet(flags, TlsInsecure) && !IsSet(flags, TlsCAFile);
  }

  /** Plaintext credentials come out exactly when no TLS option is set. */
  lemma PlaintextIffNoTlsOption(flags: AppFlags, loader: CaLoader)
    ensures ParseCredentials(flags, loader) == Ok(Plaintext) <==>
      !flags.tls && !flags.tlsInsecure && flags.tlsCAFile == [] && flags.tlsCAPath == []
  {
    NoTlsOptionIffAllUnset(flags);
  }

  /** Conflicting TLS options are rejected whatever the CA loader would do. */
  lemma ConflictIgnoresCaLoader(flags: AppFlags, l1: CaLoader, l2: CaLoader)
    requires |SelectedOptions(flags)| >= 2
    ensures ParseCredentials(flags, l1) == ParseCredentials(flags, l2) == Err(TooManyTlsOptions)
  {
  }
}
