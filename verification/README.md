# gprobe decision logic in Dafny

gprobe is a command-line client of the gRPC Health Checking Protocol
(`grpc.health.v1.Health/Check`). It takes a server address and an optional
service name. It dials the server once, in plaintext or in one TLS mode, and
asks for the serving status. It prints the status name and exits 0 (healthy or
`--no-fail`), 1 (usage error), 2 (not SERVING) or 127 (any connect or RPC error).

This project models the deterministic core of `main.go`:

- `flags.dfy` (module `Flags`): the `appFlags` record and `countTLSFlags`. The
  count is a method with one increment per flag, as in the source. It is proved
  equal to the length of `SelectedOptions`, the list of TLS options that are set.
- `tls.dfy` (module `Tls`): `createTLSConfig` and `parseCredentials`. Credentials
  are `Plaintext` or `Tls(SkipVerify | Verify(ca))`. `ModeOf` reads them as one
  of five modes: plaintext, insecure, system roots, CA file, CA directory. The
  root-certificate loader is an oracle (`CaLoader`) that may fail.
- `config.dfy` (module `Config`): `createConfig`. The method `CreateConfig` fills
  an `AppConfig` object field by field, or returns nil and an error. It is
  proved against the function `Configure`, which gives the same result as a value.
- `health.dfy` (module `Health`): serving statuses, the gRPC status codes, Go
  errors as `NoError | RpcError(code, message) | PlainError(text)`,
  `toHumanReadable` and `check`. The health RPC is an oracle (`HealthRpc`).
- `app.dfy` (module `App`): the exit-code constants, `appMain` and the action
  that turns a configuration error into a usage error (exit 1, help shown). The
  dialer is an oracle (`Dialer`). "No network activity on a usage error" is
  stated as: the outcome does not depend on the dialer or on the RPC.

`Health.StatusCode` follows gRPC's `status.Code`: OK for nil, the code of a
status error, and Unknown for any other error. In gRPC, a status error built
with code OK is nil. So `RpcError(OK, _)` does not occur in practice. The model
keeps that case, and `ToHumanReadable` returns it unchanged, as the source does.

The end-to-end test `acctest/main_test.go:139-154` expects `NotFound` in stderr
for an unregistered service. `main.go:281-282` prints
`rpc error: unknown service <name>` instead. The model follows `main.go`
(`App.UnknownService`). A usage error also prints the CLI help, which goes to
stdout (`main.go:81-84`). The model records this as `Outcome.helpShown`.
CA material that cannot be loaded is reported the same way, through
`createConfig` (main.go:148-151, 124-127). The result is exit 1 with the help,
not exit 127. The model follows the code (`App.CaLoadFailureIsUsageError`).

## Model

| member | source | states |
|---|---|---|
| `Flags.CountTlsFlags` | main.go:179-194 | the count is the number of TLS options set; it is at most 4; it is 0 exactly when `tls` and `tlsInsecure` are false and both paths are empty |
| `Flags.SelectedOptionsCount` | main.go:179-194 | the number of selected options is the number of true items among `tls`, `tlsInsecure`, a non-empty CA file and a non-empty CA path |
| `Flags.SetAmongMembers` | main.go:179-194 | selection keeps exactly the options that are set and never yields more items than it was given |
| `Flags.SetAmongDistinct` | main.go:179-194 | selection never counts one option twice |
| `Flags.SelectedOptionsSpec` | main.go:179-194 | an option is selected iff it is set; no option repeats; there are at most 4 |
| `Flags.NoTlsOptionIffAllUnset` | main.go:162-165 | a count of 0 holds iff no TLS flag is set |
| `Flags.SingleTlsOption` | main.go:166-167 | with a count of 1, the selected option is set and every other option is unset |
| `Tls.CreateTlsConfig` | main.go:196-215 | insecure gives skip-verify; otherwise the result is an error iff the CA loader fails, with the loader's own error, and on success it verifies with the given CA file and path |
| `Tls.InsecureIgnoresCaMaterial` | main.go:199-202 | in insecure mode the result depends neither on the CA paths nor on the loader |
| `Tls.ParseCredentials` | main.go:159-177 | count 0 gives plaintext; count 2 or more gives the fixed "at most one of" error; TLS credentials come only from a count of 1 |
| `Tls.ParseCredentialsSingleOption` | main.go:166-172 | with one option set, the credentials run in that option's mode; insecure never fails; any other mode fails iff the CA loader fails, and then with the loader's own error |
| `Tls.PlaintextIffNoTlsOption` | main.go:162-165 | plaintext credentials come out iff no TLS flag is set |
| `Tls.ConflictIgnoresCaLoader` | main.go:173-176 | conflicting options are refused without consulting the CA loader |
| `Config.Configure` | main.go:134-157 | one argument gives the address and an empty service; two give the address and the service; any other count gives the argument-count error before the TLS options are looked at; timeout and noFail are copied; a TLS error comes back under "can't parse TLS configuration: " |
| `Config.ConflictingTlsOptionsRefused` | main.go:148-151 | with a valid argument count, two or more TLS options give the prefixed "at most one of" error |
| `Config.AppConfig.constructor` | main.go:135 | a new record holds the zero value of every field, with nil (plaintext) credentials |
| `Config.CreateConfig` | main.go:134-157 | the method returns a newly allocated record or an error, never both; the record holds exactly the configured value, and the error exactly the configuration error |
| `Health.ToHumanReadable` | main.go:272-290 | nil in gives nil out, and only nil; Unavailable, Unimplemented and NotFound give their fixed messages (NotFound names the service); any other status error except OK gives "rpc error: " and its description; an OK-code status error and any error that is not a status error are returned unchanged |
| `Health.ToHumanReadableIdempotent` | main.go:272-290 | translating a translated error changes nothing |
| `Health.GenericRpcErrorHidesCode` | main.go:283-287 | two generic status errors with the same description translate alike, whatever their codes |
| `Health.Check` | main.go:257-270 | the request names the service; the status is the response's, or UNKNOWN when there is no response; the error is translated |
| `App.AppMain` | main.go:221-244 | exit 127 iff the connect or the check failed, and then stdout is empty, whatever noFail says; otherwise the status name is printed and the exit is 2 with "health-check failed" iff noFail is unset and the status is not SERVING, else 0 with no message |
| `App.Run` | main.go:123-130 | a configuration error shows the help and exits 1 with that error; otherwise the outcome is that of appMain; exit 1 occurs iff the help is shown |
| `App.NoFailOnlyMasksNegativeHealth` | main.go:237-243 | noFail leaves stdout and every 127 and 0 outcome unchanged; it only turns exit 2 into exit 0 |
| `App.UsageErrorNeverConnects` | main.go:123-127 | on a configuration error, neither the dialer nor the RPC affects the outcome; stdout holds no status and the exit is 1 |
| `App.WrongArgumentCount` | main.go:144-145 | 0 or 3 and more arguments exit 1 with the argument-count message |
| `App.ConflictingTlsOptions` | main.go:148-151 | two or more TLS options exit 1 with the prefixed "at most one of" message |
| `App.CaLoadFailureIsUsageError` | main.go:148-151 | with one non-insecure TLS option and CA material that fails to load, the help is shown and the exit is 1 with "can't parse TLS configuration: " followed by the loader's error |
| `App.ServingServer` | acctest/main_test.go:57-71 | a reachable plaintext server answering SERVING gives "SERVING" on stdout and exit 0 |
| `App.NotServingService` | acctest/main_test.go:103-137 | a NOT_SERVING service prints NOT_SERVING and exits 2 with "health-check failed", or exits 0 under noFail |
| `App.UnknownService` | main.go:281-282 | a NotFound reply exits 127 with nothing on stdout and a message naming the service |

## Left out

- The deadline (`context.WithTimeout`, main.go:222): `timeout` is copied into the configuration, but time is not modelled.
- `connect` / `grpc.DialContext` (main.go:246-255) and the `client.Check` call (main.go:258-261): network I/O. They are the oracles `Dialer` and `HealthRpc`. The choice between `WithInsecure` and transport credentials is not modelled.
- `rootcerts.ConfigureTLS` and `credentials.NewTLS` (main.go:171, 204-208): certificate loading and parsing. They are the oracle `CaLoader`. `Tls.ModeOf` assumes the loader's rule that a CA file takes precedence over a CA directory.
- `connection.Close` and `cancel` (main.go:223, 230): resource release is not modelled.
- CLI wiring in `createApp` (main.go:72-122): flag parsing, defaults, the `GPROBE_CAFILE` / `GPROBE_CAPATH` environment variables, help and version text. Flags arrive already filled in. Only the fact that help is shown is recorded.
- The CLI library's printing of the exit message to stderr and its process exit: the model stops at the `ExitError` value.
- Serving-status numbers outside the four named values are not modelled.
- probe/probe.go and acctest/stubserver.go are not part of this model.
