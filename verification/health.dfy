/**
 * The health-check exchange as seen by the client: serving statuses, gRPC
 * status codes, the errors an RPC can return, and their translation into the
 * messages shown to the user.
 */
module Health {
  import opened Wrappers

  /** `HealthCheckResponse_ServingStatus`; `Unknown` is its zero value. */
  datatype ServingStatus = Unknown | Serving | NotServing | ServiceUnknown

  /** The name a serving status prints as. */
  function StatusName(s: ServingStatus): string {
    match s
    case Unknown => "UNKNOWN"
    case Serving => "SERVING"
    case NotServing => "NOT_SERVING"
    case ServiceUnknown => "SERVICE_UNKNOWN"
  }

  /** The gRPC status codes. */
  datatype Code =
    | OK | Canceled | UnknownCode | InvalidArgument | DeadlineExceeded | NotFound
    | AlreadyExists | PermissionDenied | ResourceExhausted | FailedPrecondition
    | Aborted | OutOfRange | Unimplemented | Internal | Unavailable | DataLoss
    | Unauthenticated

  /** The name a status code prints as. */
  function CodeName(c: Code): string {
    match c
    case OK => "OK"
    case Canceled => "Canceled"
    case UnknownCode => "Unknown"
    case InvalidArgument => "InvalidArgument"
    case DeadlineExceeded => "DeadlineExceeded"
    case NotFound => "NotFound"
    case AlreadyExists => "AlreadyExists"
    case PermissionDenied => "PermissionDenied"
    case ResourceExhausted => "ResourceExhausted"
    case FailedPrecondition => "FailedPrecondition"
    case Aborted => "Aborted"
    case OutOfRange => "OutOfRange"
    case Unimplemented => "Unimplemented"
    case Internal => "Internal"
    case Unavailable => "Unavailable"
    case DataLoss => "DataLoss"
    case Unauthenticated => "Unauthenticated"
  }

  /** A Go `error`: nil, a gRPC status error, or any other error with its text. */
  datatype ErrorValue = NoError | RpcError(code: Code, message: string) | PlainError(text: string)

  /** The code gRPC reads off an error: OK for nil, Unknown for an error that is not a status. */
  function StatusCode(e: ErrorValue): Code {
    match e
    case NoError => OK
    case RpcError(c, _) => c
    case PlainError(_) => UnknownCode
  }

  /** The text an error prints as; a status error shows its code and description. */
  function ErrorText(e: ErrorValue): string {
    match e
    case NoError => ""
    case RpcError(c, m) => "rpc error: code = " + CodeName(c) + " desc = " + m
    case PlainError(t) => t
  }

  const ConnectionRefusedMessage := "connection refused: application isn't listening or TLS handshake failed"
  const UnimplementedMessage := "rpc error: server doesn't implement gRPC health-checking protocol"
  const UnknownServicePrefix := "rpc error: unknown service "
  const RpcErrorPrefix := "rpc error: "

  /**
   * `toHumanReadable`: the fixed message for Unavailable, Unimplemented and
   * NotFound; the description alone, code hidden, for any other status error;
   * any other error, and nil, unchanged.
   */
  function ToHumanReadable(e: ErrorValue, service: string): (r: ErrorValue)
    ensures r.NoError? <==> e.NoError?
    ensures e.RpcError? && e.code == Unavailable ==> r == PlainError(ConnectionRefusedMessage)
    ensures e.RpcError? && e.code == Unimplemented ==> r == PlainError(UnimplementedMessage)
    ensures e.RpcError? && e.code == NotFound ==> r == PlainError(UnknownServicePrefix + service)
    ensures e.RpcError? && e.code !in {OK, Unavailable, Unimplemented, NotFound} ==>
      r == PlainError(RpcErrorPrefix + e.message)
    ensures e.RpcError? && e.code == OK ==> r == e
    ensures e.PlainError? ==> r == e
    ensures r.RpcError? ==> r == e && e.code == OK
  {
    match StatusCode(e)
    case OK => e
    case Unavailable => PlainError(ConnectionRefusedMessage)
    case Unimplemented => PlainError(UnimplementedMessage)
    case NotFound => PlainError(UnknownServicePrefix + service)
    case _ =>
      if e.RpcError? then PlainError(RpcErrorPrefix + e.message)
      else e
  }

  /** Translating an already translated error changes nothing. */
  lemma ToHumanReadableIdempotent(e: ErrorValue, service: string)
    ensures ToHumanReadable(ToHumanReadable(e, service), service) == ToHumanReadable(e, service)
  {
  }

  /** The code of a generic status error is hidden: only its description reaches the user. */
  lemma GenericRpcErrorHidesCode(c1: Code, c2: Code, message: string, service: string)
    requires c1 !in {OK, Unavailable, Unimplemented, NotFound}
    requires c2 !in {OK, Unavailable, Unimplemented, NotFound}
    ensures ToHumanReadable(RpcError(c1, message), service) == ToHumanReadable(RpcError(c2, message), service)
  {
  }

  /** What the health RPC gave back: the response, if any, and the error, if any. */
  datatype RpcReply = RpcReply(response: Option<ServingStatus>, err: ErrorValue)

  /** The `Check` RPC of the health service, asked about one service name. */
  type HealthRpc = string -> RpcReply

  /** The status of one check and its error, already translated for the user. */
  datatype CheckResult = CheckResult(status: ServingStatus, err: ErrorValue)

  /**
   * `check`: one request naming `service`; the status is that of the response,
   * UNKNOWN when there is none, and the error is translated.
   */
  function Check(rpc: HealthRpc, service: string): (r: CheckResult)
    ensures rpc(service).response.None? ==> r.status == Unknown
    ensures rpc(service).response.Some? ==> r.status == rpc(service).response.value
    ensures r.err == ToHumanReadable(rpc(service).err, service)
  {
    var reply := rpc(service);
    var status := if reply.response.Some? then reply.response.value else Unknown;
    CheckResult(status, ToHumanReadable(reply.err, service))
  }
}
