/**
 * The HealthStatus entity of the codex example: three readonly fields, a
 * constructor that range-checks the status and requires both strings, and a
 * `toJSON` projection.
 */
module Health {
  import opened Wrappers

  /** The constructor's argument and the shape `toJSON` returns. */
  datatype HealthStatusProps = HealthStatusProps(httpStatus: int, serverIp: string, message: string)

  /** The readonly fields of a HealthStatus. */
  datatype HealthStatusFields = HealthStatusFields(httpStatus: int, serverIp: string, message: string)

  /** A HealthStatus that the constructor accepted: no other one can exist. */
  type HealthStatus = h: HealthStatusFields | 100 <= h.httpStatus <= 599 && h.serverIp != "" && h.message != ""
    witness HealthStatusFields(200, "127.0.0.1", "Service is healthy")

  /** Each check the constructor runs, named by the error it raises. */
  datatype HealthViolation = StatusOutOfRange | ServerIpRequired | MessageRequired {
    /** The message of the `Error` the constructor throws. */
    function Message(): string {
      match this
      case StatusOutOfRange => "httpStatus must be a valid HTTP status code"
      case ServerIpRequired => "serverIp is required"
      case MessageRequired => "message is required"
    }
  }

  /**
   * `new HealthStatus(props)`: the status range first, then the server address,
   * then the message.
   */
  function NewHealthStatus(p: HealthStatusProps): (r: Result<HealthStatus, HealthViolation>)
    ensures r.Success? <==> 100 <= p.httpStatus <= 599 && p.serverIp != "" && p.message != ""
    ensures r.Success? ==> ToJson(r.value) == p
    ensures r == Failure(StatusOutOfRange) <==> p.httpStatus < 100 || p.httpStatus > 599
    ensures r == Failure(ServerIpRequired) <==> 100 <= p.httpStatus <= 599 && p.serverIp == ""
    ensures r == Failure(MessageRequired) <==> 100 <= p.httpStatus <= 599 && p.serverIp != "" && p.message == ""
  {
    if p.httpStatus < 100 || p.httpStatus > 599 then Failure(StatusOutOfRange)
    else if p.serverIp == "" then Failure(ServerIpRequired)
    else if p.message == "" then Failure(MessageRequired)
    else Success(HealthStatusFields(p.httpStatus, p.serverIp, p.message))
  }

  /**
   * `toJSON`: the three fields as a plain record. The record keeps the
   * constructor's invariant; RebuildFromProjection closes the round trip.
   */
  function ToJson(h: HealthStatus): (p: HealthStatusProps)
    ensures 100 <= p.httpStatus <= 599 && p.serverIp != "" && p.message != ""
    ensures p.httpStatus == h.httpStatus && p.serverIp == h.serverIp && p.message == h.message
  {
    HealthStatusProps(h.httpStatus, h.serverIp, h.message)
  }

  /** Rebuilding a HealthStatus from its projection gives the same value back. */
  lemma RebuildFromProjection(h: HealthStatus)
    ensures NewHealthStatus(ToJson(h)) == Success(h)
  {
  }

  /** Both ends of the status range are accepted, the values just outside are not. */
  lemma StatusRangeBoundaries(serverIp: string, message: string)
    requires serverIp != "" && message != ""
    ensures NewHealthStatus(HealthStatusProps(100, serverIp, message)).Success?
    ensures NewHealthStatus(HealthStatusProps(599, serverIp, message)).Success?
    ensures NewHealthStatus(HealthStatusProps(99, serverIp, message)) == Failure(StatusOutOfRange)
    ensures NewHealthStatus(HealthStatusProps(600, serverIp, message)) == Failure(StatusOutOfRange)
  {
  }

  /** An out-of-range status is reported even when the address is empty too. */
  lemma StatusCheckedBeforeAddress(p: HealthStatusProps)
    requires p.httpStatus < 100 || p.httpStatus > 599
    requires p.serverIp == ""
    ensures NewHealthStatus(p).error.Message() == "httpStatus must be a valid HTTP status code"
  {
  }
}
