/** The use case that reports the service's health. */
module CheckHealthUseCase {
  import opened Wrappers
  import opened Health
  import OsSystemInfoGateway

  const HealthyStatus := 200
  const HealthyMessage := "Service is healthy"

  /**
   * `execute()`, given the address the system-info gateway resolved to: a
   * HealthStatus with status 200 and the healthy message. An empty address makes
   * the constructor throw, and the error is not caught.
   */
  function Execute(serverIp: string): (r: Result<HealthStatus, HealthViolation>)
    ensures r.Success? <==> serverIp != ""
    ensures r.Success? ==> ToJson(r.value) == HealthStatusProps(200, serverIp, "Service is healthy")
    ensures r.Failure? ==> r.error.Message() == "serverIp is required"
  {
    NewHealthStatus(HealthStatusProps(HealthyStatus, serverIp, HealthyMessage))
  }

  /** Over the OS-backed gateway the health check cannot fail: the address is never empty. */
  lemma HealthyOverOsGateway(table: OsSystemInfoGateway.InterfaceTable)
    ensures Execute(OsSystemInfoGateway.ServerIp(table)).Success?
    ensures Execute(OsSystemInfoGateway.ServerIp(table)).value.httpStatus == 200
  {
    OsSystemInfoGateway.ServerIpIsTotal(table);
  }
}
