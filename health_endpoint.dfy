/**
 * The codex example's `/health` wiring: the OS gateway feeds the health check,
 * which the controller renders.
 */
module HealthEndpoint {
  import opened Wrappers
  import opened Health
  import opened Http
  import OsSystemInfoGateway
  import CheckHealthUseCase
  import Controllers

  /**
   * One `/health` request against the interface table `table`: it answers 200
   * with status 200, the healthy message and a non-empty address, and nothing
   * is thrown.
   */
  method GetHealth(table: OsSystemInfoGateway.InterfaceTable)
    returns (res: Response<HealthStatusProps>, thrown: Option<HealthViolation>)
    ensures thrown.None?
    ensures res.statusCode == Some(200)
    ensures res.body.Some? && res.body.value.httpStatus == 200
    ensures res.body.Some? && res.body.value.serverIp == OsSystemInfoGateway.ServerIp(table)
    ensures res.body.Some? && res.body.value.serverIp != ""
    ensures res.body.Some? && res.body.value.message == "Service is healthy"
  {
    CheckHealthUseCase.HealthyOverOsGateway(table);
    OsSystemInfoGateway.ServerIpIsTotal(table);
    var serverIp := OsSystemInfoGateway.GetServerIp(table);
    var controller := new Controllers.HealthController(() => CheckHealthUseCase.Execute(serverIp));
    res := new Response();
    thrown := controller.Handle(res);
  }
}
