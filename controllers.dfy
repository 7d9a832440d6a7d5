/**
 * The codex example's controllers: each runs its use case once and writes the
 * outcome into the response; a use-case failure is handed back untouched and
 * nothing is written.
 */
module Controllers {
  import opened Wrappers
  import opened Users
  import opened Health
  import opened Http

  /** The `/health` controller over an injected health-check port. */
  class HealthController<E> {
    const checkHealthUseCase: () -> Result<HealthStatus, E>

    constructor (checkHealthUseCase: () -> Result<HealthStatus, E>)
      ensures this.checkHealthUseCase == checkHealthUseCase
    {
      this.checkHealthUseCase := checkHealthUseCase;
    }

    /**
     * `handle`: responds with the status the payload carries and the payload
     * itself as the body; a failure of the use case is rethrown and the response
     * is left untouched.
     */
    method Handle(res: Response<HealthStatusProps>) returns (thrown: Option<E>)
      modifies res
      ensures thrown.Some? <==> checkHealthUseCase().Failure?
      ensures thrown.Some? ==> thrown.value == checkHealthUseCase().error
      ensures thrown.Some? ==> unchanged(res)
      ensures thrown.None? ==>
        && res.statusCode == Some(checkHealthUseCase().value.httpStatus)
        && res.body == Some(Health.ToJson(checkHealthUseCase().value))
    {
      var outcome := checkHealthUseCase();
      if outcome.Failure? {
        return Some(outcome.error);
      }
      var payload := Health.ToJson(outcome.value);
      res.Status(payload.httpStatus);
      res.Json(payload);
      return None;
    }
  }

  /** The body of the user list response: `{ users }`. */
  datatype UsersBody = UsersBody(users: seq<UserProps>)

  /** The `/api/users` controller over an injected list-users port. */
  class UsersController<E> {
    const listUsersUseCase: () -> Result<seq<UserProps>, E>

    constructor (listUsersUseCase: () -> Result<seq<UserProps>, E>)
      ensures this.listUsersUseCase == listUsersUseCase
    {
      this.listUsersUseCase := listUsersUseCase;
    }

    /**
     * `handle`: responds 200 with the use case's list, unchanged and in order,
     * under `users`; a failure of the use case is rethrown and nothing is written.
     */
    method Handle(res: Response<UsersBody>) returns (thrown: Option<E>)
      modifies res
      ensures thrown.Some? <==> listUsersUseCase().Failure?
      ensures thrown.Some? ==> thrown.value == listUsersUseCase().error
      ensures thrown.Some? ==> unchanged(res)
      ensures thrown.None? ==>
        && res.statusCode == Some(200)
        && res.body == Some(UsersBody(listUsersUseCase().value))
    {
      var outcome := listUsersUseCase();
      if outcome.Failure? {
        return Some(outcome.error);
      }
      res.Status(200);
      res.Json(UsersBody(outcome.value));
      return None;
    }
  }
}
