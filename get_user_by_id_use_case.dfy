/** The use case that looks one user up through the repository port. */
module GetUserByIdUseCase {
  import opened Wrappers
  import opened Users
  import opened ListUsersUseCase

  /** The two errors `execute` throws. */
  datatype GetUserError = MissingFindById | UserNotFoundError(id: string) {
    function Message(): string {
      match this
      case MissingFindById => "UsersRepository missing findById implementation"
      case UserNotFoundError(id) => "User with id " + id + " was not found"
    }
  }

  /**
   * `execute(id)`: fails when the repository has no `findById`, fails with
   * UserNotFoundError when the lookup of `id` is absent, and otherwise returns
   * the user's projection.
   */
  function Execute(repo: UsersRepository, id: string): (r: Result<UserProps, GetUserError>)
    ensures r == Failure(MissingFindById) <==> repo.findById.None?
    ensures r.Failure? && r.error.UserNotFoundError? <==> repo.findById.Some? && repo.findById.value(id).None?
    ensures r.Failure? && r.error.UserNotFoundError? ==> r.error.id == id
    ensures r.Success? <==> repo.findById.Some? && repo.findById.value(id).Some?
    ensures r.Success? ==> NewUser(r.value) == Success(repo.findById.value(id).value)
  {
    match repo.findById
    case None => Failure(MissingFindById)
    case Some(findById) =>
      match findById(id)
      case None => Failure(UserNotFoundError(id))
      case Some(user) =>
        Success(ToJson(user))
  }

  /** A miss reports the id it looked for. */
  lemma NotFoundMessageNamesId(repo: UsersRepository, id: string)
    requires repo.findById.Some? && repo.findById.value(id).None?
    ensures Execute(repo, id).error.Message() == "User with id " + id + " was not found"
  {
  }
}
