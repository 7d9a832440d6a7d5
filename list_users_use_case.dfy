/**
 * The users repository port of the codex example and the use case that lists
 * every user's projection.
 */
module ListUsersUseCase {
  import opened Wrappers
  import opened Users
  import UserFixtures

  /**
   * `UsersRepository`: what `list()` resolves to, and the optional `findById`
   * (None when the adapter does not implement it).
   */
  datatype UsersRepository = UsersRepository(list: seq<User>, findById: Option<string -> Option<User>>)

  /** `execute()`: the repository's users, each mapped to its projection. */
  function Execute(repo: UsersRepository): (r: seq<UserProps>)
    ensures |r| == |repo.list|
    ensures forall i :: 0 <= i < |r| ==> NewUser(r[i]) == Success(repo.list[i])
    ensures repo.list == [] ==> r == []
  {
    ProjectAll(repo.list)
  }

  /** Over a repository backed by the demo users, the result is `asJson()`, user-1 first. */
  lemma ExecuteOverFixtures(findById: Option<string -> Option<User>>)
    ensures Execute(UsersRepository(UserFixtures.List(), findById)) == UserFixtures.AsJson()
    ensures Execute(UsersRepository(UserFixtures.List(), findById)) == UserFixtures.DemoProps
  {
  }
}
