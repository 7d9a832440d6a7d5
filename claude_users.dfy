/**
 * The claude example's user lookup: a private three-user table searched by
 * string id, where an empty id or a miss gives null.
 */
module ClaudeGetUserById {
  import opened Wrappers
  import Lookup

  /** A user of the claude example (no role). */
  datatype User = User(id: string, name: string, email: string)

  /** The lookup's private table, never modified. */
  const Users: seq<User> := [
    User("1", "Alice Johnson", "alice@example.com"),
    User("2", "Bob Smith", "bob@example.com"),
    User("3", "Charlie Davis", "charlie@example.com")
  ]

  /** `find` over `table` for the first user whose id is `id`. */
  function FindById(table: seq<User>, id: string): (r: Option<User>)
    ensures r.Some? ==> r.value in table && r.value.id == id
    ensures r.None? <==> forall u :: u in table ==> u.id != id
    ensures r.Some? ==> exists i :: 0 <= i < |table| && table[i] == r.value
                                   && forall j :: 0 <= j < i ==> table[j].id != id
  {
    Lookup.Find(table, (u: User) => u.id == id)
  }

  /** `execute(id)`: null for an empty id, otherwise the first table entry with that id, or null. */
  function Execute(id: string): (r: Option<User>)
    ensures id == "" ==> r.None?
    ensures r.Some? ==> r.value in Users && r.value.id == id
    ensures r.None? && id != "" ==> forall u :: u in Users ==> u.id != id
  {
    if id == "" then None
    else FindById(Users, id)
  }

  /** Id "1" is Alice; "999" and the empty id are not found. */
  lemma KnownAndUnknownIds()
    ensures Execute("1") == Some(User("1", "Alice Johnson", "alice@example.com"))
    ensures Execute("999") == None
    ensures Execute("") == None
  {
  }
}

/**
 * The claude example's users controller: the list handler answers 200 with the
 * list, the lookup handler 404 with an error body on a miss and 200 with the
 * user on a hit.
 */
module ClaudeUsersController {
  import opened Wrappers
  import opened Http
  import opened ClaudeGetUserById

  /**
   * What the handlers send as JSON: the bare array of users (not an object with
   * a `users` key), one user object, or the object `{ error }`.
   */
  datatype Body = UserArray(users: seq<User>) | OneUser(user: User) | ErrorBody(error: string)

  const NotFoundError := "User not found"

  class UsersController {
    /** The list port (`GetUsers.execute`). */
    const getUsersUseCase: () -> seq<User>
    /** The optional lookup port; None when no lookup was injected. */
    const getUserByIdUseCase: Option<string -> Option<User>>

    constructor (getUsersUseCase: () -> seq<User>, getUserByIdUseCase: Option<string -> Option<User>>)
      ensures this.getUsersUseCase == getUsersUseCase
      ensures this.getUserByIdUseCase == getUserByIdUseCase
    {
      this.getUsersUseCase := getUsersUseCase;
      this.getUserByIdUseCase := getUserByIdUseCase;
    }

    /** `getUsers`: 200 with the list port's result, unchanged. */
    method GetUsers(res: Response<Body>)
      modifies res
      ensures res.statusCode == Some(200)
      ensures res.body == Some(UserArray(getUsersUseCase()))
    {
      var users := getUsersUseCase();
      res.Status(200);
      res.Json(UserArray(users));
    }

    /**
     * `getUserById` with the raw `id` path parameter: 404 with the error body
     * when there is no lookup port or it finds nothing, 200 with the user
     * otherwise.
     */
    method GetUserById(id: string, res: Response<Body>)
      modifies res
      ensures getUserByIdUseCase.None? ==>
        res.statusCode == Some(404) && res.body == Some(ErrorBody("User not found"))
      ensures getUserByIdUseCase.Some? && getUserByIdUseCase.value(id).None? ==>
        res.statusCode == Some(404) && res.body == Some(ErrorBody("User not found"))
      ensures getUserByIdUseCase.Some? && getUserByIdUseCase.value(id).Some? ==>
        res.statusCode == Some(200) && res.body == Some(OneUser(getUserByIdUseCase.value(id).value))
    {
      var user: Option<User> := None;
      if getUserByIdUseCase.Some? {
        user := getUserByIdUseCase.value(id);
      }
      if user.None? {
        res.Status(404);
        res.Json(ErrorBody(NotFoundError));
        return;
      }
      res.Status(200);
      res.Json(OneUser(user.value));
    }
  }

  /** With the table-backed lookup injected, "1" is answered 200 with Alice and "999" with 404. */
  method LookupThroughController() returns (found: Response<Body>, missing: Response<Body>)
    ensures found.statusCode == Some(200)
    ensures found.body == Some(OneUser(User("1", "Alice Johnson", "alice@example.com")))
    ensures missing.statusCode == Some(404) && missing.body == Some(ErrorBody("User not found"))
  {
    KnownAndUnknownIds();
    var controller := new UsersController(() => [], Some(ClaudeGetUserById.Execute));
    found := new Response();
    controller.GetUserById("1", found);
    missing := new Response();
    controller.GetUserById("999", missing);
  }
}
