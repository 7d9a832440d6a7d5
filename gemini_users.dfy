/**
 * The gemini example's user lookup: a two-user table with numeric ids, searched
 * for the first entry whose id equals the argument; a miss gives undefined.
 */
module GeminiGetUserById {
  import opened Wrappers
  import Lookup

  /** A user of the gemini example, with a numeric id. */
  datatype User = User(id: int, name: string, email: string)

  /** The table `execute` builds on every call. */
  const Users: seq<User> := [
    User(1, "John Doe", "john.doe@example.com"),
    User(2, "Jane Doe", "jane.doe@example.com")
  ]

  /**
   * `execute(id)`: the first table entry whose id is `id`, or None. The
   * `typeof` guard cannot fail on an integer argument.
   */
  function Execute(id: int): (r: Option<User>)
    ensures r.Some? ==> r.value in Users && r.value.id == id
    ensures r.None? <==> forall u :: u in Users ==> u.id != id
  {
    Lookup.Find(Users, (u: User) => u.id == id)
  }

  /** Id 1 is John Doe; id 999 is not found. */
  lemma KnownAndUnknownIds()
    ensures Execute(1) == Some(User(1, "John Doe", "john.doe@example.com"))
    ensures Execute(999) == None
  {
  }
}
