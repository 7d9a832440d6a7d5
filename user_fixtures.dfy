/**
 * The demo users of the codex example: a fixed, ordered list of Users built once,
 * a `list()` that rebuilds each User from its projection, and `asJson()`.
 */
module UserFixtures {
  import opened Wrappers
  import opened Users

  /** The constructor arguments of the demo users, in order. */
  const DemoProps: seq<UserProps> := [
    UserProps("user-1", "Jane Doe", "jane.doe@example.com", "member"),
    UserProps("user-2", "John Smith", "john.smith@example.com", "admin")
  ]

  /** Both demo emails pass the email check. */
  lemma DemoEmailsAreValid()
    ensures IsValidEmail("jane.doe@example.com")
    ensures IsValidEmail("john.smith@example.com")
  {
    assert AllEmailChars("jane.doe") && AllEmailChars("john.smith");
    assert AllEmailChars("example") && AllEmailChars("com");
    assert "jane.doe@example.com" == "jane.doe" + "@" + "example" + "." + "com";
    assert "john.smith@example.com" == "john.smith" + "@" + "example" + "." + "com";
    EmailFromParts("jane.doe@example.com", "jane.doe", "example", "com");
    EmailFromParts("john.smith@example.com", "john.smith", "example", "com");
  }

  /** Every demo constructor argument passes validation, so building `demoUsers` cannot throw. */
  lemma DemoPropsAreValid()
    ensures NewUser(DemoProps[0]).Success? && NewUser(DemoProps[1]).Success?
  {
    DemoEmailsAreValid();
  }

  /** `demoUsers`: a User built from each demo constructor argument. */
  function DemoUsers(): (r: seq<User>)
    ensures |r| == |DemoProps|
    ensures NewUser(DemoProps[0]) == Success(r[0]) && NewUser(DemoProps[1]) == Success(r[1])
  {
    DemoPropsAreValid();
    [NewUser(DemoProps[0]).value, NewUser(DemoProps[1]).value]
  }

  /** Each user rebuilt from its own projection, as `list()` does to the demo users. */
  function RebuildAll(users: seq<User>): (r: seq<User>)
    ensures r == users
  {
    if users == [] then []
    else
      [NewUser(ToJson(users[0])).value] + RebuildAll(users[1..])
  }

  /** `list()`: the demo users, each rebuilt from its projection. */
  function List(): (r: seq<User>)
    ensures r == DemoUsers()
  {
    RebuildAll(DemoUsers())
  }

  /** `asJson()`: the demo users' projections. */
  function AsJson(): (r: seq<UserProps>)
    ensures r == ProjectAll(List())
  {
    ProjectAll(DemoUsers())
  }

  /** The projections are exactly the arguments the demo users were built from. */
  lemma AsJsonIsDemoProps()
    ensures AsJson() == DemoProps
  {
  }

  /** `list()` holds two users: user-1, a member, then user-2, an admin. */
  lemma ListIsUserOneThenUserTwo()
    ensures |List()| == 2
    ensures List()[0].id == "user-1" && List()[0].role == Member
    ensures List()[1].id == "user-2" && List()[1].role == Admin
  {
  }

  /** No two demo users share an id. */
  lemma DemoIdsAreDistinct()
    ensures forall i, j :: 0 <= i < j < |List()| ==> List()[i].id != List()[j].id
  {
  }
}
