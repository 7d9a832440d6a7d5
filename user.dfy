/**
 * The User entity of the codex example: four readonly fields that the constructor
 * validates in a fixed order before setting them, and a `toJSON` projection.
 */
module Users {
  import opened Wrappers
  import Lookup

  datatype Role = Admin | Member

  /** The role as it is spelled in a projection. */
  function RoleName(r: Role): string {
    match r
    case Admin => "admin"
    case Member => "member"
  }

  /** The role named by `s`, or None when `s` is not a supported role. */
  function ParseRole(s: string): (r: Option<Role>)
    ensures r.Some? <==> s == "admin" || s == "member"
    ensures r.Some? ==> RoleName(r.value) == s
  {
    if s == "admin" then Some(Admin)
    else if s == "member" then Some(Member)
    else None
  }

  /**
   * The constructor's argument and the shape `toJSON` returns. The role is a
   * string: the TypeScript type restricts it to two names, but the constructor
   * checks it again at run time.
   */
  datatype UserProps = UserProps(id: string, name: string, email: string, role: string)

  /**
   * The characters the pattern's `\s` class matches: the ECMAScript WhiteSpace
   * and LineTerminator code points.
   */
  predicate IsWhitespace(c: char) {
    || c == '\t' || c == '\n' || c == '\U{000B}' || c == '\U{000C}' || c == '\r'
    || c == ' ' || c == '\U{00A0}' || c == '\U{1680}'
    || ('\U{2000}' <= c <= '\U{200A}')
    || c == '\U{2028}' || c == '\U{2029}' || c == '\U{202F}' || c == '\U{205F}'
    || c == '\U{3000}' || c == '\U{FEFF}'
  }

  /** The character class `[^@\s]`. */
  predicate EmailChar(c: char) {
    c != '@' && !IsWhitespace(c)
  }

  predicate AllEmailChars(s: string) {
    forall k :: 0 <= k < |s| ==> EmailChar(s[k])
  }

  /** `s` is `[^@\s]+\.[^@\s]+`, given that it holds no '@' or whitespace. */
  predicate HasInnerDot(s: string) {
    exists k :: 0 < k < |s| - 1 && s[k] == '.'
  }

  /**
   * The email check: split at the first '@'; the part before it must be
   * non-empty, and the part after it must be a dotted domain; neither may hold
   * an '@' or whitespace.
   */
  predicate IsValidEmail(email: string)
    ensures IsValidEmail(email) ==> |email| >= |"a@b.c"|
  {
    match Lookup.FindIndex(email, c => c == '@')
    case None => false
    case Some(at) =>
      && 0 < at
      && AllEmailChars(email[..at])
      && AllEmailChars(email[at + 1..])
      && HasInnerDot(email[at + 1..])
  }

  /**
   * The pattern `^[^@\s]+@[^@\s]+\.[^@\s]+$` read literally: an '@' at `at`
   * and a '.' at `dot` with a non-empty run before, between and after them,
   * and every other character in `[^@\s]`.
   */
  ghost predicate MatchesEmailPattern(email: string) {
    exists at, dot ::
      && 0 < at && at + 1 < dot && dot + 1 < |email|
      && email[at] == '@' && email[dot] == '.'
      && forall k :: 0 <= k < |email| && k != at ==> EmailChar(email[k])
  }

  /** The email check accepts exactly the strings the pattern matches. */
  lemma {:induction false} EmailCheckMatchesPattern(email: string)
    ensures IsValidEmail(email) <==> MatchesEmailPattern(email)
  {
  }

  /** An address assembled as local@host.tld from runs of `[^@\s]` passes the check. */
  lemma {:induction false} EmailFromParts(email: string, local: string, host: string, tld: string)
    requires email == local + "@" + host + "." + tld
    requires local != "" && host != "" && tld != ""
    requires AllEmailChars(local) && AllEmailChars(host) && AllEmailChars(tld)
    ensures IsValidEmail(email)
  {
    var at, dot := |local|, |local| + 1 + |host|;
    assert email[at] == '@' && email[dot] == '.';
    forall k | 0 <= k < |email| && k != at
      ensures EmailChar(email[k])
    {
      if k < at {
        assert email[k] == local[k];
      } else if k < dot {
        assert email[k] == host[k - at - 1];
      } else if k > dot {
        assert email[k] == tld[k - dot - 1];
      }
    }
    assert MatchesEmailPattern(email);
    EmailCheckMatchesPattern(email);
  }

  /** Each check the constructor runs, named by the error it raises. */
  datatype UserViolation = IdRequired | NameRequired | EmailRequired | EmailInvalid | RoleUnsupported {
    /** The message of the `Error` the constructor throws. */
    function Message(): string {
      match this
      case IdRequired => "id is required"
      case NameRequired => "name is required"
      case EmailRequired => "email is required"
      case EmailInvalid => "email must be valid"
      case RoleUnsupported => "role must be a supported value"
    }

    /** Position of the check in the constructor's sequence. */
    function Rank(): nat {
      match this
      case IdRequired => 0
      case NameRequired => 1
      case EmailRequired => 2
      case EmailInvalid => 3
      case RoleUnsupported => 4
    }
  }

  /** `p` fails the check that raises `v`. */
  predicate Violates(p: UserProps, v: UserViolation) {
    match v
    case IdRequired => p.id == ""
    case NameRequired => p.name == ""
    case EmailRequired => p.email == ""
    case EmailInvalid => !IsValidEmail(p.email)
    case RoleUnsupported => ParseRole(p.role).None?
  }

  /** The readonly fields of a User. */
  datatype UserFields = UserFields(id: string, name: string, email: string, role: Role)

  /** A User that the constructor accepted: no other User can exist. */
  type User = u: UserFields | u.id != "" && u.name != "" && IsValidEmail(u.email)
    witness var w := UserFields("user", "user", "u@u.u", Member); assert w.email[2..][1] == '.'; w

  /**
   * `new User(props)`: runs the checks in order and fails with the first one
   * violated; otherwise keeps the four fields.
   */
  function NewUser(p: UserProps): (r: Result<User, UserViolation>)
    ensures r.Failure? ==> Violates(p, r.error)
    ensures r.Success? ==> forall v :: !Violates(p, v)
    ensures r.Success? ==> ToJson(r.value) == p
    ensures r.Failure? ==> forall v: UserViolation :: v.Rank() < r.error.Rank() ==> !Violates(p, v)
  {
    if p.id == "" then Failure(IdRequired)
    else if p.name == "" then Failure(NameRequired)
    else if p.email == "" then Failure(EmailRequired)
    else if !IsValidEmail(p.email) then Failure(EmailInvalid)
    else match ParseRole(p.role)
      case None => Failure(RoleUnsupported)
      case Some(role) => Success(UserFields(p.id, p.name, p.email, role))
  }

  /**
   * `toJSON`: the four fields as a plain record. The record passes every check
   * and its role names the User's role; RebuildFromProjection closes the round trip.
   */
  function ToJson(u: User): (p: UserProps)
    ensures forall v :: !Violates(p, v)
    ensures p.id == u.id && p.name == u.name && p.email == u.email && ParseRole(p.role) == Some(u.role)
  {
    UserProps(u.id, u.name, u.email, RoleName(u.role))
  }

  /** Rebuilding a User from its projection gives the same User back. */
  lemma RebuildFromProjection(u: User)
    ensures NewUser(ToJson(u)) == Success(u)
  {
  }

  /** Every user's projection, in order; each one validates back to its user. */
  function ProjectAll(users: seq<User>): (r: seq<UserProps>)
    ensures |r| == |users|
    ensures forall i :: 0 <= i < |r| ==> r[i] == ToJson(users[i])
    ensures forall i :: 0 <= i < |r| ==> NewUser(r[i]) == Success(users[i])
  {
    if users == [] then []
    else
      [ToJson(users[0])] + ProjectAll(users[1..])
  }

  /** Construction succeeds exactly when every field is acceptable. */
  lemma {:induction false} AcceptedExactly(p: UserProps)
    ensures NewUser(p).Success?
      <==> p.id != "" && p.name != "" && p.email != "" && MatchesEmailPattern(p.email)
           && (p.role == "admin" || p.role == "member")
  {
  }

  /** An empty email is reported as missing, not as malformed. */
  lemma EmptyEmailIsRequired(p: UserProps)
    requires p.id != "" && p.name != "" && p.email == ""
    ensures NewUser(p) == Failure(EmailRequired)
    ensures NewUser(p).error.Message() == "email is required"
  {
  }

  /** "not-an-email" has no '@', so the format check rejects it. */
  lemma NotAnEmailIsRejected()
    ensures !IsValidEmail("not-an-email")
    ensures NewUser(UserProps("user-1", "Jane Doe", "not-an-email", "member")) == Failure(EmailInvalid)
  {
    var s := "not-an-email";
    assert forall k :: 0 <= k < |s| ==> s[k] != '@';
  }

  /** A role other than admin or member is rejected with the role error. */
  lemma UnknownRoleIsRejected(p: UserProps)
    requires p.id != "" && p.name != "" && IsValidEmail(p.email)
    requires p.role != "admin" && p.role != "member"
    ensures NewUser(p) == Failure(RoleUnsupported)
    ensures NewUser(p).error.Message() == "role must be a supported value"
  {
  }
}
