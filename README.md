# Layered user and health service, modelled in Dafny

This project models the domain and application core of a small layered web
service. The service has a health probe and a user-lookup API. Most of the core
comes from the `typescript-express-codex` example. Two small lookup variants
come from the `typescript-express-claude` and `typescript-express-gemini`
examples.

- **Entities.** `User` and `HealthStatus` validate their own fields when they
  are constructed. Each constructor is a function that returns
  `Result<Entity, Violation>`. The violation names the first check that
  failed, in the order the source runs them, and has the source's exact error
  message. Each entity is a subset type of its field record, so a value that
  fails validation cannot be built. Datatypes are immutable, which models the
  readonly fields: no operation changes a constructed entity. `toJSON` is
  `ToJson`. It is proved to be a round trip in both directions with the
  constructor.
- **Email pattern.** The pattern `^[^@\s]+@[^@\s]+\.[^@\s]+$` is written twice.
  `IsValidEmail` splits the address at its first `@` using the shared
  first-match search. `MatchesEmailPattern` reads the pattern literally, as
  positions for the `@` and the `.`. A lemma proves that the two agree. `\s` is
  the explicit set of ECMAScript whitespace and line-terminator code points.
- **Fixtures and use cases.** `UserFixtures` holds the two demo users, and
  `list()` and `asJson()`. `ListUsersUseCase.Execute` and
  `GetUserByIdUseCase.Execute` work over a repository port. The port holds the
  users that `list()` resolves to and an optional `findById` function.
  `CheckHealthUseCase.Execute` takes the address that the gateway returned.
- **Gateway.** `OsSystemInfoGateway.GetServerIp` is imperative, like its
  source. It has nested loops over an interface table that is passed in as
  input. It is proved equal to the specification function `ServerIp`. Lemmas
  then prove that `ServerIp` gives the first qualifying entry in enumeration
  order, or `127.0.0.1` when no entry qualifies.
- **Controllers.** The response object is the class `Http.Response<B>`. It has
  a status code and a body, and each stays unset until a controller writes it.
  Each controller is a class. Its use-case ports are constant function-valued
  fields, injected through the constructor, as in the source. Each handler is a
  method that modifies the response. A use-case failure is returned as
  `thrown`, and the response is then left unchanged.
- **Lookup variants.** The claude lookup uses string ids, and an empty id or a
  miss gives null. The gemini lookup uses integer ids over a two-user table.
  Both use the generic `Lookup.Find`. The claude controller answers 404 with
  `{error: 'User not found'}` or 200 with the user.

The fixture list and both lookup tables are constants. The functions over them
are pure, so a repeated `list()` or `asJson()` returns equal results, and no
lookup can modify its table.

Three behaviours worth noting, stated against the code:

- The claude controller's 404 body is `{error: 'User not found'}`
  (examples/typescript-express-claude/src/presentation/UsersController.ts:21). It does not contain the id.
- Its 200 body is the user itself
  (examples/typescript-express-claude/src/presentation/UsersController.ts:25).
- The gateway returns the address of the first qualifying entry, not of the
  first qualifying interface.

## Model

| member | source | states |
|---|---|---|
| Lookup.FindIndex | examples/typescript-express-claude/src/application/GetUserById.ts:15 | `find`'s position: the first index whose element satisfies the predicate; None exactly when no element does |
| Lookup.Find | examples/typescript-express-gemini/src/application/users/GetUserByIdUseCase.ts:12 | the found element is in the table, satisfies the predicate and no earlier element does; None exactly when no element satisfies it |
| Users.ParseRole | examples/typescript-express-codex/src/domain/users/User.ts:50-54 | a role is accepted exactly when it is "admin" or "member", and the accepted role spells back to the same string |
| Users.EmailCheckMatchesPattern | examples/typescript-express-codex/src/domain/users/User.ts:44-48 | splitting at the first '@' accepts exactly the strings that the regular expression matches: a non-empty local part, one '@', and a domain with a non-empty run on each side of a '.', with no '@' or whitespace elsewhere |
| Users.EmailFromParts | examples/typescript-express-codex/src/domain/users/User.ts:44-48 | any local@host.tld built from non-empty runs without '@' or whitespace passes the email check |
| Users.NewUser | examples/typescript-express-codex/src/domain/users/User.ts:16-27 | construction fails with a check that the props violate, and every check ranked earlier holds (order id, name, email required, email format, role); on success no check is violated and the projection equals the props |
| Users.AcceptedExactly | examples/typescript-express-codex/src/domain/users/User.ts:16-21 | construction succeeds if and only if id, name and email are non-empty, the email matches the pattern, and the role is admin or member |
| Users.IsValidEmail | examples/typescript-express-codex/src/domain/users/User.ts:44-48 | `assertValidEmail`: an accepted address has at least five characters; that it accepts exactly what the pattern matches is EmailCheckMatchesPattern |
| Users.ToJson | examples/typescript-express-codex/src/domain/users/User.ts:29-36 | the projection carries the four fields, passes every constructor check and its role string parses back to the User's role; the round trip is RebuildFromProjection and NewUser's ensures |
| Users.UserViolation.Message | examples/typescript-express-codex/src/domain/users/User.ts:38-54 | no ensures of its own: holds the exact texts "<field> is required", "email must be valid", "role must be a supported value"; EmptyEmailIsRequired and UnknownRoleIsRejected state which one is raised |
| Users.RebuildFromProjection | examples/typescript-express-codex/src/domain/users/User.ts:23-36 | constructing from a user's `toJSON` gives back that same user |
| Users.ProjectAll | examples/typescript-express-codex/src/application/users/ListUsersUseCase.ts:17 | each user's projection at the same position, and each projection validates back to its user |
| Users.EmptyEmailIsRequired | examples/typescript-express-codex/src/domain/users/User.ts:17-20 | an empty email fails with "email is required", not with the format error |
| Users.NotAnEmailIsRejected | examples/typescript-express-codex/src/domain/users/User.ts:44-48 | "not-an-email" fails the email check, and construction reports the format error |
| Users.UnknownRoleIsRejected | examples/typescript-express-codex/src/domain/users/User.ts:50-54 | with valid other fields, a role other than admin or member fails with "role must be a supported value" |
| Health.NewHealthStatus | examples/typescript-express-codex/src/domain/health/HealthStatus.ts:12-28 | success if and only if 100 <= httpStatus <= 599 and both strings are non-empty; each error holds exactly when its check is the first to fail; on success the projection equals the props |
| Health.ToJson | examples/typescript-express-codex/src/domain/health/HealthStatus.ts:30-36 | the projection carries the three fields and keeps the invariant 100 <= httpStatus <= 599 with non-empty address and message; the round trip is RebuildFromProjection and NewHealthStatus's ensures |
| Health.HealthViolation.Message | examples/typescript-express-codex/src/domain/health/HealthStatus.ts:13-23 | no ensures of its own: holds the exact texts "httpStatus must be a valid HTTP status code", "serverIp is required", "message is required"; StatusCheckedBeforeAddress and CheckHealthUseCase.Execute state which one is raised |
| Health.RebuildFromProjection | examples/typescript-express-codex/src/domain/health/HealthStatus.ts:25-36 | constructing from a status's `toJSON` gives back the same status |
| Health.StatusRangeBoundaries | examples/typescript-express-codex/src/domain/health/HealthStatus.ts:13-15 | 100 and 599 are accepted; 99 and 600 fail with the status error |
| Health.StatusCheckedBeforeAddress | examples/typescript-express-codex/src/domain/health/HealthStatus.ts:13-19 | an out-of-range status with an empty address reports "httpStatus must be a valid HTTP status code" |
| UserFixtures.DemoEmailsAreValid | examples/typescript-express-codex/src/domain/users/userFixtures.ts:3-16 | both demo email addresses pass the email check |
| UserFixtures.DemoPropsAreValid | examples/typescript-express-codex/src/domain/users/userFixtures.ts:3-16 | both demo constructor calls succeed |
| UserFixtures.DemoUsers | examples/typescript-express-codex/src/domain/users/userFixtures.ts:3-16 | `demoUsers` holds exactly the users constructed from the demo props, in order |
| UserFixtures.RebuildAll | examples/typescript-express-codex/src/domain/users/userFixtures.ts:20 | rebuilding each user from its projection returns the same sequence of users |
| UserFixtures.List | examples/typescript-express-codex/src/domain/users/userFixtures.ts:19-21 | `list()` equals the stored demo users, element by element |
| UserFixtures.AsJson | examples/typescript-express-codex/src/domain/users/userFixtures.ts:22-24 | `asJson()` is `list()` mapped through `toJSON`, in the same order |
| UserFixtures.AsJsonIsDemoProps | examples/typescript-express-codex/src/domain/users/userFixtures.ts:3-24 | `asJson()` equals the props the demo users were constructed from |
| UserFixtures.ListIsUserOneThenUserTwo | examples/typescript-express-codex/src/domain/users/userFixtures.ts:3-21 | `list()` has two users: user-1 (member), then user-2 (admin) |
| UserFixtures.DemoIdsAreDistinct | examples/typescript-express-codex/src/domain/users/userFixtures.ts:3-16 | no two fixture users share an id |
| ListUsersUseCase.Execute | examples/typescript-express-codex/src/application/users/ListUsersUseCase.ts:15-18 | same length as the repository's list; element i validates back to element i of the list; an empty repository gives an empty result |
| ListUsersUseCase.ExecuteOverFixtures | examples/typescript-express-codex/src/application/users/ListUsersUseCase.ts:15-18 | over the fixture-backed repository the result is `asJson()`, the two demo props in order |
| GetUserByIdUseCase.Execute | examples/typescript-express-codex/src/application/users/GetUserByIdUseCase.ts:17-29 | fails with the missing-findById error exactly when the port lacks `findById`; fails with UserNotFoundError for that id exactly when the lookup of the given id is absent; succeeds exactly when the lookup is present, with the projection of the found user |
| GetUserByIdUseCase.GetUserError.Message | examples/typescript-express-codex/src/application/users/GetUserByIdUseCase.ts:4-20 | no ensures of its own: "UsersRepository missing findById implementation" and "User with id <id> was not found"; NotFoundMessageNamesId states the second |
| GetUserByIdUseCase.NotFoundMessageNamesId | examples/typescript-express-codex/src/application/users/GetUserByIdUseCase.ts:4-26 | the not-found message is "User with id <id> was not found" |
| CheckHealthUseCase.Execute | examples/typescript-express-codex/src/application/health/CheckHealthUseCase.ts:11-19 | succeeds exactly when the gateway's address is non-empty, with status 200, that address and "Service is healthy"; otherwise fails with "serverIp is required" |
| CheckHealthUseCase.HealthyOverOsGateway | examples/typescript-express-codex/src/infrastructure/system/OsSystemInfoGateway.ts:5-21 | with the OS gateway's address the health check always succeeds with status 200 |
| OsSystemInfoGateway.Qualifies | examples/typescript-express-codex/src/infrastructure/system/OsSystemInfoGateway.ts:14 | no ensures of its own: family "IPv4", not internal, non-empty address; SkipsInternalAndIpv6 and FoundIsFirstQualifying state its use |
| OsSystemInfoGateway.ServerIp | examples/typescript-express-codex/src/infrastructure/system/OsSystemInfoGateway.ts:5-21 | no ensures of its own: the first qualifying address or the loopback fallback; FoundIsFirstQualifying, NoneFoundIffNoneQualifies and ServerIpIsTotal describe it independently, and GetServerIp is proved equal to it |
| OsSystemInfoGateway.GetServerIp | examples/typescript-express-codex/src/infrastructure/system/OsSystemInfoGateway.ts:5-21 | the loop returns exactly `ServerIp(table)`: the first qualifying address, or the loopback fallback |
| OsSystemInfoGateway.FirstInListIsFirstQualifying | examples/typescript-express-codex/src/infrastructure/system/OsSystemInfoGateway.ts:13-17 | within one interface, nothing is found if and only if no entry qualifies; otherwise the address found is that of a qualifying entry with no qualifying entry before it |
| OsSystemInfoGateway.NoneFoundIffNoneQualifies | examples/typescript-express-codex/src/infrastructure/system/OsSystemInfoGateway.ts:8-20 | the scan finds nothing if and only if no entry of any interface is IPv4, external and non-empty |
| OsSystemInfoGateway.FoundIsFirstQualifying | examples/typescript-express-codex/src/infrastructure/system/OsSystemInfoGateway.ts:8-17 | a found address belongs to a qualifying entry, and no qualifying entry precedes it in interface-then-entry order |
| OsSystemInfoGateway.ServerIpIsTotal | examples/typescript-express-codex/src/infrastructure/system/OsSystemInfoGateway.ts:5-21 | the result is never empty, and is "127.0.0.1" or the address of a qualifying entry of the input |
| OsSystemInfoGateway.LoopbackWhenNothingQualifies | examples/typescript-express-codex/src/infrastructure/system/OsSystemInfoGateway.ts:20 | with no qualifying entry (including an empty table) the result is "127.0.0.1" |
| OsSystemInfoGateway.SkipsInternalAndIpv6 | examples/typescript-express-codex/src/infrastructure/system/OsSystemInfoGateway.ts:14 | {lo 127.0.0.1 internal, eth0 [fe80::1 IPv6, 172.16.0.10]} gives 172.16.0.10 |
| OsSystemInfoGateway.SkipsUndefinedLists | examples/typescript-express-codex/src/infrastructure/system/OsSystemInfoGateway.ts:9-11 | an interface with an undefined entry list is skipped; the table with only that interface, and the empty table, give "127.0.0.1" |
| Controllers.HealthController.Handle | examples/typescript-express-codex/src/presentation/controllers/HealthController.ts:7-12 | on success the status is the payload's httpStatus and the body is the payload's `toJSON`; on failure the error is passed on and the response is unchanged |
| Controllers.UsersController.Handle | examples/typescript-express-codex/src/presentation/controllers/UsersController.ts:7-10 | on success the status is 200 and the body is `{users}` holding the use-case result unchanged; on failure the error is passed on and the response is unchanged |
| HealthEndpoint.GetHealth | examples/typescript-express-codex/src/di/container.ts:9-15 | a health request over the OS gateway, the health check and the controller answers 200 with status 200, "Service is healthy" and a non-empty address, the gateway's, and throws nothing |
| ClaudeGetUserById.FindById | examples/typescript-express-claude/src/application/GetUserById.ts:15-16 | the result is a table entry with the queried id, and no earlier entry has it; None exactly when no entry has that id |
| ClaudeGetUserById.Execute | examples/typescript-express-claude/src/application/GetUserById.ts:10-17 | an empty id gives null; a non-null result is a table entry whose id equals the query; null for a non-empty id means no entry has it |
| ClaudeGetUserById.KnownAndUnknownIds | examples/typescript-express-claude/src/application/GetUserById.ts:4-17 | "1" gives Alice Johnson, alice@example.com; "999" and "" give null |
| ClaudeUsersController.UsersController.GetUsers | examples/typescript-express-claude/src/presentation/UsersController.ts:11-14 | responds 200 with the list port's result unchanged |
| ClaudeUsersController.UsersController.GetUserById | examples/typescript-express-claude/src/presentation/UsersController.ts:16-26 | no lookup port, or a null lookup of the raw id, gives 404 with `{error: 'User not found'}`; a found user gives 200 with that user as the body |
| ClaudeUsersController.LookupThroughController | examples/typescript-express-claude/src/presentation/UsersController.ts:16-26 | with the table lookup injected, id "1" is answered 200 with Alice and id "999" with 404 |
| GeminiGetUserById.Execute | examples/typescript-express-gemini/src/application/users/GetUserByIdUseCase.ts:4-13 | a present result is a table entry whose id equals the input; undefined exactly when no entry has that id |
| GeminiGetUserById.KnownAndUnknownIds | examples/typescript-express-gemini/src/application/users/GetUserByIdUseCase.ts:5-12 | id 1 gives John Doe; id 999 gives undefined |

## Left out

- Asynchrony: every Promise and `await` is left out. The use cases and controllers are synchronous functions and methods.
- Call counts: the model cannot observe how often a port is called, and calls are not recorded. `ListUsersUseCase.Execute` and `CheckHealthUseCase.Execute` do not call their ports at all: the repository's `list()` and the gateway's `getServerIp()` are replaced by their results (`repo.list`, `serverIp`). `GetUserByIdUseCase.Execute` and the controllers apply their function-valued ports exactly once.
- `os.networkInterfaces()` is not modelled. Its result is the input `InterfaceTable`. The table's order stands for the enumeration order of `Object.values`.
- `findById` of the in-memory repository and of `userFixtures` appears in tests but in no source file. It is not part of this model. The repository port carries `findById` as an optional function.
- The codex `/api/users/:id` route and its 404 body are not part of this model. No codex source has that handler.
- Port rejections: a rejected `list()` (ListUsersUseCase.ts:16), a rejected `findById` (GetUserByIdUseCase.ts:22) and a rejected `getServerIp()` (CheckHealthUseCase.ts:12) are not modelled. The source passes each on to its caller. In the model `repo.list` and `serverIp` are values and `findById` is a total `string -> Option<User>`. The codex controllers' ports can fail, so the controllers' propagation of a failure is modelled.
- JavaScript numbers: `httpStatus` and the gemini ids are integers. NaN and fractional values are outside the model. In the source, NaN passes the status range check, and the gemini `typeof` guard cannot fail on an integer.
- Untyped inputs: the props are typed strings. `undefined` or `null` fields, which `!value` would also reject, are not modelled.
- Object identity: `list()` in the source returns fresh copies. The model's values have no identity, so the copies equal the originals.
- Transport and wiring: Express routing, `next(error)` forwarding, server start-up and the composition roots are left out. The health wiring is the one exception, which `HealthEndpoint.GetHealth` models.
- The claude `GetUsers` use case is not part of this model. Its result is the controller's list port.
- The clock-based health use cases of the claude and gemini examples, and the constant user lists, are left out.
