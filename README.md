# Auth domain model

A Dafny model of the authentication domain of the Helheim API
(`src/modules/auth`), with the shared domain-error taxonomy and the exception
filter that maps those errors to HTTP statuses.

- **Errors** (`errors.dfy`): `DomainError` and its three subclasses become one
  tagged value (class + message); `instanceof` and `name` are functions of the tag.
- **User records** (`user_entity.dfy`): `UserRole`, `AuthUser` and
  `AuthUserWithPassword`; `ToAuthUser` strips the password.
- **Ports** (`ports.dfy`): the hasher (`hash`, `compare`) and the token service
  (`sign`, `verify`) are arbitrary functions passed in as values. Two predicates state
  what the adapters promise: `HashAgreement` says a password matches its own hash.
  `TokenRoundTrip` says a signed token is non-empty and verifies to its payload. Only
  the lemmas that need these assume them.
- **User store** (`user_repository.dfy`): a table from id to row, where each row
  carries a soft-delete marker. `FindByEmail` and `FindById` are pure lookups
  that skip deleted rows; `FindByEmail` lower-cases the query. The `UserStore`
  class holds the table and performs the two writes, `Create` and `UpdateProfile`.
  The table invariant says rows are keyed by their id, emails are stored lower-case
  and no two live rows share an email.
- **Use cases**: register and update-profile are methods that change the store.
  Login and get-profile are functions that only read the table. Each returns a
  result or a domain error.
- **Guard** (`jwt_auth_guard.dfy`): extracts the bearer token, runs the three-way
  decision (no credential / rejected / verified) and attaches the principal to the
  request.
- **Filter and controller** (`domain_exception_filter.dfy`, `auth_controller.dfy`,
  `http.dfy`): the error-to-status mapping and the routes' error translation.
- **Request validation** (`validation.dfy`, `*_dto.dfy`): the declared field
  constraints of the three request bodies.

Values the database chooses are parameters: the fresh id, the default balance
and the timestamps (`Assigned`, `now`). The email grammar of the validator is
also a parameter (`emailFormat`).

## Model

| member | source | states |
|---|---|---|
| DomainErrors.NewDomainError | src/shared/domain/errors/index.ts:4-10 | keeps the message verbatim, `name` is 'DomainError', and it is an instance of DomainError only |
| DomainErrors.NewConflictError | src/shared/domain/errors/index.ts:12-18 | keeps the message verbatim, `name` is 'ConflictError', instance of exactly ConflictError and DomainError |
| DomainErrors.NewNotFoundError | src/shared/domain/errors/index.ts:20-26 | keeps the message verbatim, `name` is 'NotFoundError', instance of exactly NotFoundError and DomainError |
| DomainErrors.NewUnauthorizedError | src/shared/domain/errors/index.ts:28-34 | keeps the message verbatim, `name` is 'UnauthorizedError', instance of exactly UnauthorizedError and DomainError |
| DomainErrors.ExactlyOneSubclass | src/shared/domain/errors/index.ts:8-32 | every subclass error is a DomainError and an instance of exactly one of the three subclasses |
| DomainErrors.NameIdentifiesClass | src/shared/domain/errors/index.ts:7-31 | two errors have the same `name` exactly when they have the same class |
| Text.LowerChar | src/modules/auth/infrastructure/persistence/prisma-user.repository.ts:17 | the result is never an upper-case letter; A-Z map to a-z and everything else is kept |
| Text.Lower | src/modules/auth/infrastructure/persistence/prisma-user.repository.ts:17 | same length, lower-cased character by character, and the result is lower-case |
| Text.LowerOfLowerCase | src/modules/auth/infrastructure/persistence/prisma-user.repository.ts:32 | lower-casing an already lower-case string (a stored email) changes nothing |
| Text.LowerIdempotent | src/modules/auth/infrastructure/persistence/prisma-user.repository.ts:17 | lower-casing twice equals lower-casing once, so normalising a stored email again is harmless |
| UserEntity.ToAuthUser | src/modules/auth/application/use-cases/get-profile.use-case.ts:24-36 | the profile keeps all eight non-password fields: the record is recovered from the profile plus the password |
| UserEntity.ProfileIgnoresPassword | src/modules/auth/application/use-cases/get-profile.use-case.ts:24-36 | two records give the same profile exactly when they differ at most in the password, so no profile depends on the hash |
| UserRepository.ToDomain | src/modules/auth/infrastructure/persistence/prisma-user.repository.ts:56-78 | copies all nine fields unchanged: the row is rebuilt from the record and its deletion marker |
| UserRepository.FindByEmail | src/modules/auth/infrastructure/persistence/prisma-user.repository.ts:15-20 | finds a user exactly when a live row holds the lower-cased email, and returns that row's record |
| UserRepository.FindById | src/modules/auth/infrastructure/persistence/prisma-user.repository.ts:22-27 | finds a user exactly when the id's row exists and is live, and returns that row's record |
| UserRepository.FindByEmailIgnoresCase | src/modules/auth/infrastructure/persistence/prisma-user.repository.ts:17 | emails that agree after lower-casing find the same user |
| UserRepository.StoredEmailFindsOwnRow | src/modules/auth/infrastructure/persistence/prisma-user.repository.ts:15-20 | looking up a live user's stored email finds that very user, because stored emails are already lower-case |
| UserRepository.LowerQueryFindsSame | src/modules/auth/infrastructure/persistence/prisma-user.repository.ts:17 | a query that is already lower-cased finds the same user as the raw query |
| UserRepository.DeletedRowsInvisible | src/modules/auth/infrastructure/persistence/prisma-user.repository.ts:17-24 | a soft-deleted row is returned by neither finder |
| UserRepository.NewRow | src/modules/auth/infrastructure/persistence/prisma-user.repository.ts:30-38 | the inserted row has the lower-cased email, the hash as password, the given names, role USER, and is live |
| UserRepository.InsertKeepsInvariant | src/modules/auth/infrastructure/persistence/prisma-user.repository.ts:29-40 | inserting under a fresh id and an unused email keeps the table invariant, and any case variant of the email then finds the new user |
| UserRepository.ApplyProfileUpdate | src/modules/auth/infrastructure/persistence/prisma-user.repository.ts:46-52 | a present name replaces the stored one, an absent one is kept, and no other field except `updatedAt` changes |
| UserRepository.ProfileUpdateIdempotent | src/modules/auth/infrastructure/persistence/prisma-user.repository.ts:46-52 | applying the same partial update twice equals applying it once |
| UserRepository.UpdateKeepsInvariant | src/modules/auth/infrastructure/persistence/prisma-user.repository.ts:46-52 | a profile update keeps the table invariant (id, email and deletion marker untouched) |
| UserRepository.UserStore.constructor | src/modules/auth/infrastructure/persistence/prisma-user.repository.ts:13 | the store starts from the rows the database holds |
| UserRepository.UserStore.Create | src/modules/auth/infrastructure/persistence/prisma-user.repository.ts:29-40 | adds exactly one row under the fresh id, leaves every other row alone, returns the new record |
| UserRepository.UserStore.UpdateProfile | src/modules/auth/infrastructure/persistence/prisma-user.repository.ts:42-54 | selects by id alone (deleted or not), changes only that row as ApplyProfileUpdate says, returns it |
| RegisterUserUseCase.CreateInputOf | src/modules/auth/application/use-cases/register-user.use-case.ts:34-40 | `create` receives the input email, `hash(password)` and the names unchanged |
| RegisterUserUseCase.Execute | src/modules/auth/application/use-cases/register-user.use-case.ts:31-56 | conflict ('Email já cadastrado') exactly when a live user has the lower-cased email, with the store unchanged; otherwise one new row, the profile without password and `sign({sub: id, email: stored email})` |
| RegisterUserUseCase.SecondRegistrationConflicts | src/modules/auth/application/use-cases/register-user.use-case.ts:32-33 | after a registration, registering any case variant of the same email again is a conflict |
| LoginUseCase.Execute | src/modules/auth/application/use-cases/login.use-case.ts:29-53 | succeeds exactly when a live user has the email and `compare(supplied, stored hash)` holds; every failure is UnauthorizedError('Credenciais inválidas'); success gives the profile and `sign({sub, email})` |
| LoginUseCase.FailuresIndistinguishable | src/modules/auth/application/use-cases/login.use-case.ts:30-37 | an unknown email and a wrong password give identical results |
| LoginUseCase.LoginAfterRegistration | src/modules/auth/application/use-cases/login.use-case.ts:29-53 | after inserting a user, logging in with its password and any case variant of its email succeeds with the new user's token |
| GetProfileUseCase.Execute | src/modules/auth/application/use-cases/get-profile.use-case.ts:16-22 | NotFoundError('Usuário não encontrado') exactly when the id is missing or soft-deleted; otherwise the stored record without password |
| GetProfileUseCase.DeletedUserNotFound | src/modules/auth/application/use-cases/get-profile.use-case.ts:17-20 | a soft-deleted user gives NotFoundError |
| GetProfileUseCase.ProfileHasRequestedId | src/modules/auth/application/use-cases/get-profile.use-case.ts:16-22 | the profile returned is the one under the requested id |
| UpdateProfileUseCase.Execute | src/modules/auth/application/use-cases/update-profile.use-case.ts:16-27 | a missing or soft-deleted id gives NotFoundError with the store unchanged; otherwise only that row is updated with the given partial input and its profile returned |
| UpdateProfileUseCase.ProfileAfterUpdate | src/modules/auth/application/use-cases/update-profile.use-case.ts:24-26 | reading the profile after an update shows the supplied names, the old names where none was supplied, and every other field but `updatedAt` as before |
| JwtAuthGuard.BearerToken | src/modules/auth/presentation/guards/jwt-auth.guard.ts:16-19 | a token exists exactly when the header starts with "Bearer ", and the header is "Bearer " followed by the token |
| JwtAuthGuard.BearerTokenRoundTrip | src/modules/auth/presentation/guards/jwt-auth.guard.ts:17-18 | "Bearer " + token extracts back to token |
| JwtAuthGuard.Authorize | src/modules/auth/presentation/guards/jwt-auth.guard.ts:16-38 | no credential exactly when the token is absent or empty; otherwise rejected exactly when verify fails, and verified with `{userId: sub, email}` when it succeeds |
| JwtAuthGuard.SignedTokenVerifies | src/modules/auth/presentation/guards/jwt-auth.guard.ts:25-35 | a signed token sent as a bearer header is verified to its own claims |
| JwtAuthGuard.OtherSchemeHasNoCredential | src/modules/auth/presentation/guards/jwt-auth.guard.ts:17-23 | a header that does not start with exactly "Bearer " carries no credential |
| JwtAuthGuard.Request.constructor | src/modules/auth/presentation/guards/jwt-auth.guard.ts:15-16 | a request arrives with its Authorization header and no user attached |
| JwtAuthGuard.CanActivate | src/modules/auth/presentation/guards/jwt-auth.guard.ts:14-39 | never returns false; throws 401 'Token não informado' or 'Token inválido ou expirado' leaving `user` untouched, or sets `user` to the verified principal and returns true |
| DomainExceptionFilter.Catch | src/shared/infrastructure/filters/domain-exception.filter.ts:19-36 | 409 exactly for ConflictError, 401 exactly for UnauthorizedError, 404 otherwise; the body repeats the status and the message verbatim |
| DomainExceptionFilter.CatchIsLossless | src/shared/infrastructure/filters/domain-exception.filter.ts:25-35 | for a caught error the response's status and message give back the error itself |
| DomainExceptionFilter.BaseNotCaught | src/shared/infrastructure/filters/domain-exception.filter.ts:15 | only the three subclasses are caught, not a plain DomainError |
| AuthController.TranslateRegisterError | src/modules/auth/presentation/controllers/auth.controller.ts:79-84 | a ConflictError becomes a 409 exception with the same message; any other error is rethrown unchanged |
| AuthController.TranslateLoginError | src/modules/auth/presentation/controllers/auth.controller.ts:114-119 | an UnauthorizedError becomes a 401 exception with the same message; any other error is rethrown unchanged |
| AuthController.Respond | src/main.ts:14 | with the filter installed globally, HTTP exceptions keep status and message, caught domain errors go through the filter, anything else is a generic 500 |
| AuthController.TranslationsAgreeWithFilter | src/modules/auth/presentation/controllers/auth.controller.ts:79-119 | the routes' own translations give the same status and message the global filter would (the `error` label of the exception body is outside the model) |
| AuthController.Register | src/modules/auth/presentation/controllers/auth.controller.ts:71-85 | the four fields reach the store unchanged (password hashed) and the route returns the use case's `{user, token}`: the new row's profile and the token signed for its id and lower-cased email; a taken email ends in 409 'Email já cadastrado' with nothing written |
| AuthController.LoginRoute | src/modules/auth/presentation/controllers/auth.controller.ts:108-120 | forwards email and password; succeeds exactly when the use case does; every failure is 401 'Credenciais inválidas' |
| AuthController.Me | src/modules/auth/presentation/controllers/auth.controller.ts:139-141 | returns the stored profile (every field but the password) of the row under the principal's userId, or a 404 response exactly when that user is missing or deleted |
| AuthController.PartialOf | src/modules/auth/presentation/controllers/auth.controller.ts:170-173 | a name is passed exactly when it is neither null nor absent, and then as given |
| AuthController.UpdateMe | src/modules/auth/presentation/controllers/auth.controller.ts:166-174 | updates only the principal's own row with the supplied names and returns that updated row's profile, or ends in 404 with nothing written |
| AuthController.RegisteredTokenOpensProfile | src/modules/auth/presentation/controllers/auth.controller.ts:122-141 | the token a registration returns authenticates the new user, and `me` then returns that user's profile |
| RegisterDto.Violations | src/modules/auth/presentation/dto/register.dto.ts:4-23 | no violation exactly when the email is well-formed, the password has at least 6 characters and both names at most 100, all present as strings |
| RegisterDto.Validate | src/modules/auth/presentation/dto/register.dto.ts:4-23 | accepts exactly the bodies meeting every constraint and returns their four strings; a rejection lists at least one violation |
| RegisterDto.AllFieldsRequired | src/modules/auth/presentation/dto/register.dto.ts:5-22 | leaving out any of the four fields is rejected; a missing password fails `IsString` |
| LoginDto.Violations | src/modules/auth/presentation/dto/login.dto.ts:4-13 | no violation exactly when the email is well-formed and the password is a non-empty string |
| LoginDto.Validate | src/modules/auth/presentation/dto/login.dto.ts:4-13 | accepts exactly those bodies and returns their two strings; a rejection lists at least one violation |
| LoginDto.EmptyPasswordMessage | src/modules/auth/presentation/dto/login.dto.ts:11 | an empty password is rejected by the minimum-length rule with the message 'Senha é obrigatória' |
| UpdateProfileDto.Violations | src/modules/auth/presentation/dto/update-profile.dto.ts:4-16 | no violation exactly when each name is absent, null, or a string of at most 100 characters |
| UpdateProfileDto.EmptyBodyValid | src/modules/auth/presentation/dto/update-profile.dto.ts:4-16 | an empty body is valid |

## Left out

- Text.Lower: maps only the ASCII letters A-Z. JavaScript's `toLowerCase` also lower-cases non-ASCII letters, and that is not modelled.
- String lengths in the validators count Unicode scalar values. The validator's length check also counts a surrogate pair as one character, but it does not count the variation selectors U+FE0E and U+FE0F. So a 100-letter name followed by U+FE0F passes `MaxLength(100)` in the program and fails in the model.
- The email grammar of `IsEmail` is not modelled. It is the parameter `emailFormat`.
- Hashing and token internals are not modelled: bcrypt, the signing secret, the 7-day expiry (`exp`, section 4.1.4 of RFC 7519) and signature checking. `verify` returning `None` stands for every way verification can throw.
- The guard calls the JWT library directly rather than the token port. Both are the same abstract `verify` here.
- Values the database assigns are parameters, not computed: the id, the default `coinsBalance`, `createdAt` and `updatedAt`. The schema is not part of this model.
- UserRepository.ApplyProfileUpdate: sets `updatedAt` to `now`, an opaque value the caller supplies. When the update carries no name (an empty body is valid), the database leaves `updatedAt` unchanged. That case corresponds to `now` being the old `updatedAt`, and the model does not force this.
- UserRepository.UserStore.Create: requires a fresh id and no live row with the email. The database enforces both and throws otherwise; the throw is not modelled. Whether the unique index also covers soft-deleted rows is not known, so only live rows are constrained.
- UserRepository.UserStore.UpdateProfile: requires the id to be present. The database throws for a missing id, and that throw is not modelled.
- UserRepository.FindByEmail: requires at most one live row per email (the unique index). Without the index, `findFirst` would pick one of several rows in an order the model does not know.
- Asynchronous execution is not modelled. Everything runs sequentially, so the race between register's email check and its insert is out of scope.
- The filter's log line and the `res.status().json()` write are not modelled. The response is returned as a value instead.
- AuthController.TranslationsAgreeWithFilter: equates status and message only. The framework adds an `error` label ('Conflict', 'Unauthorized') to an HTTP exception's body, the filter's own body has no such label, and the label is not modelled.
- The validation pipe's `whitelist` / `forbidNonWhitelisted` options reject unknown properties, and that is not modelled. Bodies carry only the declared fields.
- Cookie-based token delivery is not modelled because the guard in this code reads only the Authorization header. The same goes for the legacy minimal app under `src/core` and `src/app`.
- Bootstrap, dependency-injection wiring, the Swagger/Scalar documentation, the health check and the documentation-only response DTOs carry no behaviour of the auth domain and are not modelled.
