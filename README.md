# auth-api: a Dafny model of the authentication core

This project models the decision procedures of a NestJS authentication API:

- the role guard that admits or rejects a request;
- the authentication service (sign-up, login, status check, token issue and the mapping of store errors to HTTP exceptions);
- the `users` entity with its column defaults and the e-mail normalisation run before every insert and update;
- the password and name constraints of the three request bodies;
- the `GetUser` projection;
- the Google profile mapping;
- the factory that builds the JWT options from configuration.

Files, one module each:

| file | module | models |
|---|---|---|
| `common.dfy` | `Common` | Option/Result, the HTTP exceptions, the provider enum, token claims, JavaScript values |
| `user_entity.dfy` | `UserEntity` | `User` entity (a class whose listeners update it in place), `toLowerCase().trim()` |
| `password_rule.dfy` | `PasswordRule` | the length and pattern constraints the three bodies share |
| `create_user_dto.dfy` | `CreateUser` | sign-up body: conditional password, names, provider enum |
| `login_user_dto.dfy` | `LoginUser` | login body |
| `update_password_dto.dfy` | `UpdatePassword` | password-change body |
| `user_role_guard.dfy` | `UserRoleGuard` | `canActivate` |
| `auth_service.dfy` | `Auth` | `AuthService` over an e-mail-keyed map of rows |
| `get_user_decorator.dfy` | `GetUser` | the `GetUser` decorator body |
| `google_strategy.dfy` | `GoogleStrategy` | `validate` |
| `auth_module.dfy` | `AuthModule` | the JWT options `useFactory` |

Abstractions:

- The store is the field `users: map<string, UserRow>`, keyed by the stored e-mail, plus the next value of the id sequence. The unique index on `email` becomes "the key is already present". Rows are built exactly as PostgreSQL would report them, including its `unique_violation` (SQLSTATE 23505) with the detail text `Key (email)=(…) already exists.`.
- Any other store failure is a parameter `fault` of the operation.
- bcrypt is a `Hasher` of two total functions. The only assumption made about it is `Sound`: a password matches its own digest. The salt from `genSalt` is a parameter.
- A signed token is the value `Token(JwtPayload(id))`: the payload the service signs, which holds only the id. The `iat` and `exp` claims that signing adds from the clock are not modelled (see `Auth.GetJwt` under "## Left out").
- A JavaScript user object is a map from property name to value (`UserEntity.UserObject`). That makes "every property but the password" statable.
- The roles a route requires are passed to the guard as a parameter (`None` when the route declares none). They are stored verbatim by `RoleProtected` (src/auth/decorators/role-protected.decorator.ts:6-7).

Behaviour worth noting, which the model keeps as the code has it:

- `login` looks the e-mail up exactly as given. It does no lower-casing or trimming, so an address typed with capitals never logs in (`Auth.MixedCaseLoginFails`).
- `checkAuthStatus` returns the user with its `password` property, although the entity's API documentation marks the password `writeOnly` (src/auth/entities/user.entity.ts:34). `create` and `login` strip it (`Auth.StatusExtendsSession`).
- A user who is inactive or lacks a required role gets a BadRequest, not a Forbidden error.
- `@IsEnum(Providers, { always: true })` rejects a body with no provider. So the falsy arm of the password's `@ValidateIf` never admits a body (`CreateUser.AdmittedBody`), and the provider never actually defaults to EMAIL through sign-up.
- `create` hashes the password whatever the provider. A sign-up without a password fails with the generic internal error.
- `login` on an account whose stored password is null (a federated account) makes bcrypt throw. That error is no BadRequest, so it becomes the generic internal error, not "Credentials are not valid".

## Model

| member | source | states |
|---|---|---|
| `UserEntity.ToLower` | src/auth/entities/user.entity.ts:89 | same length; each character lower-cased position by position |
| `UserEntity.TrimStart` | src/auth/entities/user.entity.ts:89 | the result is a suffix that begins with a non-whitespace character, and everything dropped is whitespace |
| `UserEntity.TrimEnd` | src/auth/entities/user.entity.ts:89 | the result is a prefix that ends with a non-whitespace character, and everything dropped is whitespace |
| `UserEntity.NormalizeEmail` | src/auth/entities/user.entity.ts:87-90 | the stored e-mail has no upper-case letter and no whitespace at either end, and is no longer than the input |
| `UserEntity.NormalFixpoint` | src/auth/entities/user.entity.ts:89 | a string is left unchanged by normalisation exactly when it has no upper-case letter and no outer whitespace |
| `UserEntity.NormalizeIdempotent` | src/auth/entities/user.entity.ts:89 | normalising twice equals normalising once |
| `UserEntity.NormalizeIgnoresCase` | src/auth/entities/user.entity.ts:89 | addresses differing only in letter case normalise alike, so they collide on the unique column |
| `UserEntity.NormalizeIgnoresOuterSpace` | src/auth/entities/user.entity.ts:89 | leading and trailing whitespace does not change the normal form, so such addresses collide too |
| `UserEntity.UserObject` | src/auth/entities/user.entity.ts:13-85 | a user object has exactly the eight column properties, each holding its column's value |
| `UserEntity.User.constructor` | src/auth/entities/user.entity.ts:60-85 | a new record is active, holds the single role 'user', and has provider EMAIL unless one is given |
| `UserEntity.User.VerifyEmail` | src/auth/entities/user.entity.ts:87-90 | the e-mail becomes its normal form; no other field changes |
| `UserEntity.User.VerifyEmailOnUpdate` | src/auth/entities/user.entity.ts:92-95 | the same normalisation before an update; no other field changes |
| `PasswordRule.ClassesIn` | src/auth/dto/create-user.dto.ts:38 | a character class is reported exactly when some character of the password belongs to it |
| `PasswordRule.CheckPattern` | src/auth/dto/create-user.dto.ts:38 | the executable test agrees with the anchored regular expression: four look-aheads that do not cross a line terminator, and `.{8,}` spanning the whole input |
| `PasswordRule.PatternByClasses` | src/auth/dto/create-user.dto.ts:38 | the pattern matches iff the password has at least 8 characters, no line terminator, and all four character classes |
| `PasswordRule.PasswordValid` | src/auth/dto/create-user.dto.ts:35-38 | the password passes `@IsString @MinLength(8) @MaxLength(30) @Matches` exactly when it is present, 8 to 30 characters long, and matched by the regular expression as anchored matching defines it |
| `PasswordRule.PasswordValidMeans` | src/auth/dto/create-user.dto.ts:35-38 | the rule means: present, 8 to 30 characters, no line terminator, and an upper-case letter, a lower-case letter, a digit and one of `#?!@$%^&*-` |
| `PasswordRule.ExampleAccepted` | src/auth/dto/create-user.dto.ts:25-38 | the documented example 'StrongP@ss123' passes |
| `CreateUser.Violations` | src/auth/dto/create-user.dto.ts:31-65 | the password fails only when the provider is EMAIL or falsy and the rule fails; each name fails below 2 characters; the provider fails unless it is a member, always |
| `CreateUser.AdmittedBody` | src/auth/dto/create-user.dto.ts:31-65 | an admitted body names a provider, has valid names, and has a valid password when the provider is EMAIL |
| `CreateUser.OtherProviderSkipsPassword` | src/auth/dto/create-user.dto.ts:31-34 | a GOOGLE sign-up with valid names is admitted with any password or none |
| `CreateUser.ExampleSignupAccepted` | src/auth/dto/create-user.dto.ts:23-60 | the documented example sign-up passes |
| `CreateUser.CreateUserDto.constructor` | src/auth/dto/create-user.dto.ts:13-66 | the body holds the given properties |
| `LoginUser.Admitted` | src/auth/dto/login-user.dto.ts:28-35 | a login body passes exactly when its password is present, 8 to 30 characters long, and matched by the regular expression |
| `LoginUser.LoginMatchesEmailSignup` | src/auth/dto/login-user.dto.ts:28-34 | the login password rule, applied unconditionally, admits exactly what an EMAIL sign-up admits |
| `UpdatePassword.Admitted` | src/auth/dto/update-password.dto.ts:13-20 | a password-change body passes exactly when its password is present, 8 to 30 characters long, and matched by the regular expression |
| `UpdatePassword.UpdateMatchesLogin` | src/auth/dto/update-password.dto.ts:13-19 | the new-password rule is exactly the login rule |
| `UpdatePassword.AbsentPasswordRejected` | src/auth/dto/update-password.dto.ts:13-20 | a missing new password is rejected, since nothing marks it optional |
| `UpdatePassword.ExampleUpdateAccepted` | src/auth/dto/update-password.dto.ts:7-16 | the documented example passes |
| `UserRoleGuard.Admits` | src/auth/guards/user-role.guard.ts:27-37 | the admission rule, stated on sets (the required and held roles intersect), equals the position-by-position rule: an active user, and no required role or some required role at an index the user holds |
| `UserRoleGuard.Join` | src/auth/guards/user-role.guard.ts:41 | `join`: empty for no parts; otherwise it starts with the first part, ends with the last, and is as long as all parts plus one separator between each two |
| `UserRoleGuard.JoinSnoc` | src/auth/guards/user-role.guard.ts:41 | `join` is left to right: one part joins to itself, and appending a part appends the separator and then that part, which with the empty case fixes the joined text of every list |
| `UserRoleGuard.NoValidRoleMessage` | src/auth/guards/user-role.guard.ts:40-42 | the role-mismatch text starts by naming the user (first and last name, quoted) and ends with the required roles joined by ", " in brackets |
| `UserRoleGuard.CanActivate` | src/auth/guards/user-role.guard.ts:16-45 | never returns false; admits exactly an active user who holds one of the required roles (any one) or faces no requirement; a missing or inactive user gets BadRequest('Invalid user') before any role check; a role mismatch gets a BadRequest naming the user and the roles joined by ", " |
| `UserRoleGuard.AdmitsIgnoresOrder` | src/auth/guards/user-role.guard.ts:32-37 | the decision depends neither on the order of the required roles nor on repeats |
| `UserRoleGuard.NoRolesRejected` | src/auth/guards/user-role.guard.ts:32-42 | an active user with no roles is rejected whenever roles are required |
| `UserRoleGuard.ExtraUserRolesStillAdmit` | src/auth/guards/user-role.guard.ts:32-37 | granting a user more roles never turns them away from a route that admitted them |
| `UserRoleGuard.MoreRolesStillAdmit` | src/auth/guards/user-role.guard.ts:32-37 | adding required roles never rejects an admitted user (OR, not AND) |
| `Auth.DuplicateEmail` | src/auth/auth.service.ts:89-93 | the error PostgreSQL raises for a repeated e-mail is a unique violation, so `handleDBErrors` passes its detail to the client as a BadRequest, and the detail quotes the e-mail |
| `Auth.HandleDbErrors` | src/auth/auth.service.ts:89-100 | a unique violation becomes BadRequest carrying the store's detail text; anything else becomes InternalServerError('Unexpected error, check server logs') |
| `Auth.GetJwt` | src/auth/auth.service.ts:83-87 | the token's claims are exactly the payload given |
| `Auth.SessionResponse` | src/auth/auth.service.ts:35-40 | every user property except `password`, plus a token whose only claim is the user's id |
| `Auth.CheckAuthStatus` | src/auth/auth.service.ts:76-81 | every user property, `password` included, plus a token for the same id |
| `Auth.StatusExtendsSession` | src/auth/auth.service.ts:76-81 | the status body is the login body plus the password property |
| `Auth.StoreInsert` | src/auth/entities/user.entity.ts:19-29 | inserting a row under a fresh, normal e-mail with the next id keeps e-mails normal and unique and ids distinct |
| `Auth.AuthService.constructor` | src/auth/auth.service.ts:17-21 | the service works over the existing `users` table and id sequence, which must satisfy the store invariant |
| `Auth.AuthService.Create` | src/auth/auth.service.ts:23-44 | the body's password is overwritten in place by its digest; a missing password, a store fault, an unknown provider or a colliding normalised e-mail leave the store unchanged and map through `handleDBErrors`; otherwise the store gains exactly the new row (normal e-mail, digest, defaults, next id) and the result is its session body |
| `Auth.AuthService.Save` | src/auth/auth.service.ts:31-32 | the insert listener normalises the e-mail; the insert fails with the store fault, the enum error or the unique violation, or stores the row under the next id |
| `Auth.AuthService.Login` | src/auth/auth.service.ts:46-74 | an unknown e-mail and a wrong password give the same BadRequest('Credentials are not valid'); a missing password or a null stored digest gives the generic internal error; a store fault goes through `handleDBErrors`; success exactly when the stored digest matches, returning the session body of the stored row |
| `Auth.CredentialErrorsIdentical` | src/auth/auth.service.ts:52-58 | unknown e-mail and wrong password produce identical errors |
| `Auth.LoginAfterSignup` | src/auth/auth.service.ts:56-66 | a password stored as its digest logs in and yields the row's session body |
| `Auth.LoginRejectsUnnormalisedEmail` | src/auth/auth.service.ts:48-54 | an e-mail that is not in normal form never matches a stored row |
| `Auth.MixedCaseLoginFails` | src/auth/auth.service.ts:48-54 | 'Alice@Example.com' is always rejected, whatever a store written through the entity's listeners holds |
| `Auth.SignupThenLogin` | src/auth/auth.service.ts:23-66 | an EMAIL sign-up followed by a login with the stored e-mail and the same password succeeds; the row is stored under the normalised e-mail, and both bodies carry a token whose payload is that row's id |
| `GetUser.Property` | src/auth/decorators/get-user.decorator.ts:22-24 | a column name gives its value, an entity method name gives that method, anything else gives undefined |
| `GetUser.Extract` | src/auth/decorators/get-user.decorator.ts:12-32 | no user is InternalServerError('User not found in request') for any `data`; falsy or non-string, non-array `data` gives the whole user; a name gives one property; a list gives, in order, one property per name |
| `GetUser.ListAgreesWithSingleKeys` | src/auth/decorators/get-user.decorator.ts:20-28 | each list entry equals the single-name result, except the empty name, which alone gives the whole user and in a list gives undefined |
| `GetUser.EmptyListYieldsEmptyList` | src/auth/decorators/get-user.decorator.ts:26-28 | an empty list is truthy and yields an empty list |
| `GoogleStrategy.Validate` | src/auth/strategies/google.strategy.ts:20-33 | the first e-mail, the given name, and the access token unchanged |
| `GoogleStrategy.ValidateReadsOnlyThreeValues` | src/auth/strategies/google.strategy.ts:20-33 | the result depends on nothing else: not the refresh token, family or display name, verified flags, later e-mails or photos |
| `AuthModule.JwtOptionsFactory` | src/auth/auth.module.ts:21-35 | a missing secret is reported first, then a missing expiry; with both present the options echo them unchanged |
| `AuthModule.SecretReportedFirst` | src/auth/auth.module.ts:22-27 | with neither value configured, the secret error is raised |
| `AuthModule.EmptyValuesAccepted` | src/auth/auth.module.ts:22-27 | empty strings pass both checks |
| `AuthModule.OtherKeysIgnored` | src/auth/auth.module.ts:21-35 | configuration keys other than the two do not affect the result |

## Left out

- `@IsEmail` on the sign-up and login bodies: validator.js's address grammar is not modelled.
- `toLowerCase` is modelled for ASCII letters only. Other letters keep their case. `trim` is modelled with the full whitespace and line-terminator set of ECMA-262.
- Lengths are counted in characters (code points). validator.js's `isLength` also discounts U+FE0E and U+FE0F, and the regular expression counts UTF-16 code units. Neither detail is modelled.
- JWT signing, verification and expiry (RFC 7519) and `JwtStrategy`: `strategies/jwt.strategy` is not part of this model. The token is an opaque value of its claims.
- bcrypt's internals and work factor. The model assumes only that a password matches its own digest. The text of bcrypt's argument errors is not modelled, because it reaches only the log.
- TypeORM and PostgreSQL: replaced by the map store, the id counter and the `fault` parameter.
- Sequence values consumed by failed inserts are not modelled: the id counter advances only on success.
- `console.log` in `handleDBErrors` is I/O and is left out.
- `AuthController`: routing only. It calls `updatePassword` and `validateOAuthLogin`, but neither exists in `auth.service.ts`, so neither is modelled.
- The Google OAuth2 handshake (RFC 6749) and the strategy constructor's environment reads.
- `app.module.ts`, `auth.decorator.ts`, `get-raw-headers.decorator.ts` and `role-protected.decorator.ts`: framework wiring.
- The `RolesEnum`, `Providers` and `JwtPayload` files are not part of this model:
  - roles are strings, and the default role is 'user';
  - providers are the two values EMAIL and GOOGLE;
  - a provider outside the enum is represented only as "some other string".
- `Auth.AuthService.Create`: the sign-up body is taken to carry only its five declared properties, as a whitelisting validation pipe (not part of this model) would leave it. Otherwise `repository.create` would copy `id`, `isActive` or `roles` from the body over the column defaults, and an `id` would make `save` update that row instead of inserting under the next id.
- `Auth.GetJwt`: `jwtService.sign` also adds an `iat` claim from the clock and an `exp` claim from `expiresIn` (src/auth/auth.module.ts:31-33). The model drops both, so two tokens for one id are equal only in the model; in the program, tokens signed in different seconds differ.
- `CreateUser.Violations`: only string-valued names and passwords (or an absent password) are modelled. An absent or non-string `firstName`/`lastName`, a non-string password, and a non-string `provider` such as `null` (falsy for `@ValidateIf`, rejected by `@IsEnum`) cannot be expressed.
- `GetUser.Property`: names inherited from `Object.prototype` (`toString`, `constructor`, …) are treated as giving undefined, which is weaker than JavaScript's lookup. List entries that are not strings are not modelled.
- `GoogleStrategy.Validate` requires a non-empty `emails` list. With an empty list, JavaScript throws a TypeError, which is not modelled.
