# User backend decision logic, in Dafny

This project models the decision logic of a small Express/TypeORM user-account backend.
It covers the request pre-processing and response cache of `src/app.ts`, the handler
rules of `src/controllers/UserController.ts`, the lifecycle hooks of the `User` entity,
the passport strategies and authorization gate of `src/auth/index.ts`, the credential
lookups of `UserRepository`, and the `AppStandardError` constructor. It proves properties
of that model.

One module per source component, one file each:

- `base.dfy` (`Base`): `Option`, `Result` and string truthiness.
- `text.dfy` (`Text`): the JavaScript string operations the core relies on.
  - `trim` uses the full ECMAScript white-space set.
  - Also: substring tests, ASCII lower-casing, decimal rendering of integers, `indexOf`.
- `constants.dfy` (`Constants`): `ADMIN`, `SUPER_ADMIN`, `PAGE_LIMIT`, `CACHE_TIME`, `CACHE_API`, the token length and the default token lifetime.
- `errors.dfy` (`Errors`): the error bodies and `new AppStandardError(...)`.
- `entities.dfy` (`Entities`):
  - stored rows as values;
  - the loaded `User` and `UserInfo` entities as classes;
  - `afterLoad`, `hasPermission` and `setDefaultValues` as methods that assign the entity's own fields.
- `repository.dfy` (`Repository`): `findByUsername`, `findByUsernamePassword`, `findByUserIdAndToken` and the bearer strategy's `findOne`.
  - They run over a store that is either a sequence of rows or unavailable (every query throws).
  - `bcrypt.compare` is an opaque parameter that may fail.
- `http.dfy` (`Http`): JSON values, query values, replies, and the request object.
  - The request object carries `query` and `user`, the two properties the core assigns.
- `limit.dfy` (`Limit`): the middleware that replaces a non-positive `limit`.
  - It models what `Number(...)` makes of a query value: NaN, negative, zero or positive.
- `uploads.dfy` (`Uploads`): the multer `fileFilter`, with `path.extname`, and the `objectName` key builder.
- `response_cache.dfy` (`ResponseCache`): the response cache.
  - The `memory-cache` store is a class with a map field.
  - The key is `JSON.stringify(req.url)`, with a decoder proving it injective.
  - The middleware is a method proved against a one-request transition function.
  - Traces of requests are covered too.
- `auth.dfy` (`Auth`): the three strategy verify callbacks as verdict functions, and `passport_authorize` as a method that assigns `req.user`.
- `user_controller.dfy` (`UserController`):
  - `_find`'s LIKE patterns and page count;
  - `_signup`, `_registerAsGuest` and `_login` as functions from inputs to reply and written row;
  - `_updateMe` and `_changePasswordMe` as methods that update the loaded entities in place.

What the model receives as parameters instead of computing:

- Time (`Date.now()`, the cache clock).
- Password hashing, and the 20-character token drawn for each save.
- JWT signing and the token verification's result.
- The id the store assigns on insert.
- Whether a transaction commits.
- The uploaded file's key and the public file host.

Behaviour kept exactly as the code has it, where a reader might expect otherwise:

- The authorization gate answers 401 only when no user is resolved. A strategy error is passed to `next(err)` (`src/auth/index.ts:17`); it does not become a 401.
- Login refuses only `enable === false`. An account whose `enable` is null or missing may log in (`src/controllers/UserController.ts:196`).
- A failing lookup in `_signup` is not turned into an error reply. The promise rejects and the request is never answered (`src/controllers/UserController.ts:117`).
- The response cache's write check reads `req.baseUrl` when the handler emits. At that point, inside the router, it is the router's mount path. The read check uses the full `req.path`. Both are kept as written.

The `memory-cache` library is not part of this model. Its entries are taken to be live
while `now < expire`, and nothing is served once `now >= expire`.

## Model

| member | source | states |
|---|---|---|
| Text.TrimStart | src/controllers/UserController.ts:224 | the kept part is a suffix, what was dropped is white space, and the result does not start with white space |
| Text.TrimEnd | src/controllers/UserController.ts:224 | the kept part is a prefix, what was dropped is white space, and the result does not end with white space |
| Text.TrimEmptyIffBlank | src/controllers/UserController.ts:224-229 | `s.trim() === ''` (`Trim`) exactly when every character of `s` is white space |
| Text.LowerAscii | src/app.ts:110 | each ASCII capital becomes its lower-case letter (`LowerChar`), every other character is kept, and no capital remains |
| Text.LowerAsciiIdempotent | src/app.ts:110 | lower-casing twice is lower-casing once |
| Text.Decimal | src/app.ts:98 | the rendering of a number is a non-empty digit string without a leading zero unless it is 0 |
| Text.DecimalRoundTrip | src/app.ts:98 | reading back the rendering of `n` gives `n` |
| Text.DecimalInjective | src/app.ts:98 | different numbers render differently |
| Text.IndexOf | src/models/db/User.ts:66 | -1 exactly when the element is absent, otherwise the position of its first occurrence |
| Errors.NewAppStandardError | src/errors/AppStandardError.ts:10-19 | status 400; type and message as given (through `ApplicationErrorInit`); errors are `payload.errors` when present, otherwise the single `noneField` entry with the given messages; the payload field ends as `{}` because the field initialiser runs after `super()` |
| Entities.PermissionIds | src/models/db/User.ts:62 | the ids of the permission rows, same length, in order |
| Entities.HashedPassword | src/models/db/User.ts:72-74 | a truthy password becomes its hash; an empty or absent one is kept |
| Entities.RehashOnSecondSave | src/models/db/User.ts:69-74 | a second save hashes the stored hash again |
| Entities.User.Hydrate | src/models/db/User.ts:60-63 | a loaded entity has the row's columns, a profile exactly when that relation was loaded, and the permissions `afterLoad` computes |
| Entities.User.AfterLoad | src/models/db/User.ts:60-63 | `permissions` becomes the ids of `userPermissions` in order, or `[]` when the relation is absent |
| Entities.User.HasPermission | src/models/db/User.ts:65-67 | true exactly when the permission is in `permissions` |
| Entities.User.SetDefaultValues | src/models/db/User.ts:69-79 | the password is hashed when truthy and kept otherwise; the token is always replaced by the 20-character token drawn for this save |
| Repository.FirstWhere | src/repositories/UserRepository.ts:10-13 | nothing exactly when no row matches; otherwise a matching row with no match before it, and whenever row `i` is the first match the result is row `i` |
| Repository.FindOne | src/repositories/UserRepository.ts:10-13 | throws exactly when the store fails; a found row matches, is stored, and carries the requested relations; nothing is found exactly when no row matches; the first matching row is the one returned |
| Repository.FindByUsername | src/repositories/UserRepository.ts:9-14 | throws exactly when the store fails; the first row with that username is returned, with both relations exactly when `includeInfo`; nothing is found exactly when no row has it; an absent username matches no row |
| Repository.FindByUsernamePassword | src/repositories/UserRepository.ts:16-27 | throws exactly when the store fails or comparing with the first such user's password throws; returns that user with both relations exactly when the comparison accepts; a rejected password or an unknown username gives no user |
| Repository.WrongPasswordGivesNoUser | src/repositories/UserRepository.ts:19-23 | an existing user whose password the comparison rejects gives no user |
| Repository.FindByUserIdAndToken | src/repositories/UserRepository.ts:29-34 | a user is found exactly when some row matches both id and token; it carries the profile relation |
| Repository.FindByIdWithPermissions | src/auth/index.ts:71 | the user with that id, with the permission relation only |
| Limit.NumeralSign | src/app.ts:40 | `Number` of a digit string is zero when all digits are 0, positive otherwise (`StringSign`, the sign of `Number` on text) |
| Limit.NegativeNumeralSign | src/app.ts:40 | `Number` of `-` followed by digits is zero (for -0) or negative |
| Limit.PositiveDecimalSign | src/app.ts:40-41 | the rendering of a positive integer is a positive number |
| Limit.DefaultLimitIsPositive | src/app.ts:41 | `PAGE_LIMIT.toString()` is "20" and is a positive number |
| Limit.DefaultLimitReplaces | src/app.ts:41-42 | after the default page size is set, the limit is that value and is not ≤ 0 |
| Limit.EmptyLimitIsZero | src/app.ts:40 | an empty `limit=` reads as 0 |
| Limit.NormalisedQuery | src/app.ts:39-44 | a limit whose number (`NumberSign`) is ≤ 0 (`LimitNonPositive`) becomes "20"; any other query, NaN included, is kept; afterwards the limit is never ≤ 0; other keys never change |
| Limit.NormaliseIdempotent | src/app.ts:40-42 | normalising twice is normalising once |
| Limit.NormaliseLimit | src/app.ts:39-44 | the middleware leaves `req.query` equal to the normalised query of the old one |
| Uploads.LastIndexOf | src/app.ts:110 | -1 exactly when the character is absent, otherwise its last position |
| Uploads.BaseName | src/app.ts:110 | the last path component contains no slash |
| Uploads.BaseNameIsLastComponent | src/app.ts:110 | the base name is the part after the last slash once trailing slashes are dropped, and it is empty only for a path made of slashes |
| Uploads.ExtName | src/app.ts:110 | `path.extname` is empty or a dot-led suffix of the base name with no other dot or slash; it is empty exactly when the base name is empty or `..`, or has no dot after its first character |
| Uploads.FileFilter | src/app.ts:106-133 | a `document` is accepted exactly when MIME type and lower-cased extension both contain "pdf" (`Contains`), an `image` exactly when both contain one of jpeg/jpg/png/gif (`MatchesAny`), any other field always; the rejection carries that field's error body |
| Uploads.NoExtensionRefused | src/app.ts:108-128 | a document or image without an extension is refused whatever its MIME type |
| Uploads.KeysDifferByTime | src/app.ts:98 | uploads of the same file at different milliseconds get different keys (`ObjectKey`) |
| Uploads.UploadedFile.AssignObjectName | src/app.ts:97-101 | the key (`ObjectKey`) is `<category or fieldname>/<fieldname>_<now>_<originalname>` and `file.filename` is set to it |
| ResponseCache.UnescapeEscape | src/app.ts:159 | decoding the JSON escape of a string gives the string back |
| ResponseCache.KeyRoundTrip | src/app.ts:159 | `JSON.parse(JSON.stringify(url)) === url`, the key being `CacheKey(url)` |
| ResponseCache.KeyInjective | src/app.ts:159 | distinct URLs have distinct cache keys |
| ResponseCache.MemoryCache.constructor | src/app.ts:30 | the cache starts empty |
| ResponseCache.MemoryCache.Put | src/app.ts:170 | the entry for the key becomes the payload, expiring `time` ms after now; other entries are kept |
| ResponseCache.MemoryCache.Clear | src/app.ts:183 | the cache becomes empty |
| ResponseCache.Step | src/app.ts:158-186 | a non-GET empties the store and passes the handler's reply on; an allow-listed GET with a live entry (`Lookup`) is answered from it with the store unchanged; any other GET runs the handler and passes on nothing, its truthy payload, or `[]` for a falsy one; it stores a truthy payload under its key, expiring CACHE_TIME after the emission, exactly when the base URL is allow-listed, and leaves the store unchanged otherwise |
| ResponseCache.Handle | src/app.ts:158-186 | the middleware's reply and new store are those of the transition function |
| ResponseCache.HitWithinLifetime | src/app.ts:160-172 | after a stored truthy payload, a GET of the same URL with an allow-listed path within CACHE_TIME is answered with that payload without the handler |
| ResponseCache.WriteForcesHandler | src/app.ts:182-184 | after any non-GET request, the next GET runs the handler |
| ResponseCache.OtherUrlsUnaffected | src/app.ts:159-170 | storing a payload for one URL does not change what another URL reads |
| ResponseCache.Run | src/app.ts:158-186 | one outcome per request; every non-GET request is passed to the handler whatever came before; a sequence ending in a non-GET leaves the store empty; an empty sequence keeps the store |
| ResponseCache.NoWriteNoHit | src/app.ts:161-169 | when no request's base URL is allow-listed, an empty store stays empty and no request is answered from it, whatever paths are allow-listed |
| ResponseCache.DefaultAllowListInert | src/constant/index.ts:13 | with the shipped empty allow-list no request ever reads or fills the store |
| ResponseCache.SubPathNeverCached | src/app.ts:161-169 | with `/user/1` allow-listed, requests handled under `/user` are never answered from the store |
| Auth.FromLookup | src/auth/index.ts:44-48 | a thrown lookup is an error, nothing found is no user, a found user is that user |
| Auth.PasswordVerify | src/auth/index.ts:40-50 | an error exactly when the store fails or the comparison with the first user of that username throws; a user exactly when that comparison accepts, and then it is that first user with both relations; a rejected password gives no user |
| Auth.GuestVerify | src/auth/index.ts:52-62 | never an error, even when the store fails; no user exactly when the id is absent, the store fails, or no row matches both id and token; a resolved user matches both and carries only the profile relation |
| Auth.JwtVerify | src/auth/index.ts:66-73 | no callback exactly when the token is valid and the store fails; never an error; no user exactly when the token is invalid or no row has the id; a resolved user has the payload's id and only the permission relation |
| Auth.BearerUserHasNoProfile | src/auth/index.ts:71 | the user the bearer strategy resolves has no profile loaded |
| Auth.Gate | src/auth/index.ts:16-23 | an error is forwarded, no user gets 401 with the fixed `unauthorized` body and empty errors, and only a user invokes the handler |
| Auth.Authorize | src/auth/index.ts:14-27 | the gate's decision; on a user, `req.user` is a freshly hydrated entity with every column of that row, the loaded permission rows, the permissions `afterLoad` computes, and a fresh profile equal to the loaded one exactly when it was loaded; otherwise `req.user` is untouched |
| UserController.LikePattern | src/controllers/UserController.ts:58-62 | `%q%` around the query text when the value is truthy, `%` otherwise |
| UserController.UnfilteredQueryMatchesAll | src/controllers/UserController.ts:58-62 | a query without the five search keys gives `%` for every filter of `FindFilters` |
| UserController.PageCount | src/controllers/UserController.ts:68 | the page count times the limit covers the total, and one page fewer does not |
| UserController.PageCountUnique | src/controllers/UserController.ts:68 | that number is unique |
| UserController.Signup | src/controllers/UserController.ts:102-148 | a confirmation mismatch fails first; then a failing store leaves the request unanswered, and an existing username gives `user_existed`; with matching passwords and an unused username, a committed transaction answers 200 and writes the row, a failed one answers `signup_error` and writes nothing; a write happens exactly on a 200; the stored user and its profile both get the id `newId`; it stores the hashed password, the 20-character token drawn for the save and a profile named after the username |
| UserController.SignupStoresHash | src/controllers/UserController.ts:124-128 | a non-empty password is stored as its hash |
| UserController.SecondSignupRefused | src/controllers/UserController.ts:117-121 | after a successful signup with a username, signing up again with the same username gets `user_existed` |
| UserController.RegisterAsGuest | src/controllers/UserController.ts:150-187 | `name` is checked before `phoneNumber`, each with its own error; a write happens exactly when both are truthy and the transaction commits; the guest has no username or password and the 20-character token drawn for the save |
| UserController.GuestCanAuthenticate | src/controllers/UserController.ts:162-180 | the registered guest passes the guest strategy with its id and the token stored for it |
| UserController.LoginExpiry | src/controllers/UserController.ts:210 | the configured lifetime when set and non-empty, 36000 otherwise |
| UserController.Login | src/controllers/UserController.ts:189-214 | an error or no user gets 400; a disabled user or one without ADMIN/SUPER_ADMIN gets 401; 200 exactly when the user may log in (`MayLogIn`), with a token signed over `{id}` |
| UserController.TokenDependsOnIdOnly | src/controllers/UserController.ts:206-210 | two users with the same id get the same token |
| UserController.DisabledAdminForbidden | src/controllers/UserController.ts:196-199 | a disabled admin gets 401 |
| UserController.NoPermissionForbidden | src/controllers/UserController.ts:196-199 | a user without permission rows gets 401 |
| UserController.UpdateReply | src/controllers/UserController.ts:219-256 | no user, then a blank phone number, then a blank name, each with its error; 200 exactly when all checks pass, a profile is loaded and the transaction commits |
| UserController.ProfileUpdate | src/controllers/UserController.ts:235-247 | phone number, name and address are replaced exactly when the body carries them, the avatar when a file was sent; nothing else changes |
| UserController.ProfileUpdateIdempotent | src/controllers/UserController.ts:235-247 | applying an update twice is applying it once |
| UserController.EmptyUpdateChangesNothing | src/controllers/UserController.ts:235-247 | an empty body without a file leaves the profile unchanged |
| UserController.AssignProfileFields | src/controllers/UserController.ts:236-247 | the loaded profile's fields become `ProfileUpdate` of their old values: phone number, name and address when the body carries them, the avatar when a file was sent |
| UserController.UpdateMe | src/controllers/UserController.ts:216-257 | the reply is the update reply; once the checks pass the loaded profile is updated in place by `AssignProfileFields`, even when the save then fails; otherwise it is untouched |
| UserController.BearerUpdateFails | src/controllers/UserController.ts:235-256 | through the bearer strategy every update answers 400 |
| UserController.ChangePasswordReply | src/controllers/UserController.ts:259-297 | a blank new password, then a confirmation mismatch, then a rejected old password, each with its error; 200 exactly when all checks pass and the save commits |
| UserController.ChangePasswordMe | src/controllers/UserController.ts:259-297 | once the checks pass, the bearer user's password is the hashed new password and its token is the 20-character token drawn for the save; otherwise both are untouched |
| UserController.AnyAccountAuthorisesChange | src/controllers/UserController.ts:279-290 | credentials of any account, whatever its id, that pass the password strategy allow the change and give 200, so `ChangePasswordMe` rewrites the bearer's own password |
| UserController.BlankCheckedBeforeConfirmation | src/controllers/UserController.ts:262-267 | a blank new password gets the blank-password error even when the confirmation differs |

## Left out

- The database: SQL semantics of the search query (LIKE, COALESCE, joins, take/skip, the soft-delete condition), `getMany`/`getManyAndCount`, and transaction rollback. The store is a sequence of rows; a transaction's success is a parameter. The handlers reply inside the transaction callback, before the commit. A commit that fails after a 200 was sent is not modelled: `committed` covers the callback and the commit together.
- `_find`'s response: only its filter patterns and page count are modelled.
- `_get` and `_loadSelf` are not part of this model. Both are a lookup followed by serialisation.
- bcrypt and jsonwebtoken are opaque function parameters; generate-password's output is a parameter of each save. Also left out: how jsonwebtoken reads a text versus a numeric `expiresIn`, and reading the key file.
- Passport's own dispatch: several strategies on one route, missing-credential handling in passport-local, and the JWT extraction and verification (its result is a parameter).
- `req.login` with sessions disabled: its error branch is not modelled.
- express-paginate, routing, CORS, body parsing, MinIO, multer's storage engine and the metadata callback. express-paginate runs before the limit normaliser (`src/app.ts:37`) and has already made `req.query.limit` a number. The string cases of `NumberSign` model the normaliser on its own, not the input it receives in this application.
- Dependency injection, loggers and the `createdAt` column.
- class-transformer serialisation of replies: `CurrentUser`, `GuestView` and `LoginView` stand for the serialised entities.
- Entities.User.SetDefaultValues: the token drawn for a save is a parameter whose length of 20 is required. The character set of generate-password and the uniqueness of tokens across users and saves are not modelled.
- Repository.FindByUsername: an absent username is taken to match no row, as `username = NULL` does in SQL. An ORM that drops an undefined condition, and so returns the first user of the table, is not modelled.
- Limit.NumberSign: JavaScript's number range is not modelled. A literal whose value underflows to 0 (`1e-400`) is classed by its digits.
- Text.LowerAscii: lower-cases ASCII letters only, not the full Unicode case mapping of `toLowerCase`.
- UserController.Field: request bodies carry text values only. A non-string `phoneNumber`, `name` or `newPassword`, on which `.trim()` would throw, is not modelled.
- UserController.PageCount: requires a positive limit. A NaN or fractional limit is not modelled.
- Auth.GuestVerify: takes `Number(userId)` already converted. A value that is not an integer is given as absent.
- ResponseCache.Lookup: does not model `memory-cache` deleting expired entries on read, nor its timers.
- ResponseCache.Step: captures only JSON the handler emits after `next()` returns. That is when the `res.json` override is installed; anything sent before it is outside the model.
- Concurrency: requests racing on the shared cache or on the same user row.
