# LMS backend: accounts, sessions and the shared cache

This project is a Dafny model of the account and session core of the LMS
Express backend. It covers:

- the two-step signup: an emailed activation code inside a five-minute
  activation token, then account creation;
- password login, social login, logout and refresh;
- the `isAuthenticated` gate;
- profile reads and updates;
- the course handlers that share the same Redis keyspace.

The state is one `Store.Server` object. It holds the users collection, the
courses collection, the Redis keyspace and a clock. Each handler is a module
method that takes the server as its `app` parameter. It is proved equal to a
function of the whole state. The route
table composes those functions, and the lemmas in `Sessions` and
`CourseCache` follow a session across several requests.

Modules, in dependency order:

- `Wrappers`: `Option` and `Result`.
- `Bcrypt`: the password hash. A concrete stand-in: `Hash(p)` prefixes the
  bcrypt header, and `Compare(p, d)` holds exactly when `d == Hash(p)`.
- `Decimal`: `Number.prototype.toString` on naturals, and its inverse.
- `Jwt`: token kinds (one per secret), claims, optional expiry, and
  `jsonwebtoken`'s `verify` with its error messages.
- `UserModel`: the user schema, its defaults, the unique email index, the
  pre-save hook, `comparePassword`, `SignAccessToken` and `SignRefreshToken`.
- `CourseModel`: courses, the lesson-field projection of the public reads,
  and `$set` patches.
- `Store`: cached JSON values, the `World` snapshot and the `Server` class
  with its collection and Redis operations.
- `Http`: cookies, replies, mails and the `Effect` of a handler.
- `Auth`: the `isAuthenticated` middleware.
- `UserService`: `getUserById`.
- `UserController`: the user handlers.
- `CourseController`: the course handlers.
- `UserRoute`: the route table, `Dispatch`, and an invariant checked over every
  route.
- `Sessions` and `CourseCache`: properties that span several requests.

Where the documented intent and the code disagree, the model follows the code:

- **Activation code length.** The code is the decimal string of
  `Math.floor(1000 * Math.random() * 9000)`, so it has one to seven digits,
  not four.
- **Password digest exposed.** The session snapshot keeps the password digest.
  It is written to Redis and returned by `/me` and by a course read at the
  user's id.
- **Token errors.** Token failures carry `jsonwebtoken`'s own messages. There
  is no single "invalid or expired" error: `jwt.verify` throws, so the
  `if (!decoded)` branches cannot be reached.
- **Re-saves hash again.** The pre-save hook does not return after its first
  `next()`, so it hashes on every save, not only on the first one. The model
  takes the second digest to be the one stored (see "Left out").
- **Logout often leaves the session.** Logout deletes the key `req.user?.id`.
  The `id` virtual is absent from `JSON.stringify` under Mongoose's default
  serialiser, so logout usually deletes the key `""` and the session stays.
  Both outcomes are proved. The serialiser setting is the `World` field
  `jsonIncludesId`.
- **Change password does not exist, so the server does not start.**
  `changePassword` is imported by the router but not defined by the
  controller. The route registration at backend/routes/user.route.ts:25 then
  passes `undefined`, and Express throws while the router module loads. The
  router never loads, `app.ts` fails at its import, and no user route is
  served. The TypeScript compiler also rejects the import. `UserRoute` and
  every lemma built on `Dispatch` describe the router as if that route were
  bound to the model's `Unbound` stand-in (see "Left out").

## Model

| member | source | states |
|---|---|---|
| `Bcrypt.Hash` | backend/models/user.model.ts:41 | of the stand-in only: its digest is the header followed by the plain text, so the stand-in's length follows the input (real bcrypt digests are always 60 characters); that length also gives `Hash(p) != p`, which the lock-out lemmas need and which the bare assumption that `Compare(p, Hash(q))` holds exactly when `p == q` does not give |
| `Bcrypt.CompareHash` | backend/models/user.model.ts:56-58 | a plain text matches a digest of another text exactly when the two texts are equal |
| `Bcrypt.RehashLocksOut` | backend/models/user.model.ts:37-43 | a digest hashed a second time no longer matches the original password; it matches only the first digest |
| `Decimal.DecimalString` | backend/controllers/user.controller.ts:75 | `toString` of a natural number is nonempty and made only of digits |
| `Decimal.ParseDecimalString` | backend/controllers/user.controller.ts:75 | reading the decimal string back gives the number: the code determines the draw |
| `Decimal.DecimalStringInjective` | backend/controllers/user.controller.ts:75 | different draws give different codes |
| `Decimal.NoLeadingZero` | backend/controllers/user.controller.ts:75 | the code starts with '0' exactly when the draw is 0, so no code is zero-padded |
| `Decimal.DecimalLength` | backend/controllers/user.controller.ts:75 | the string has at most k digits exactly when the number is below 10^k |
| `Jwt.Sign` | backend/controllers/user.controller.ts:77-81 | a token records its secret, claims, issue time and expiry; it verifies under its own secret when issued, unless its ttl is zero, and every other secret refuses it with "invalid signature" |
| `Jwt.Verify` | backend/middlewares/auth.ts:18-21 | verification succeeds exactly for a signed token of the expected kind that has not expired, yields its claims, and otherwise fails with one of jsonwebtoken's four messages |
| `Jwt.VerifySigned` | backend/controllers/user.controller.ts:77-81 | a freshly signed token verifies under its own secret until its expiry, gives back its claims, and any other secret refuses it with "invalid signature" |
| `Jwt.KindsSeparate` | backend/middlewares/auth.ts:18-21 | a token signed with a different secret is refused with "invalid signature" |
| `Jwt.NoExpiryNeverExpires` | backend/models/user.model.ts:46-53 | a token signed without `expiresIn` verifies at every later time |
| `UserModel.NewUser` | backend/models/user.model.ts:23-34 | a new document gets role "user", is not verified and has no courses |
| `UserModel.PreSave` | backend/models/user.model.ts:37-43 | the hook replaces a present password by its hash on every save, changes nothing else, and leaves a document without a password untouched |
| `UserModel.ComparePassword` | backend/models/user.model.ts:56-58 | comparison fails with bcrypt's error exactly when the document has no password, and is true exactly when the digest is the hash of the entered text |
| `UserModel.SignAccessToken` | backend/models/user.model.ts:46-48 | the access token claims the document's `_id` and verifies as an access token at every later time |
| `UserModel.SignRefreshToken` | backend/models/user.model.ts:51-53 | the refresh token claims the document's `_id` and verifies as a refresh token at every later time |
| `UserModel.HasRequired` | backend/models/user.model.ts:25-26 | the `required` validators: username and email are both nonempty |
| `UserModel.EmailsUnique` | backend/models/user.model.ts:26 | the unique index: two documents with the same email are the same document |
| `UserModel.FindByEmail` | backend/controllers/user.controller.ts:29 | `findOne({ email })` finds a document with that email, and finds none exactly when no document has it |
| `UserModel.FindOwnEmail` | backend/models/user.model.ts:26 | with unique emails, looking up a user's own email finds that user |
| `UserModel.Save` | backend/models/user.model.ts:23-43 | a save succeeds exactly when the required fields are set and no other document holds the email; it stores the hooked document under its `_id` |
| `UserModel.SavePreservesWellFormed` | backend/models/user.model.ts:23-34 | a successful save keeps the collection keyed by `_id`, complete and email-unique |
| `UserModel.ResaveLocksOutPassword` | backend/models/user.model.ts:37-43 | a stored password that matches before a save no longer matches after the save |
| `CourseModel.Project` | backend/controllers/course.controller.ts:110-112 | the public projection keeps id, name, thumbnail and every lesson title, and drops each lesson's video, suggestion, questions and links |
| `CourseModel.ProjectAll` | backend/controllers/course.controller.ts:134-136 | the list read projects every course and keeps their order |
| `CourseModel.CourseIndex` | backend/controllers/course.controller.ts:110 | `findById` finds the first course with the id, and nothing exactly when no course has it |
| `CourseModel.ApplyPatch` | backend/controllers/course.controller.ts:87-91 | `$set` replaces exactly the fields the body supplies and keeps the id |
| `Store.Stringify` | backend/controllers/user.controller.ts:275 | the stringified user keeps the whole document, its `_id`, and the virtual `id` only when the serialiser emits virtuals |
| `Store.KeyOf` | backend/controllers/user.controller.ts:164-165 | a present id is its own Redis key; an undefined id becomes the key "" |
| `Store.Server.FindOne` | backend/controllers/user.controller.ts:29 | the loop over the collection returns the unique document with the email, or none |
| `Store.Server.FindById` | backend/controllers/user.controller.ts:262 | finds the document stored under the id, and nothing for an undefined or unknown id |
| `Store.Server.SaveUser` | backend/controllers/user.controller.ts:112-116 | a save changes the collection as `Save` says and nothing else, keeps it well formed, and a failed save changes nothing |
| `Store.Server.RedisGet` | backend/middlewares/auth.ts:27 | returns the cached value exactly when the key is present |
| `Store.Server.RedisSet` | backend/controllers/user.controller.ts:275 | overwrites one key and changes nothing else |
| `Store.Server.RedisDel` | backend/controllers/user.controller.ts:165 | removes one key and changes nothing else |
| `Store.Server.FindCourse` | backend/controllers/course.controller.ts:110 | the loop returns the first position holding a course with the id, or none |
| `Store.Server.ReplaceCourse` | backend/controllers/course.controller.ts:87-91 | replaces one course and changes nothing else |
| `Store.Server.InsertCourse` | backend/controllers/course.controller.ts:21 | appends one course and changes nothing else |
| `Auth.Authenticate` | backend/middlewares/auth.ts:7-36 | a missing or empty cookie gives "Please login to access"; a bad token gives jsonwebtoken's error; a token that verifies passes exactly when its id is a cache key, the request user is the cached value, and otherwise the error is "User not found" |
| `Auth.IsAuthenticated` | backend/middlewares/auth.ts:7-36 | the middleware's outcome is `Authenticate` of the current state, and it writes nothing |
| `Auth.GateIgnoresCollections` | backend/middlewares/auth.ts:27-34 | the gate reads only the cookie, the clock and the cache, never the collections |
| `UserService.ProfileReply` | backend/services/user.service.ts:4-13 | replies 201 with the cached value when the key is present, and sends nothing when it is absent |
| `UserService.GetUserById` | backend/services/user.service.ts:4-13 | the service reads only the cache and answers `ProfileReply` |
| `UserController.CreateActivationToken` | backend/controllers/user.controller.ts:72-83 | the ticket is a five-minute activation token carrying the registration and the code; the code is one to seven digits and reads back as the draw |
| `UserController.SignupResponse` | backend/controllers/user.controller.ts:25-65 | a taken email gives "Email already exist"; otherwise the code is mailed to the registered address and only the token is returned; no cookies are set |
| `UserController.Signup` | backend/controllers/user.controller.ts:25-65 | the handler answers `SignupResponse` and writes nothing |
| `UserController.ActivatedUser` | backend/controllers/user.controller.ts:112-116 | the created account has the fresh id and the registration's username and email, the schema defaults, no avatar, and the registration's password hashed once |
| `UserController.ActivateEffect` | backend/controllers/user.controller.ts:90-121 | succeeds exactly when the ticket verifies, its code equals the supplied one as a string, the email is still free and the required fields are set; then exactly one account is added; every failure leaves the state unchanged |
| `UserController.ActivateUser` | backend/controllers/user.controller.ts:90-121 | the handler's new state and reply are `ActivateEffect`'s, and the collection stays well formed |
| `UserController.SendTokenEffect` | backend/controllers/user.controller.ts:149 | opening a session writes the stringified user under its `_id` and sets both cookies to tokens for that `_id` |
| `UserController.SendToken` | backend/controllers/user.controller.ts:149 | the method's new state and reply are `SendTokenEffect`'s |
| `UserController.LoginEffect` | backend/controllers/user.controller.ts:128-153 | a blank field gives "Please enter email and password"; an unknown email gives "Invalid email or password"; login succeeds exactly when the password matches and then opens the session; every failure changes nothing |
| `UserController.Login` | backend/controllers/user.controller.ts:128-153 | the handler's new state and reply are `LoginEffect`'s, and the collection stays well formed |
| `UserController.LogoutKey` | backend/controllers/user.controller.ts:164 | the key logout deletes is the snapshot's virtual `id` when it has one, otherwise ""; a snapshot without the virtual `id` never yields the key of its own `_id` |
| `UserController.LogoutEffect` | backend/controllers/user.controller.ts:155-174 | logout clears both cookies and deletes exactly the key of the request user's virtual `id`, or "" when it has none; every other key and both collections are unchanged |
| `UserController.Logout` | backend/controllers/user.controller.ts:155-174 | the handler's new state and reply are `LogoutEffect`'s |
| `UserController.UpdateAccessTokenResponse` | backend/controllers/user.controller.ts:176-216 | a refresh succeeds exactly when the refresh cookie verifies and a non-null session is cached under its id; it then issues a five-minute access token and a three-day refresh token for the session's `_id`; a missing session gives "Could not refresh token" |
| `UserController.UpdateAccessToken` | backend/controllers/user.controller.ts:176-216 | the handler answers `UpdateAccessTokenResponse` and writes nothing |
| `UserController.GetUserInforResponse` | backend/controllers/user.controller.ts:218-230 | `/me` returns the value cached under the request user's `_id`, and sends nothing when there is none |
| `UserController.GetUserInfor` | backend/controllers/user.controller.ts:218-230 | the handler answers `GetUserInforResponse` and writes nothing |
| `UserController.SocialUser` | backend/controllers/user.controller.ts:243 | the social account has the fresh id and the asserted username and email, no password and no avatar, role "user", is not verified, and passes through the hook unchanged |
| `UserController.SocialLoginEffect` | backend/controllers/user.controller.ts:238-251 | an existing email gets a session at once; otherwise a password-less account is created and gets the session; missing fields fail validation and change nothing |
| `UserController.SocialLogin` | backend/controllers/user.controller.ts:238-251 | the handler's new state and reply are `SocialLoginEffect`'s, and the collection stays well formed |
| `UserController.EditedUser` | backend/controllers/user.controller.ts:263-272 | a nonempty field of the body replaces the corresponding field; every other field, avatar, role, verification flag and courses included, stays as it was |
| `UserController.UpdateUserInfoEffect` | backend/controllers/user.controller.ts:258-281 | a taken email answers 400 but the edit continues; a refused save changes nothing; a successful save stores the hooked document and re-caches it under `_id`; an unknown user caches null |
| `UserController.UpdateUserInfo` | backend/controllers/user.controller.ts:258-281 | the handler's new state and reply are `UpdateUserInfoEffect`'s, and the collection stays well formed |
| `CourseController.ProjectedLookup` | backend/controllers/course.controller.ts:110-112 | the lookup is null exactly when no course has the id, and otherwise the projected course |
| `CourseController.GetSingleCourseEffect` | backend/controllers/course.controller.ts:100-121 | a hit answers the cached value, whatever it is, and changes nothing; a miss caches the lookup under the id, null included; the answer is always what is now cached |
| `CourseController.GetSingleCourse` | backend/controllers/course.controller.ts:100-121 | the handler's new state and reply are `GetSingleCourseEffect`'s |
| `CourseController.GetAllCoursesEffect` | backend/controllers/course.controller.ts:124-144 | the list read is cache-aside under "allCourses" and answers what is now cached |
| `CourseController.GetAllCourses` | backend/controllers/course.controller.ts:124-144 | the handler's new state and reply are `GetAllCoursesEffect`'s |
| `CourseController.EditCourseEffect` | backend/controllers/course.controller.ts:61-97 | the first course with the id is patched and returned; an unknown id answers null; the cache is never touched |
| `CourseController.EditCourse` | backend/controllers/course.controller.ts:61-97 | the handler's new state and reply are `EditCourseEffect`'s |
| `CourseController.UploadCourseEffect` | backend/controllers/course.controller.ts:8-29 | given an id no stored course has, the course is appended, returned, and found by that id at the end of the collection; the cache is never touched |
| `CourseController.UploadCourse` | backend/controllers/course.controller.ts:8-29 | the handler's new state and reply are `UploadCourseEffect`'s |
| `UserRoute.Table` | backend/routes/user.route.ts:17-25 | exactly logout, `/me`, update-user and change-password run behind `isAuthenticated`, and only change-password ends in an undefined handler |
| `UserRoute.RoutesDistinct` | backend/routes/user.route.ts:17-25 | no two routes share a verb and a path |
| `UserRoute.Dispatch` | backend/routes/user.route.ts:17-25 | a gated route that fails the gate answers the gate's error and changes nothing; otherwise the handler runs with the gate's user, or with no user on an ungated route |
| `UserRoute.LogoutNeedsSession` | backend/routes/user.route.ts:20 | logout deletes a key only after the gate has passed |
| `UserRoute.RefreshIgnoresAccessCookie` | backend/routes/user.route.ts:21 | the refresh route's outcome does not depend on the access cookie, and it never changes the state |
| `UserRoute.ChangePasswordChangesNothing` | backend/routes/user.route.ts:25 | the change-password route always fails and never changes the state |
| `UserRoute.DispatchPreservesValid` | backend/routes/user.route.ts:17-25 | every user route keeps the users collection keyed by `_id`, complete and email-unique |
| `Sessions.CodeIsNotAlwaysFourDigits` | backend/controllers/user.controller.ts:75 | a draw of 7 gives the code "7", and the largest draw a seven-digit code |
| `Sessions.SignupActivateLogin` | backend/controllers/user.controller.ts:25-153 | signing up, confirming with the mailed code within five minutes, then logging in with the registered password succeeds and creates exactly the registered account |
| `Sessions.WrongCodeRefused` | backend/controllers/user.controller.ts:100-102 | a live ticket with a different code is refused with "Invalid activation code" and creates nothing |
| `Sessions.PaddedCodeRefused` | backend/controllers/user.controller.ts:100-102 | the zero-padded form of the mailed code is refused: the comparison is on strings |
| `Sessions.ExpiredTicketRefused` | backend/controllers/user.controller.ts:95-98 | after five minutes the ticket fails with "jwt expired", whatever the code |
| `Sessions.SessionTokenIsNoTicket` | backend/controllers/user.controller.ts:95-98 | an access or refresh token is refused as a ticket with "invalid signature" |
| `Sessions.ReplayedActivationFails` | backend/controllers/user.controller.ts:104-110 | replaying a used ticket fails with "Email already exist" while live and "jwt expired" after, and never creates a second account |
| `Sessions.LoginErrorsIndistinguishable` | backend/controllers/user.controller.ts:139-147 | an unknown email and a wrong password give the same reply and change nothing |
| `Sessions.SessionCookiesAuthenticate` | backend/models/user.model.ts:46-53 | the cookies of an opened session pass the gate at every later time while the session is cached |
| `Sessions.LoginThenAuthenticate` | backend/controllers/user.controller.ts:149 | after a successful login the received cookies authenticate the logged-in user |
| `Sessions.ProfileExposesDigest` | backend/controllers/user.controller.ts:218-230 | `/me` after login changes nothing and returns the snapshot with the password digest |
| `Sessions.RefreshRotates` | backend/controllers/user.controller.ts:192-207 | a refresh on a live session issues tokens for the user's `_id`; the new access token passes the gate for five minutes and then fails with "jwt expired" |
| `Sessions.RefreshRefusesAccessToken` | backend/controllers/user.controller.ts:178-182 | an access token in the refresh cookie is refused with "invalid signature" |
| `Sessions.GateRefusesRefreshToken` | backend/middlewares/auth.ts:18-21 | a refresh token in the access cookie is refused with "invalid signature" |
| `Sessions.TokenWithoutSession` | backend/middlewares/auth.ts:27-32 | valid tokens without a cached session fail the gate with "User not found" and the refresh with "Could not refresh token" |
| `Sessions.LogoutRevokesWithVirtualId` | backend/controllers/user.controller.ts:164-165 | when snapshots carry `id`, logout deletes the session, and neither the kept nor the cleared cookies then pass the gate or refresh |
| `Sessions.LogoutKeepsSessionWithoutVirtualId` | backend/controllers/user.controller.ts:164-165 | under the default serialiser, logout deletes only the key "", and the kept cookies still pass the gate and still refresh |
| `Sessions.SocialLoginTrustsEmail` | backend/controllers/user.controller.ts:241-246 | naming the email of any existing account opens an authenticated session for it without a secret |
| `Sessions.SocialAccountRefusesPasswordLogin` | backend/models/user.model.ts:56-58 | a password login on a social account fails with bcrypt's "data and hash arguments required" |
| `Sessions.UpdateLocksOutPassword` | backend/controllers/user.controller.ts:273 | a successful profile update double-hashes the stored digest, after which login with the original password fails with "Invalid email or password" |
| `Sessions.UpdateToTakenEmail` | backend/controllers/user.controller.ts:263-268 | asking for another account's email answers 400, the save is refused, and nothing changes |
| `Sessions.UpdateToOwnEmail` | backend/controllers/user.controller.ts:263-275 | re-submitting one's own email answers 400 and still saves and re-caches the document |
| `CourseCache.EditLeavesCachedCourseStale` | backend/controllers/course.controller.ts:87-121 | after a course is cached, an edit changes the collection but the next read answers the old course |
| `CourseCache.UploadLeavesCachedListStale` | backend/controllers/course.controller.ts:21-139 | after the list is cached, an upload adds a course but the next list read answers the old list |
| `CourseCache.MissingCourseCachedAsNull` | backend/controllers/course.controller.ts:110-113 | reading an unknown id caches null, so a course later stored under that id stays invisible to reads |
| `CourseCache.CourseReadAnswersSession` | backend/controllers/course.controller.ts:104-107 | a course read at a logged-in user's id answers the session snapshot, password digest included |
| `CourseCache.CourseReadRevivesRevokedGate` | backend/controllers/course.controller.ts:110-113 | after a revoking logout, a course read at the user's id caches null; the old cookies then pass the gate with a null user, and the refresh fails on the null session |

## Left out

- **Cryptography.** Signatures and salts are not modelled. A token records
  which secret signed it, and `Verify` checks that against the expected kind.
  Bcrypt is a concrete prefix stand-in, so `Compare(p, Hash(q))` holds exactly
  when `p == q`.
- **Randomness.** `Math.random` is a parameter `draw` below 9,000,000.
  MongoDB's fresh ObjectIds are a parameter `freshId`. It is required to be
  unused: no user has it when an account is created, and no course has it
  when a course is uploaded.
- **The clock.** Time is a natural number of seconds in the state; nothing
  reads a real clock. No handler moves it; the multi-request lemmas state
  later requests at any later time.
- **`sendToken` (utils/jwt).** It is not part of this model. `SendTokenEffect`
  is an assumption: it signs both tokens, sets both cookies, caches the
  stringified user under `_id`, and replies with the user and the access
  token. Cookie options are not modelled.
- **Mail and templates.** `sendMail` and `ejs.renderFile` are not part of this
  model. A mail is recorded in the response. A template or transport failure
  is not modelled.
- **`createCourse` (services/course.service).** It is not part of this model.
  It is taken to insert the body as a new course and return it, so the
  "Course is not found" branch of `uploadCourse` cannot be reached.
- **Cloudinary.** Uploads and destroys are left out. `uploadCourse` uploads
  only when `!thumbnail`, the inverse of the evident intent, so the upload call
  is on an empty value. `editCourse` replaces the thumbnail object. The model
  stores the thumbnail string as given.
- **Express mechanics.** Body parsing, cookie parsing, CORS and status-code
  framing are left out. `app.ts` mounts only the user router, so the course
  handlers are modelled but no route reaches them.
- **Unhandled rejections.** A handler that throws in an async function has no
  Express error handler here; the model reports the thrown message as the
  failed reply.
- **Async ordering.** The un-awaited `redis.del` in logout is taken to complete
  before the next request. Concurrent requests are not modelled.
- **The pre-save hook's first `next()`.** When the password is not modified,
  the hook calls `next()` without returning. Mongoose's hook runner calls
  `next` only once, and that first call completes the hook chain. The update
  is then built before `await bcrypt.hash` resolves, so the database normally
  keeps the first digest. The second digest lands only on the in-memory
  document. The model reads the hook sequentially: the save stores the
  second digest. `UserModel.ResaveLocksOutPassword` and
  `Sessions.UpdateLocksOutPassword` describe that sequential reading, which
  the running program rarely or never follows. The
  model also takes a password-less document to be saved as it is: it does
  not model `bcrypt.hash` on an undefined password.
- **JSON round trip.** `JSON.stringify` followed by `JSON.parse` is identity on
  the document, plus the virtual `id` when `jsonIncludesId` holds. Timestamps
  and `__v` are not modelled.
- **Undefined Redis keys.** A key computed from an undefined id is modelled as
  the empty string, in `KeyOf`.
- **Absent body fields.** A field absent from the body and the empty string are
  both modelled as ""; both are falsy where the handlers test them. Signup's
  `password` is tested by no handler. For an absent password the program
  calls `bcrypt.hash(undefined)`, and its rejection is swallowed, so the
  account is stored with no password. Later logins then fail with "data and
  hash arguments required". The model stores `Hash("")` instead.
- **Malformed ids.** ObjectId cast errors on ids are not modelled. Ids are
  plain strings.
- **The avatar field.** Social login passes `avatar` as a string, while the
  schema declares a nested path with `public_id` and `url`. `User.create`
  sets its fields in object form. Under the default `strict` mode that skips
  a primitive value on a nested path without error, so the account is
  created without an avatar. `UserController.SocialUser` stores no avatar
  accordingly. The nested shape of a present avatar is not modelled: the
  field is an optional string.
- **Documents are values.** The hook's update in place of `this.password` is
  the function `PreSave` on user values.
- **`changePassword` and the failed start.** The controller does not define
  it. As written, Express throws when backend/routes/user.route.ts:25 registers
  the undefined handler, so the server does not start and no route is served.
  The model leaves out that failure. It keeps the route table as if the route
  were bound to an `Unbound` handler that always fails and changes nothing.
  `UserRoute.Dispatch` and every multi-request lemma describe that router.
  The reply "changePassword is not defined" is the model's own; the program
  has no such message.
- UserController.CreateActivationToken: the contract states the code's
  range and digits, not the distribution of `Math.random`.
- **`updateUserInfo` after a taken email.** The second reply, status 201
  after status 400, fails inside Express with headers already sent; the error
  is only logged. The model keeps the 400 reply and the state changes that had
  already happened.
