/**
 * The account and session handlers (backend/controllers/user.controller.ts).
 * Each handler is a module method that takes the running Server as `app`;
 * beside it, a function gives the same handler as a transition of the whole
 * state, which the route table and the session lemmas compose.
 */
module UserController {
  import opened Wrappers
  import Bcrypt
  import opened Decimal
  import opened Jwt
  import opened UserModel
  import opened Store
  import opened Http
  import opened UserService

  const EmailExists := "Email already exist"
  const InvalidActivationCode := "Invalid activation code"
  const MissingCredentials := "Please enter email and password"
  const InvalidCredentials := "Invalid email or password"
  const CouldNotRefresh := "Could not refresh token"
  const NullSessionId := "Cannot read properties of null (reading '_id')"

  /** `Math.floor(1000 * Math.random() * 9000)` lies in [0, 9000000). */
  const CodeRange: nat := 9000000

  /** What `createActivationToken` returns: the signed ticket and its code. */
  datatype ActivationTicket = ActivationTicket(token: Token, activationCode: string)

  datatype ActivationRequest = ActivationRequest(activation_token: TokenText, activation_code: string)

  datatype LoginRequest = LoginRequest(email: string, password: string)

  datatype SocialLoginBody = SocialLoginBody(username: string, email: string, avatar: string)

  /** An empty string stands for a field the client left out; both are falsy. */
  datatype UpdateUserInfoBody = UpdateUserInfoBody(username: string, email: string)

  /**
   * `createActivationToken`: `draw` is the random integer below 9,000,000; its
   * decimal string, between one and seven digits long, is the code.
   */
  function CreateActivationToken(user: Registration, draw: nat, now: nat): (t: ActivationTicket)
    requires draw < CodeRange
    ensures t.token == Token(Activation, ActivationClaims(user, t.activationCode), now, Some(FiveMinutes))
    ensures forall i :: 0 <= i < |t.activationCode| ==> IsDigit(t.activationCode[i])
    ensures ParseDecimal(t.activationCode) == draw
    ensures 1 <= |t.activationCode| <= 7
  {
    var code := DecimalString(draw);
    ParseDecimalString(draw);
    DecimalLength(draw, 7);
    ActivationTicket(Sign(Activation, ActivationClaims(user, code), now, Some(FiveMinutes)), code)
  }

  /** `signup`: refuses a taken email; otherwise mails the code and returns only the token. */
  ghost function SignupResponse(w: World, body: Registration, draw: nat): (r: Response)
    requires draw < CodeRange
    ensures r.cookies.None?
    ensures FindByEmail(w.users, body.email).Some? ==> r == Fail(EmailExists)
    ensures FindByEmail(w.users, body.email).None? ==>
      && r.mail.Some? && r.mail.value.to == body.email && r.mail.value.username == body.username
      && r.reply == Sent(201, ActivationIssued(body.email, Token(Activation, ActivationClaims(body, r.mail.value.activationCode), w.now, Some(FiveMinutes))))
      && r.mail.value.activationCode == DecimalString(draw)
  {
    if FindByEmail(w.users, body.email).Some? then
      Fail(EmailExists)
    else
      var ticket := CreateActivationToken(body, draw, w.now);
      Response(Sent(201, ActivationIssued(body.email, ticket.token)), None,
        Some(ActivationMail(body.email, body.username, ticket.activationCode)))
  }

  method Signup(app: Server, body: Registration, draw: nat) returns (resp: Response)
    requires app.Valid() && draw < CodeRange
    ensures resp == SignupResponse(app.State(), body, draw)
  {
    var isEmailExist := app.FindOne(body.email);
    if isEmailExist.Some? {
      return Fail(EmailExists);
    }
    var activationToken := CreateActivationToken(body, draw, app.now);
    var mail := ActivationMail(body.email, body.username, activationToken.activationCode);
    resp := Response(Sent(201, ActivationIssued(body.email, activationToken.token)), None, Some(mail));
  }

  /** The document `activateUser` stores for a pending registration, after the save hook. */
  function ActivatedUser(id: string, pending: Registration): (u: User)
    ensures u._id == id && u.username == pending.username && u.email == pending.email
    ensures u.avatar.None? && u.role == DefaultRole && !u.isVerified && u.courses == []
    ensures u.password == Some(Bcrypt.Hash(pending.password))
  {
    PreSave(NewUser(id, pending.username, pending.email, Some(pending.password), None))
  }

  /** The activation request carries a verified ticket whose code equals, as a string, the one supplied. */
  predicate TicketAccepted(w: World, req: ActivationRequest) {
    && Verify(req.activation_token, Activation, w.now).Ok?
    && Verify(req.activation_token, Activation, w.now).value.ActivationClaims?
    && Verify(req.activation_token, Activation, w.now).value.activationCode == req.activation_code
  }

  /**
   * `activateUser`: verifies the ticket, compares the code with `!==`, re-checks
   * the email and creates one user; on every failure nothing changes.
   */
  ghost function ActivateEffect(w: World, req: ActivationRequest, freshId: string): (e: Effect)
    requires freshId !in w.users
    ensures e.resp.cookies.None? && e.resp.mail.None?
    ensures e.resp.reply.Sent? <==>
      && TicketAccepted(w, req)
      && var pending := req.activation_token.token.claims.user;
         FindByEmail(w.users, pending.email).None? && HasRequired(ActivatedUser(freshId, pending))
    ensures e.resp.reply.Sent? ==>
      && e.resp.reply == Sent(201, Created)
      && e.world == w.(users := w.users[freshId := ActivatedUser(freshId, req.activation_token.token.claims.user)])
    ensures !e.resp.reply.Sent? ==> e.world == w && e.resp.reply.Failed?
    ensures !TicketAccepted(w, req) && Verify(req.activation_token, Activation, w.now).Ok? ==>
      e.resp == Fail(InvalidActivationCode)
  {
    match Verify(req.activation_token, Activation, w.now)
    case Err(m) => Effect(w, Fail(m))
    case Ok(claims) =>
      if !claims.ActivationClaims? || claims.activationCode != req.activation_code then
        Effect(w, Fail(InvalidActivationCode))
      else
        var pending := claims.user;
        if FindByEmail(w.users, pending.email).Some? then
          Effect(w, Fail(EmailExists))
        else
          match Save(w.users, NewUser(freshId, pending.username, pending.email, Some(pending.password), None))
          case Err(m) => Effect(w, Fail(m))
          case Ok(users) => Effect(w.(users := users), Answer(Sent(201, Created)))
  }

  method ActivateUser(app: Server, req: ActivationRequest, freshId: string) returns (resp: Response)
    requires app.Valid() && freshId !in app.users
    modifies app
    ensures app.Valid()
    ensures ActivateEffect(old(app.State()), req, freshId) == Effect(app.State(), resp)
  {
    var newUser := Verify(req.activation_token, Activation, app.now);
    if newUser.Err? {
      return Fail(newUser.error);
    }
    if !newUser.value.ActivationClaims? || newUser.value.activationCode != req.activation_code {
      return Fail(InvalidActivationCode);
    }
    var pending := newUser.value.user;
    var existUser := app.FindOne(pending.email);
    if existUser.Some? {
      return Fail(EmailExists);
    }
    var user := app.SaveUser(NewUser(freshId, pending.username, pending.email, Some(pending.password), None));
    if user.Err? {
      return Fail(user.error);
    }
    resp := Answer(Sent(201, Created));
  }

  /**
   * `sendToken` (utils/jwt, not part of this model) is taken as: sign the access
   * and refresh tokens with the model's SignAccessToken and SignRefreshToken, set
   * both cookies, write the stringified user under its `_id`, and reply with the
   * user and the access token. This is an assumption, not the unseen code.
   */
  function SendTokenEffect(w: World, user: User, status: nat): (e: Effect)
    ensures e.world == w.(cache := w.cache[user._id := Stringify(user, w.jsonIncludesId)])
    ensures e.resp.cookies == Some(Jar(Signed(SignAccessToken(user, w.now)), Signed(SignRefreshToken(user, w.now))))
    ensures e.resp.reply == Sent(status, SessionOpened(user, SignAccessToken(user, w.now)))
  {
    var accessToken := SignAccessToken(user, w.now);
    var refreshToken := SignRefreshToken(user, w.now);
    Effect(w.(cache := w.cache[user._id := Stringify(user, w.jsonIncludesId)]),
      Response(Sent(status, SessionOpened(user, accessToken)), Some(Jar(Signed(accessToken), Signed(refreshToken))), None))
  }

  method SendToken(app: Server, user: User, status: nat) returns (resp: Response)
    modifies app
    ensures SendTokenEffect(old(app.State()), user, status) == Effect(app.State(), resp)
  {
    var accessToken := SignAccessToken(user, app.now);
    var refreshToken := SignRefreshToken(user, app.now);
    app.RedisSet(user._id, Stringify(user, app.jsonIncludesId));
    resp := Response(Sent(status, SessionOpened(user, accessToken)), Some(Jar(Signed(accessToken), Signed(refreshToken))), None);
  }

  /** The password of the account with this email matches `password`. */
  ghost predicate CredentialsMatch(w: World, email: string, password: string) {
    && FindByEmail(w.users, email).Some?
    && ComparePassword(w.users[FindByEmail(w.users, email).value], password) == Ok(true)
  }

  /**
   * `login`: blank fields first; an unknown email and a wrong password give one
   * and the same error; only a matching password reaches `sendToken`.
   */
  ghost function LoginEffect(w: World, req: LoginRequest): (e: Effect)
    ensures req.email == "" || req.password == "" ==> e == Effect(w, Fail(MissingCredentials))
    ensures req.email != "" && req.password != "" && FindByEmail(w.users, req.email).None? ==>
      e == Effect(w, Fail(InvalidCredentials))
    ensures e.resp.reply.Sent? <==> req.email != "" && req.password != "" && CredentialsMatch(w, req.email, req.password)
    ensures e.resp.reply.Sent? ==> e == SendTokenEffect(w, w.users[FindByEmail(w.users, req.email).value], 200)
    ensures !e.resp.reply.Sent? ==> e.world == w && e.resp.reply.Failed? && e.resp.cookies.None?
  {
    if req.email == "" || req.password == "" then
      Effect(w, Fail(MissingCredentials))
    else
      match FindByEmail(w.users, req.email)
      case None => Effect(w, Fail(InvalidCredentials))
      case Some(id) =>
        match ComparePassword(w.users[id], req.password)
        case Err(m) => Effect(w, Fail(m))
        case Ok(isPasswordMatch) =>
          if !isPasswordMatch then Effect(w, Fail(InvalidCredentials))
          else SendTokenEffect(w, w.users[id], 200)
  }

  method Login(app: Server, req: LoginRequest) returns (resp: Response)
    requires app.Valid()
    modifies app
    ensures app.Valid()
    ensures LoginEffect(old(app.State()), req) == Effect(app.State(), resp)
  {
    if req.email == "" || req.password == "" {
      return Fail(MissingCredentials);
    }
    var found := app.FindOne(req.email);
    if found.None? {
      return Fail(InvalidCredentials);
    }
    var user := app.users[found.value];
    var isPasswordMatch := ComparePassword(user, req.password);
    if isPasswordMatch.Err? {
      return Fail(isPasswordMatch.error);
    }
    if !isPasswordMatch.value {
      return Fail(InvalidCredentials);
    }
    resp := SendToken(app, user, 200);
  }

  /** The key `logout` deletes: `req.user?.id || ""`. */
  function LogoutKey(user: Json): (k: string)
    ensures user.UserDoc? && user.id.Some? ==> k == user.id.value
    ensures !(user.UserDoc? && user.id.Some?) ==> k == ""
    ensures user.UserDoc? && user.id.None? && user.user._id != "" ==> k != user.user._id
  {
    KeyOf(VirtualId(user))
  }

  /** `logout`: clears both cookies and deletes one cache key; the users are untouched. */
  function LogoutEffect(w: World, user: Json): (e: Effect)
    ensures e.world == w.(cache := w.cache - {LogoutKey(user)})
    ensures forall k :: k != LogoutKey(user) && k in w.cache ==> k in e.world.cache && e.world.cache[k] == w.cache[k]
    ensures e.resp == Response(Sent(200, LoggedOut), Some(Jar(Empty, Empty)), None)
  {
    Effect(w.(cache := w.cache - {LogoutKey(user)}), Response(Sent(200, LoggedOut), Some(Jar(Empty, Empty)), None))
  }

  method Logout(app: Server, user: Json) returns (resp: Response)
    modifies app
    ensures LogoutEffect(old(app.State()), user) == Effect(app.State(), resp)
  {
    var cleared := Jar(Empty, Empty);
    var userId := LogoutKey(user);
    app.RedisDel(userId);
    resp := Response(Sent(200, LoggedOut), Some(cleared), None);
  }

  /** The cache key a refresh cookie points at, when it verifies. */
  function RefreshKey(w: World, jar: Jar): Option<string> {
    match Verify(jar.refresh, Refresh, w.now)
    case Ok(decoded) => Some(KeyOf(ClaimedId(decoded)))
    case Err(_) => None
  }

  /**
   * `updateAccessToken`: needs a refresh token that verifies and a session under
   * its id; then rotates both tokens, each claiming the session's `_id`. It never
   * writes the cache.
   */
  function UpdateAccessTokenResponse(w: World, jar: Jar): (r: Response)
    ensures r.mail.None?
    ensures r.reply.Sent? <==>
      RefreshKey(w, jar).Some? && RefreshKey(w, jar).value in w.cache && !w.cache[RefreshKey(w, jar).value].Null?
    ensures RefreshKey(w, jar).Some? && RefreshKey(w, jar).value !in w.cache ==> r == Fail(CouldNotRefresh)
    ensures r.reply.Sent? ==>
      var id := UnderscoreId(w.cache[RefreshKey(w, jar).value]);
      var accessToken := Token(Access, IdClaims(id), w.now, Some(FiveMinutes));
      && r.reply == Sent(200, AccessIssued(accessToken))
      && r.cookies == Some(Jar(Signed(accessToken), Signed(Token(Refresh, IdClaims(id), w.now, Some(ThreeDays)))))
    ensures !r.reply.Sent? ==> r.reply.Failed? && r.cookies.None?
  {
    match Verify(jar.refresh, Refresh, w.now)
    case Err(m) => Fail(m)
    case Ok(decoded) =>
      var key := KeyOf(ClaimedId(decoded));
      if key !in w.cache then Fail(CouldNotRefresh)
      else
        var user := w.cache[key];
        if user.Null? then Fail(NullSessionId)
        else
          var accessToken := Sign(Access, IdClaims(UnderscoreId(user)), w.now, Some(FiveMinutes));
          var refreshToken := Sign(Refresh, IdClaims(UnderscoreId(user)), w.now, Some(ThreeDays));
          Response(Sent(200, AccessIssued(accessToken)), Some(Jar(Signed(accessToken), Signed(refreshToken))), None)
  }

  method UpdateAccessToken(app: Server, jar: Jar) returns (resp: Response)
    ensures resp == UpdateAccessTokenResponse(app.State(), jar)
  {
    var decoded := Verify(jar.refresh, Refresh, app.now);
    if decoded.Err? {
      return Fail(decoded.error);
    }
    var session := app.RedisGet(KeyOf(ClaimedId(decoded.value)));
    if session.None? {
      return Fail(CouldNotRefresh);
    }
    var user := session.value;
    if user.Null? {
      return Fail(NullSessionId);
    }
    var accessToken := Sign(Access, IdClaims(UnderscoreId(user)), app.now, Some(FiveMinutes));
    var refreshToken := Sign(Refresh, IdClaims(UnderscoreId(user)), app.now, Some(ThreeDays));
    resp := Response(Sent(200, AccessIssued(accessToken)), Some(Jar(Signed(accessToken), Signed(refreshToken))), None);
  }

  /** `getUserInfor`: the profile cached under `req.user?._id`, from the cache alone. */
  function GetUserInforResponse(w: World, user: Json): (r: Response)
    ensures r.cookies.None? && r.mail.None?
    ensures KeyOf(UnderscoreId(user)) in w.cache ==> r.reply == Sent(201, Profile(w.cache[KeyOf(UnderscoreId(user))]))
    ensures KeyOf(UnderscoreId(user)) !in w.cache ==> r.reply == Silent
  {
    Answer(ProfileReply(w.cache, KeyOf(UnderscoreId(user))))
  }

  method GetUserInfor(app: Server, user: Json) returns (resp: Response)
    ensures resp == GetUserInforResponse(app.State(), user)
  {
    var userId := KeyOf(UnderscoreId(user));
    var reply := GetUserById(app, userId);
    resp := Answer(reply);
  }

  /**
   * The document `socialLogin` creates: no password, so password login can never
   * succeed for it. The avatar string is dropped: under the default `strict`
   * mode, `create` skips a primitive value given for the nested `avatar` path.
   */
  function SocialUser(id: string, body: SocialLoginBody): (u: User)
    ensures u._id == id && u.username == body.username && u.email == body.email
    ensures u.password.None? && u.avatar.None? && u.role == DefaultRole && !u.isVerified
    ensures PreSave(u) == u
  {
    NewUser(id, body.username, body.email, None, None)
  }

  /**
   * `socialLogin`: the assertion is trusted; an existing account with the email
   * gets a session, otherwise a password-less account is created first.
   */
  ghost function SocialLoginEffect(w: World, body: SocialLoginBody, freshId: string): (e: Effect)
    requires freshId !in w.users
    ensures FindByEmail(w.users, body.email).Some? ==>
      e == SendTokenEffect(w, w.users[FindByEmail(w.users, body.email).value], 200)
    ensures FindByEmail(w.users, body.email).None? && HasRequired(SocialUser(freshId, body)) ==>
      e == SendTokenEffect(w.(users := w.users[freshId := SocialUser(freshId, body)]), SocialUser(freshId, body), 200)
    ensures FindByEmail(w.users, body.email).None? && !HasRequired(SocialUser(freshId, body)) ==>
      e == Effect(w, Fail(ValidationFailed))
  {
    match FindByEmail(w.users, body.email)
    case Some(id) => SendTokenEffect(w, w.users[id], 200)
    case None =>
      var doc := SocialUser(freshId, body);
      match Save(w.users, doc)
      case Err(m) => Effect(w, Fail(m))
      case Ok(users) => SendTokenEffect(w.(users := users), PreSave(doc), 200)
  }

  method SocialLogin(app: Server, body: SocialLoginBody, freshId: string) returns (resp: Response)
    requires app.Valid() && freshId !in app.users
    modifies app
    ensures app.Valid()
    ensures SocialLoginEffect(old(app.State()), body, freshId) == Effect(app.State(), resp)
  {
    var found := app.FindOne(body.email);
    if found.None? {
      var newUser := app.SaveUser(SocialUser(freshId, body));
      if newUser.Err? {
        return Fail(newUser.error);
      }
      resp := SendToken(app, newUser.value, 200);
    } else {
      resp := SendToken(app, app.users[found.value], 200);
    }
  }

  /** The document as `updateUserInfo` has edited it before saving. */
  function EditedUser(doc: User, body: UpdateUserInfoBody): (u: User)
    ensures u.(email := doc.email, username := doc.username) == doc
    ensures u.email == if body.email != "" then body.email else doc.email
    ensures u.username == if body.username != "" then body.username else doc.username
  {
    var withEmail := if body.email != "" then doc.(email := body.email) else doc;
    if body.username != "" then withEmail.(username := body.username) else withEmail
  }

  /**
   * `updateUserInfo`. A taken email sends 400 yet is still assigned; the save
   * then fails on the unique index unless the holder is the user itself. On a
   * successful save the stringified document replaces the cache entry under
   * `_id`. When no user has that `_id`, "null" is cached instead.
   */
  ghost function UpdateUserInfoEffect(w: World, user: Json, body: UpdateUserInfoBody): (e: Effect)
    ensures e.world.courses == w.courses && e.world.now == w.now && e.world.jsonIncludesId == w.jsonIncludesId
    ensures e.resp.cookies.None? && e.resp.mail.None?
    ensures !(UnderscoreId(user).Some? && UnderscoreId(user).value in w.users) ==>
      e == Effect(w.(cache := w.cache[KeyOf(UnderscoreId(user)) := Null]), Answer(Sent(201, Profile(Null))))
    ensures UnderscoreId(user).Some? && UnderscoreId(user).value in w.users ==>
      var id := UnderscoreId(user).value;
      var doc := EditedUser(w.users[id], body);
      var taken := body.email != "" && FindByEmail(w.users, body.email).Some?;
      && (taken ==> e.resp.reply == Sent(400, EmailTaken))
      && (Save(w.users, doc).Err? ==> e.world == w)
      && (Save(w.users, doc).Ok? ==>
            && e.world.users == w.users[doc._id := PreSave(doc)]
            && e.world.cache == w.cache[id := Stringify(PreSave(doc), w.jsonIncludesId)]
            && (!taken ==> e.resp.reply == Sent(201, Profile(Stringify(PreSave(doc), w.jsonIncludesId)))))
  {
    var userId := UnderscoreId(user);
    var key := KeyOf(userId);
    if !(userId.Some? && userId.value in w.users) then
      Effect(w.(cache := w.cache[key := Null]), Answer(Sent(201, Profile(Null))))
    else
      var doc := EditedUser(w.users[userId.value], body);
      var taken := body.email != "" && FindByEmail(w.users, body.email).Some?;
      match Save(w.users, doc)
      case Err(_) => Effect(w, Answer(if taken then Sent(400, EmailTaken) else Silent))
      case Ok(users) =>
        var snapshot := Stringify(PreSave(doc), w.jsonIncludesId);
        Effect(w.(users := users, cache := w.cache[key := snapshot]),
          Answer(if taken then Sent(400, EmailTaken) else Sent(201, Profile(snapshot))))
  }

  method UpdateUserInfo(app: Server, user: Json, body: UpdateUserInfoBody) returns (resp: Response)
    requires app.Valid()
    modifies app
    ensures app.Valid()
    ensures UpdateUserInfoEffect(old(app.State()), user, body) == Effect(app.State(), resp)
  {
    var userId := UnderscoreId(user);
    var found := app.FindById(userId);
    if found.None? {
      app.RedisSet(KeyOf(userId), Null);
      return Answer(Sent(201, Profile(Null)));
    }
    var doc := found.value;
    var first: Option<Reply> := None;
    if body.email != "" {
      var isEmailExist := app.FindOne(body.email);
      if isEmailExist.Some? {
        first := Some(Sent(400, EmailTaken));
      }
      doc := doc.(email := body.email);
    }
    if body.username != "" {
      doc := doc.(username := body.username);
    }
    var saved := app.SaveUser(doc);
    if saved.Err? {
      // the catch block only logs the error
      return Answer(first.GetOr(Silent));
    }
    var snapshot := Stringify(saved.value, app.jsonIncludesId);
    app.RedisSet(KeyOf(userId), snapshot);
    resp := Answer(first.GetOr(Sent(201, Profile(snapshot))));
  }
}
