/**
 * Properties that span several requests: the activation protocol, the session
 * lifecycle through login, refresh and logout, the password lock-out after a
 * profile update, and what the shared Redis keyspace does to both.
 */
module Sessions {
  import opened Wrappers
  import Bcrypt
  import opened Decimal
  import opened Jwt
  import opened UserModel
  import opened Store
  import opened Http
  import opened Auth
  import opened UserController
  import opened UserRoute

  // ---------------------------------------------------------------------------
  // Activation
  // ---------------------------------------------------------------------------

  /**
   * The activation code is the bare decimal numeral of the draw: a draw of 7
   * gives the one-digit code "7", and the largest draw a seven-digit code.
   */
  lemma CodeIsNotAlwaysFourDigits(user: Registration, now: nat)
    ensures CreateActivationToken(user, 7, now).activationCode == "7"
    ensures |CreateActivationToken(user, 8999999, now).activationCode| == 7
  {
    DecimalLength(8999999, 6);
  }

  /**
   * The response to a signup whose ticket is then confirmed within five minutes
   * with the mailed code, while the email is still free, creates exactly the
   * registered account, with the password hashed once; logging in with the
   * registered email and password then succeeds.
   */
  lemma {:induction false} SignupActivateLogin(w: World, reg: Registration, draw: nat, wait: nat, id: string)
    requires ValidWorld(w) && draw < CodeRange && id !in w.users && wait < FiveMinutes
    requires FindByEmail(w.users, reg.email).None?
    requires reg.username != "" && reg.email != "" && reg.password != ""
    ensures var s := SignupResponse(w, reg, draw);
      var later := w.(now := w.now + wait);
      var a := ActivateEffect(later, ActivationRequest(Signed(s.reply.body.activationToken), s.mail.value.activationCode), id);
      && a.resp.reply == Sent(201, Created)
      && a.world.users == w.users[id := ActivatedUser(id, reg)]
      && LoginEffect(a.world, LoginRequest(reg.email, reg.password)).resp.reply.Sent?
  {
    var s := SignupResponse(w, reg, draw);
    var later := w.(now := w.now + wait);
    var req := ActivationRequest(Signed(s.reply.body.activationToken), s.mail.value.activationCode);
    assert TicketAccepted(later, req);
    var a := ActivateEffect(later, req, id);
    var u := ActivatedUser(id, reg);
    assert a.world.users == w.users[id := u];
    SavePreservesWellFormed(w.users, NewUser(id, reg.username, reg.email, Some(reg.password), None));
    FindOwnEmail(a.world.users, id);
    Bcrypt.CompareHash(reg.password, reg.password);
    assert CredentialsMatch(a.world, reg.email, reg.password);
  }

  /** A supplied code that differs from the ticket's, as a string, is refused and creates nobody. */
  lemma WrongCodeRefused(w: World, t: Token, code: string, id: string)
    requires id !in w.users
    requires t.kind == Activation && Unexpired(t, w.now) && t.claims.ActivationClaims?
    requires code != t.claims.activationCode
    ensures ActivateEffect(w, ActivationRequest(Signed(t), code), id) == Effect(w, Fail(InvalidActivationCode))
  {
  }

  /** The comparison is strict: the zero-padded form of a code is a different code. */
  lemma PaddedCodeRefused(w: World, reg: Registration, draw: nat, id: string)
    requires id !in w.users && draw < CodeRange
    ensures var t := CreateActivationToken(reg, draw, w.now);
      ActivateEffect(w, ActivationRequest(Signed(t.token), "0" + t.activationCode), id) == Effect(w, Fail(InvalidActivationCode))
  {
    var t := CreateActivationToken(reg, draw, w.now);
    assert |"0" + t.activationCode| != |t.activationCode|;
  }

  /** Once five minutes have passed the ticket is refused as expired, whatever code comes with it. */
  lemma ExpiredTicketRefused(w: World, t: Token, code: string, id: string)
    requires id !in w.users
    requires t.kind == Activation && t.ttl == Some(FiveMinutes) && w.now >= t.issuedAt + FiveMinutes
    ensures ActivateEffect(w, ActivationRequest(Signed(t), code), id) == Effect(w, Fail(Expired))
  {
  }

  /** Access and refresh tokens are not activation tickets. */
  lemma SessionTokenIsNoTicket(w: World, t: Token, code: string, id: string)
    requires id !in w.users && t.kind != Activation
    ensures ActivateEffect(w, ActivationRequest(Signed(t), code), id) == Effect(w, Fail(BadSignature))
  {
  }

  /**
   * Replaying a ticket that has already been used fails at any later time: with
   * "Email already exist" while the ticket is live, with "jwt expired" after.
   * Either way no second account is created.
   */
  lemma {:induction false} ReplayedActivationFails(w: World, req: ActivationRequest, id1: string, id2: string, later: nat)
    requires ValidWorld(w) && id1 !in w.users
    requires ActivateEffect(w, req, id1).resp.reply.Sent?
    requires id2 !in ActivateEffect(w, req, id1).world.users && later >= w.now
    ensures var w1 := ActivateEffect(w, req, id1).world.(now := later);
      var e := ActivateEffect(w1, req, id2);
      && e.world == w1
      && (Unexpired(req.activation_token.token, later) ==> e.resp == Fail(EmailExists))
      && (!Unexpired(req.activation_token.token, later) ==> e.resp == Fail(Expired))
  {
    var pending := req.activation_token.token.claims.user;
    var w1 := ActivateEffect(w, req, id1).world.(now := later);
    assert w1.users[id1].email == pending.email;
  }

  // ---------------------------------------------------------------------------
  // Login and the session
  // ---------------------------------------------------------------------------

  /** An unknown email and a wrong password are answered identically. */
  lemma LoginErrorsIndistinguishable(w: World, req: LoginRequest)
    requires req.email != "" && req.password != ""
    requires FindByEmail(w.users, req.email).None? ||
      (var u := w.users[FindByEmail(w.users, req.email).value];
       u.password.Some? && !Bcrypt.Compare(req.password, u.password.value))
    ensures LoginEffect(w, req) == Effect(w, Fail(InvalidCredentials))
  {
  }

  /**
   * The cookies a session is opened with pass the gate at any later time, for as
   * long as the session entry stays in the cache: the tokens carry no expiry.
   */
  lemma SessionCookiesAuthenticate(w: World, u: User, later: nat)
    ensures var e := SendTokenEffect(w, u, 200);
      Authenticate(e.world.(now := later), Receive(NoCookies, e.resp)) == Ok(Stringify(u, w.jsonIncludesId))
  {
  }

  /** A successful login leaves a session that authenticates the logged-in user. */
  lemma LoginThenAuthenticate(w: World, req: LoginRequest, jar: Jar, later: nat)
    requires LoginEffect(w, req).resp.reply.Sent?
    ensures var e := LoginEffect(w, req);
      var u := w.users[FindByEmail(w.users, req.email).value];
      Authenticate(e.world.(now := later), Receive(jar, e.resp)) == Ok(Stringify(u, w.jsonIncludesId))
  {
    var u := w.users[FindByEmail(w.users, req.email).value];
    SessionCookiesAuthenticate(w, u, later);
  }

  /**
   * `/me` after login returns the cached document as it is, password digest
   * included: nothing is removed from the profile.
   */
  lemma ProfileExposesDigest(w: World, u: User, jar: Jar, env: Oracle)
    requires Admissible(SendTokenEffect(w, u, 200).world, env)
    ensures var s := SendTokenEffect(w, u, 200);
      var me := Dispatch(s.world, GetMe, Request(Receive(jar, s.resp), Fields("", "", "", "", Absent, "")), env);
      && me.world == s.world
      && me.resp.reply == Sent(201, Profile(Stringify(u, w.jsonIncludesId)))
      && me.resp.reply.body.profile.user.password == u.password
  {
  }

  /**
   * A refresh succeeds on a live session and rotates both tokens; the new access
   * token passes the gate for five minutes and is refused as expired after.
   */
  lemma RefreshRotates(w: World, u: User, jar: Jar, t: nat)
    ensures var s := SendTokenEffect(w, u, 200);
      var r := UpdateAccessTokenResponse(s.world, Receive(jar, s.resp));
      var next := Receive(jar, r);
      && r.reply.Sent?
      && next.access.token.kind == Access && next.refresh.token.kind == Refresh
      && next.access.token.claims == IdClaims(Some(u._id)) && next.refresh.token.claims == IdClaims(Some(u._id))
      && (t < w.now + FiveMinutes ==> Authenticate(s.world.(now := t), next) == Ok(Stringify(u, w.jsonIncludesId)))
      && (t >= w.now + FiveMinutes ==> Authenticate(s.world.(now := t), next) == Err(Expired))
  {
  }

  /** A refresh asks only for a refresh token: an access token in the refresh cookie is refused. */
  lemma RefreshRefusesAccessToken(w: World, u: User)
    ensures var s := SendTokenEffect(w, u, 200);
      UpdateAccessTokenResponse(s.world, Jar(Absent, s.resp.cookies.value.access)) == Fail(BadSignature)
  {
  }

  /** A refresh token in the access cookie does not pass the gate. */
  lemma GateRefusesRefreshToken(w: World, u: User)
    ensures var s := SendTokenEffect(w, u, 200);
      Authenticate(s.world, Jar(s.resp.cookies.value.refresh, Absent)) == Err(BadSignature)
  {
  }

  /** Having a valid token is not enough: without the cache entry the gate refuses and refresh fails. */
  lemma TokenWithoutSession(w: World, u: User, later: nat)
    requires u._id !in w.cache
    ensures var jar := Jar(Signed(SignAccessToken(u, w.now)), Signed(SignRefreshToken(u, w.now)));
      var w1 := w.(now := later);
      && Authenticate(w1, jar) == Err(UserNotFound)
      && UpdateAccessTokenResponse(w1, jar) == Fail(CouldNotRefresh)
  {
  }

  // ---------------------------------------------------------------------------
  // Logout
  // ---------------------------------------------------------------------------

  /** The browser's state and a request carrying it. */
  function WithCookies(jar: Jar): Request {
    Request(jar, Fields("", "", "", "", Absent, ""))
  }

  /**
   * When stringified sessions carry the virtual `id`, logout deletes the session:
   * afterwards even cookies kept from before the logout can neither pass the
   * gate nor refresh, and the cleared cookies cannot either.
   */
  lemma LogoutRevokesWithVirtualId(w: World, u: User, env: Oracle, later: nat)
    requires w.jsonIncludesId
    requires Admissible(SendTokenEffect(w, u, 200).world, env)
    ensures var s := SendTokenEffect(w, u, 200);
      var kept := Receive(NoCookies, s.resp);
      var out := Dispatch(s.world, GetLogout, WithCookies(kept), env);
      var w2 := out.world.(now := later);
      && out.resp.reply == Sent(200, LoggedOut)
      && u._id !in out.world.cache
      && out.world.users == w.users
      && Authenticate(w2, kept) == Err(UserNotFound)
      && UpdateAccessTokenResponse(w2, kept) == Fail(CouldNotRefresh)
      && UpdateAccessTokenResponse(w2, Receive(kept, out.resp)) == Fail(NotProvided)
      && Authenticate(w2, Receive(kept, out.resp)) == Err(LoginRequired)
  {
  }

  /**
   * With Mongoose's default serialiser the session lacks `id`, so logout deletes
   * the key "" and the session survives: cookies kept from before the logout
   * still pass the gate and still refresh.
   */
  lemma LogoutKeepsSessionWithoutVirtualId(w: World, u: User, env: Oracle, later: nat)
    requires !w.jsonIncludesId && u._id != ""
    requires Admissible(SendTokenEffect(w, u, 200).world, env)
    ensures var s := SendTokenEffect(w, u, 200);
      var kept := Receive(NoCookies, s.resp);
      var out := Dispatch(s.world, GetLogout, WithCookies(kept), env);
      var w2 := out.world.(now := later);
      && out.resp.reply == Sent(200, LoggedOut)
      && out.world.cache == s.world.cache - {""}
      && Authenticate(w2, kept) == Ok(Stringify(u, false))
      && UpdateAccessTokenResponse(w2, kept).reply.Sent?
  {
  }

  // ---------------------------------------------------------------------------
  // Social login and profile updates
  // ---------------------------------------------------------------------------

  /**
   * Social login asks for no secret: naming the email of any existing account,
   * one with a password included, opens a session for that account.
   */
  lemma SocialLoginTrustsEmail(w: World, body: SocialLoginBody, freshId: string)
    requires ValidWorld(w) && freshId !in w.users
    requires FindByEmail(w.users, body.email).Some?
    ensures var id := FindByEmail(w.users, body.email).value;
      var e := SocialLoginEffect(w, body, freshId);
      && e.world.users == w.users
      && e.world.cache == w.cache[id := Stringify(w.users[id], w.jsonIncludesId)]
      && Authenticate(e.world, Receive(NoCookies, e.resp)) == Ok(Stringify(w.users[id], w.jsonIncludesId))
  {
    var id := FindByEmail(w.users, body.email).value;
    SessionCookiesAuthenticate(w, w.users[id], w.now);
  }

  /**
   * An account created by social login has no password, so a password login on
   * it fails with bcrypt's own error, not with "Invalid email or password".
   */
  lemma SocialAccountRefusesPasswordLogin(w: World, body: SocialLoginBody, freshId: string, password: string)
    requires ValidWorld(w) && freshId !in w.users && password != ""
    requires FindByEmail(w.users, body.email).None? && HasRequired(SocialUser(freshId, body))
    ensures var e := SocialLoginEffect(w, body, freshId);
      LoginEffect(e.world, LoginRequest(body.email, password)) == Effect(e.world, Fail(HashArgumentsRequired))
  {
    var u := SocialUser(freshId, body);
    SavePreservesWellFormed(w.users, u);
    var e := SocialLoginEffect(w, body, freshId);
    FindOwnEmail(e.world.users, freshId);
  }

  /**
   * A successful profile update re-saves the document, and the save hook hashes
   * the stored digest again: the account's password stops working, for login
   * through the new or the old email alike.
   */
  lemma {:induction false} UpdateLocksOutPassword(w: World, id: string, plain: string, body: UpdateUserInfoBody)
    requires ValidWorld(w) && id in w.users && plain != ""
    requires w.users[id].password == Some(Bcrypt.Hash(plain))
    requires Save(w.users, EditedUser(w.users[id], body)).Ok?
    ensures var e := UpdateUserInfoEffect(w, UserDoc(w.users[id], None), body);
      && e.world.users[id].password == Some(Bcrypt.Hash(Bcrypt.Hash(plain)))
      && LoginEffect(e.world, LoginRequest(e.world.users[id].email, plain)) == Effect(e.world, Fail(InvalidCredentials))
  {
    var doc := EditedUser(w.users[id], body);
    var e := UpdateUserInfoEffect(w, UserDoc(w.users[id], None), body);
    assert e.world.users == w.users[id := PreSave(doc)];
    SavePreservesWellFormed(w.users, doc);
    FindOwnEmail(e.world.users, id);
    Bcrypt.RehashLocksOut(plain);
  }

  /**
   * Asking for an email another account holds answers 400 and then the unique
   * index refuses the save: neither the collection nor the cache changes.
   */
  lemma UpdateToTakenEmail(w: World, id: string, other: string, body: UpdateUserInfoBody)
    requires ValidWorld(w) && id in w.users && other in w.users && other != id
    requires body.email == w.users[other].email
    ensures var e := UpdateUserInfoEffect(w, UserDoc(w.users[id], None), body);
      e == Effect(w, Answer(Sent(400, EmailTaken)))
  {
    FindOwnEmail(w.users, other);
    assert EmailTakenByOther(w.users, EditedUser(w.users[id], body));
  }

  /**
   * Re-submitting the account's own email is also answered 400, yet the save
   * succeeds and the cache entry is replaced.
   */
  lemma UpdateToOwnEmail(w: World, id: string, body: UpdateUserInfoBody)
    requires ValidWorld(w) && id in w.users
    requires body.email == w.users[id].email
    ensures var e := UpdateUserInfoEffect(w, UserDoc(w.users[id], None), body);
      var saved := PreSave(EditedUser(w.users[id], body));
      && e.resp.reply == Sent(400, EmailTaken)
      && e.world.users == w.users[id := saved]
      && e.world.cache == w.cache[id := Stringify(saved, w.jsonIncludesId)]
  {
    FindOwnEmail(w.users, id);
    assert !EmailTakenByOther(w.users, EditedUser(w.users[id], body));
  }
}
