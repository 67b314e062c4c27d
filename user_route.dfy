/**
 * The user router (backend/routes/user.route.ts): a fixed table from route to
 * middleware chain, and the dispatch that runs `isAuthenticated` first on the
 * gated routes. Request bodies are one record of the fields any route reads.
 */
module UserRoute {
  import opened Wrappers
  import opened Jwt
  import opened UserModel
  import opened Store
  import opened Http
  import opened Auth
  import opened UserController

  datatype Route =
    | PostSignup | PostActivateUser | PostLogin | GetLogout | GetRefreshToken
    | GetMe | PostSocialLogin | PutUpdateUser | PutChangePassword

  /** The controller a route ends in; `Unbound` is the imported `changePassword`, which the controller does not define. */
  datatype Handler =
    | SignupHandler | ActivateUserHandler | LoginHandler | LogoutHandler | UpdateAccessTokenHandler
    | GetUserInforHandler | SocialLoginHandler | UpdateUserInfoHandler | Unbound

  datatype Chain = Chain(verb: string, path: string, gated: bool, handler: Handler)

  /** The model's own reply for the unbound route; the program as written does not start at all. */
  const Unregistered := "changePassword is not defined"

  const AllRoutes: seq<Route> :=
    [PostSignup, PostActivateUser, PostLogin, GetLogout, GetRefreshToken, GetMe, PostSocialLogin, PutUpdateUser, PutChangePassword]

  function Table(r: Route): (c: Chain)
    ensures c.gated <==> r in {GetLogout, GetMe, PutUpdateUser, PutChangePassword}
    ensures c.handler.Unbound? <==> r == PutChangePassword
  {
    match r
    case PostSignup => Chain("POST", "/signup", false, SignupHandler)
    case PostActivateUser => Chain("POST", "/activate-user", false, ActivateUserHandler)
    case PostLogin => Chain("POST", "/login", false, LoginHandler)
    case GetLogout => Chain("GET", "/logout", true, LogoutHandler)
    case GetRefreshToken => Chain("GET", "/refresh-token", false, UpdateAccessTokenHandler)
    case GetMe => Chain("GET", "/me", true, GetUserInforHandler)
    case PostSocialLogin => Chain("POST", "/social-login", false, SocialLoginHandler)
    case PutUpdateUser => Chain("PUT", "/update-user", true, UpdateUserInfoHandler)
    case PutChangePassword => Chain("PUT", "/change-password", true, Unbound)
  }

  /** No two routes share a verb and a path, so the table is unambiguous. */
  lemma RoutesDistinct()
    ensures forall i, j :: 0 <= i < j < |AllRoutes| ==>
      (Table(AllRoutes[i]).verb, Table(AllRoutes[i]).path) != (Table(AllRoutes[j]).verb, Table(AllRoutes[j]).path)
  {
  }

  /** Every field a user route reads from `req.body`; "" stands for a missing field. */
  datatype Fields = Fields(
    username: string, email: string, password: string, avatar: string,
    activation_token: TokenText, activation_code: string)

  datatype Request = Request(jar: Jar, body: Fields)

  /** The nondeterminism one request may draw on: a fresh ObjectId and the random code. */
  datatype Oracle = Oracle(freshId: string, draw: nat)

  ghost predicate Admissible(w: World, env: Oracle) {
    env.freshId !in w.users && env.draw < CodeRange
  }

  /** The handler at the end of a chain, given `req.user` as the gate left it. */
  ghost function Run(w: World, h: Handler, user: Json, req: Request, env: Oracle): Effect
    requires Admissible(w, env)
  {
    var b := req.body;
    match h
    case SignupHandler => Effect(w, SignupResponse(w, Registration(b.username, b.email, b.password), env.draw))
    case ActivateUserHandler => ActivateEffect(w, ActivationRequest(b.activation_token, b.activation_code), env.freshId)
    case LoginHandler => LoginEffect(w, LoginRequest(b.email, b.password))
    case LogoutHandler => LogoutEffect(w, user)
    case UpdateAccessTokenHandler => Effect(w, UpdateAccessTokenResponse(w, req.jar))
    case GetUserInforHandler => Effect(w, GetUserInforResponse(w, user))
    case SocialLoginHandler => SocialLoginEffect(w, SocialLoginBody(b.username, b.email, b.avatar), env.freshId)
    case UpdateUserInfoHandler => UpdateUserInfoEffect(w, user, UpdateUserInfoBody(b.username, b.email))
    case Unbound => Effect(w, Fail(Unregistered))
  }

  /**
   * One request through its chain. On a gated route a failing gate answers with
   * its error and nothing changes; an ungated route runs with `req.user` unset.
   */
  ghost function Dispatch(w: World, route: Route, req: Request, env: Oracle): (e: Effect)
    requires Admissible(w, env)
    ensures Table(route).gated && Authenticate(w, req.jar).Err? ==>
      e == Effect(w, Fail(Authenticate(w, req.jar).error))
    ensures Table(route).gated && Authenticate(w, req.jar).Ok? ==>
      e == Run(w, Table(route).handler, Authenticate(w, req.jar).value, req, env)
    ensures !Table(route).gated ==> e == Run(w, Table(route).handler, Null, req, env)
  {
    var chain := Table(route);
    if chain.gated then
      match Authenticate(w, req.jar)
      case Err(m) => Effect(w, Fail(m))
      case Ok(user) => Run(w, chain.handler, user, req, env)
    else
      Run(w, chain.handler, Null, req, env)
  }

  /** Logout's cache deletion is reached only through a passing gate. */
  lemma LogoutNeedsSession(w: World, req: Request, env: Oracle)
    requires Admissible(w, env)
    ensures Authenticate(w, req.jar).Err? ==> Dispatch(w, GetLogout, req, env).world == w
    ensures Authenticate(w, req.jar).Ok? ==>
      Dispatch(w, GetLogout, req, env).world.cache == w.cache - {LogoutKey(Authenticate(w, req.jar).value)}
  {
  }

  /** The refresh route is not gated: its outcome does not depend on the access cookie. */
  lemma RefreshIgnoresAccessCookie(w: World, req: Request, env: Oracle, access: TokenText)
    requires Admissible(w, env)
    ensures Dispatch(w, GetRefreshToken, req, env) == Dispatch(w, GetRefreshToken, req.(jar := req.jar.(access := access)), env)
    ensures Dispatch(w, GetRefreshToken, req, env).world == w
  {
  }

  /** The change-password route never changes the state, whatever the gate says. */
  lemma ChangePasswordChangesNothing(w: World, req: Request, env: Oracle)
    requires Admissible(w, env)
    ensures Dispatch(w, PutChangePassword, req, env).world == w
    ensures Dispatch(w, PutChangePassword, req, env).resp.reply.Failed?
  {
  }

  /** Every user route keeps the users collection keyed by `_id`, complete and email-unique. */
  lemma {:induction false} DispatchPreservesValid(w: World, route: Route, req: Request, env: Oracle)
    requires ValidWorld(w) && Admissible(w, env)
    ensures ValidWorld(Dispatch(w, route, req, env).world)
  {
    var b := req.body;
    var user := if Table(route).gated && Authenticate(w, req.jar).Ok? then Authenticate(w, req.jar).value else Null;
    if Table(route).gated && Authenticate(w, req.jar).Err? {
      return;
    }
    match Table(route).handler
    case ActivateUserHandler =>
      var r := ActivationRequest(b.activation_token, b.activation_code);
      var e := ActivateEffect(w, r, env.freshId);
      if e.resp.reply.Sent? {
        var pending := r.activation_token.token.claims.user;
        var doc := NewUser(env.freshId, pending.username, pending.email, Some(pending.password), None);
        SavePreservesWellFormed(w.users, doc);
      }
    case SocialLoginHandler =>
      var body := SocialLoginBody(b.username, b.email, b.avatar);
      if FindByEmail(w.users, b.email).None? && HasRequired(SocialUser(env.freshId, body)) {
        SavePreservesWellFormed(w.users, SocialUser(env.freshId, body));
      }
    case UpdateUserInfoHandler =>
      var id := UnderscoreId(user);
      if id.Some? && id.value in w.users {
        var doc := EditedUser(w.users[id.value], UpdateUserInfoBody(b.username, b.email));
        if Save(w.users, doc).Ok? {
          SavePreservesWellFormed(w.users, doc);
        }
      }
    case _ =>
  }
}
