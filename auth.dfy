/**
 * The `isAuthenticated` gate (backend/middlewares/auth.ts): access cookie, then
 * token verification against the access secret, then the session lookup in
 * Redis, then the parsed session becomes `req.user`.
 */
module Auth {
  import opened Wrappers
  import opened Jwt
  import opened Store
  import opened Http

  const LoginRequired := "Please login to access"
  const UserNotFound := "User not found"

  /** The Redis key the claims of a verified token point at: `decoded.id`. */
  function SessionKey(c: Claims): string {
    KeyOf(ClaimedId(c))
  }

  /**
   * The gate as a function of the state: the request user, or the error passed
   * to `next`. It reads only the cache and the clock.
   */
  function Authenticate(w: World, jar: Jar): (r: Result<Json, string>)
    ensures jar.access.Absent? || jar.access.Empty? ==> r == Err(LoginRequired)
    ensures jar.access.Malformed? ==> r == Err(MalformedJwt)
    ensures jar.access.Signed? && jar.access.token.kind != Access ==> r == Err(BadSignature)
    ensures jar.access.Signed? && jar.access.token.kind == Access && !Unexpired(jar.access.token, w.now) ==> r == Err(Expired)
    ensures r.Ok? ==> jar.access.Signed? && jar.access.token.kind == Access && Unexpired(jar.access.token, w.now)
    ensures r.Ok? <==> jar.access.Signed? && Verify(jar.access, Access, w.now).Ok? && SessionKey(jar.access.token.claims) in w.cache
    ensures r.Ok? ==> r.value == w.cache[SessionKey(jar.access.token.claims)]
    ensures r.Err? && jar.access.Signed? && Verify(jar.access, Access, w.now).Ok? ==> r == Err(UserNotFound)
  {
    match jar.access
    case Absent => Err(LoginRequired)
    case Empty => Err(LoginRequired)
    case Malformed => Err(MalformedJwt)
    case Signed(_) =>
      match Verify(jar.access, Access, w.now)
      case Err(m) => Err(m)
      case Ok(decoded) =>
        var key := SessionKey(decoded);
        if key in w.cache then Ok(w.cache[key]) else Err(UserNotFound)
  }

  /** The middleware itself; it has no `modifies` clause, so it changes no store. */
  method IsAuthenticated(app: Server, jar: Jar) returns (r: Result<Json, string>)
    ensures r == Authenticate(app.State(), jar)
  {
    if jar.access.Absent? || jar.access.Empty? {
      return Err(LoginRequired);
    }
    var decoded := Verify(jar.access, Access, app.now);
    if decoded.Err? {
      return Err(decoded.error);
    }
    var user := app.RedisGet(SessionKey(decoded.value));
    if user.None? {
      return Err(UserNotFound);
    }
    r := Ok(user.value);
  }

  /** The gate never consults the users collection or the course collection. */
  lemma GateIgnoresCollections(w: World, jar: Jar, users: map<string, UserModel.User>, courses: seq<CourseModel.Course>)
    ensures Authenticate(w.(users := users, courses := courses), jar) == Authenticate(w, jar)
  {
  }
}
