/**
 * What a request handler hands back to the outside world: the HTTP reply, the
 * cookies it sets and the mail it sends. Express plumbing (status helpers,
 * cookie options) is reduced to these values.
 */
module Http {
  import opened Wrappers
  import opened Jwt
  import opened UserModel
  import opened Store

  /** The browser's `access_token` and `refresh_token` cookies. */
  datatype Jar = Jar(access: TokenText, refresh: TokenText)

  const NoCookies: Jar := Jar(Absent, Absent)

  /** JSON bodies of successful replies. */
  datatype Body =
    | ActivationIssued(email: string, activationToken: Token)
    | Created
    | SessionOpened(user: User, accessToken: Token)
    | LoggedOut
    | AccessIssued(accessToken: Token)
    | Profile(profile: Json)
    | EmailTaken
    | CourseView(course: Json)
    | CourseListView(courses: Json)

  /** A status and body, an error passed on (thrown or `next(err)`), or no reply at all. */
  datatype Reply = Sent(status: nat, body: Body) | Failed(message: string) | Silent

  /** The activation mail: its recipient and the template data. */
  datatype Mail = ActivationMail(to: string, username: string, activationCode: string)

  /** `cookies` is Some when the handler sets both cookies, to the values given. */
  datatype Response = Response(reply: Reply, cookies: Option<Jar>, mail: Option<Mail>)

  /** A handler's new state and its response. */
  datatype Effect = Effect(world: World, resp: Response)

  function Fail(message: string): Response {
    Response(Failed(message), None, None)
  }

  function Answer(r: Reply): Response {
    Response(r, None, None)
  }

  /** The browser's cookies once it has received `resp`. */
  function Receive(jar: Jar, resp: Response): Jar {
    resp.cookies.GetOr(jar)
  }
}
