/** `POST /api/auth/logout`: deletes the three session cookies and answers
    `{ success: true }`. */
module LogoutRoute {
  import opened Common
  import opened Json
  import opened SessionCookies
  import MeRoute

  datatype LogoutResult = LogoutResult(cookies: Cookies, success: bool)

  /** The route handler. Deleting a cookie that is not there is not an error. */
  function Post(cookies: Cookies): (r: LogoutResult)
    ensures r.success
    ensures forall name :: name in r.cookies <==> name in cookies && name !in SessionCookieNames
    ensures forall name :: name in r.cookies ==> r.cookies[name] == cookies[name]
  {
    var afterToken := cookies - {TokenCookie};
    var afterUser := afterToken - {UserCookie};
    var afterGuilds := afterUser - {GuildsCookie};
    LogoutResult(afterGuilds, true)
  }

  /** Logging out twice leaves the same cookies as logging out once. */
  lemma LogoutIdempotent(cookies: Cookies)
    ensures Post(Post(cookies).cookies) == Post(cookies)
  {
  }

  /** No session survives logout: the session read that follows is a 401,
      whatever the cookies held before and whatever the parsers would say. */
  lemma NoSessionAfterLogout(cookies: Cookies, parseJson: string -> Option<Json>,
                             toBigInt: Json -> Option<int>)
    ensures MeRoute.Get(Post(cookies).cookies, parseJson, toBigInt) == MeRoute.NotAuthenticated
    ensures MeRoute.Get(Post(cookies).cookies, parseJson, toBigInt).Status() == 401
  {
  }
}
