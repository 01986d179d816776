/** The unvalidated login route (`app/api/auth/discord/route.ts`): the same
    authorize URL, built from whatever the environment holds, with no checks. */
module DiscordRoute {
  import opened Common
  import opened SearchParams
  import opened OAuthConfig
  import CallbackRoute

  /** `DISCORD_CLIENT_ID || ""`. */
  function ClientIdOrEmpty(clientId: Option<string>): string {
    if Truthy(clientId) then clientId.value else ""
  }

  /** The route handler: always a redirect to the authorize endpoint. */
  function Get(env: Env): (r: Redirect)
    ensures r.ToAuthorize?
    ensures r.url.base == AuthorizeEndpoint
    ensures SearchParams.Get(r.url.query, "client_id")
              == Some(match env.clientId case Some(id) => id case None => "")
    ensures SearchParams.Get(r.url.query, "redirect_uri") == Some(RedirectUri(env.appUrl))
    ensures SearchParams.Get(r.url.query, "response_type") == Some("code")
    ensures SearchParams.Get(r.url.query, "scope") == Some("identify guilds")
  {
    ToAuthorize(AuthorizeUrl(ClientIdOrEmpty(env.clientId), RedirectUri(env.appUrl)))
  }

  /** Whenever the validating route lets a configuration through, both routes
      send the browser to the same URL. */
  lemma SameUrlAsValidatingRoute(env: Env, urlParses: string -> bool)
    ensures CallbackRoute.Get(env, urlParses).ToAuthorize? ==>
              Get(env) == CallbackRoute.Get(env, urlParses)
  {
  }

  /** The validating route's checks are the only difference: the two routes
      agree exactly when the validating route redirects to Discord, and then
      the configuration passes every check. */
  lemma DifferOnlyOnRejectedConfig(env: Env, urlParses: string -> bool)
    ensures Get(env) == CallbackRoute.Get(env, urlParses)
            <==> CallbackRoute.Get(env, urlParses).ToAuthorize?
    ensures Get(env) == CallbackRoute.Get(env, urlParses) ==>
              forall e: OAuthConfig.ErrorCode :: !CallbackRoute.Fails(env, urlParses, e)
  {
    CallbackRoute.AuthorizeIffNoCheckFails(env, urlParses);
  }
}
