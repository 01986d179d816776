/** What the two login routes share: the configuration they read from the
    environment when their module loads, the redirect URI derived from it, the
    Discord authorize URL they build, and the redirects they answer with. */
module OAuthConfig {
  import opened Common
  import opened JsString
  import opened SearchParams

  /** `DISCORD_CLIENT_ID` and `NEXT_PUBLIC_APP_URL`; `None` when unset. */
  datatype Env = Env(clientId: Option<string>, appUrl: Option<string>)

  /** JavaScript truthiness of an environment value: unset and empty are both false. */
  predicate Truthy(v: Option<string>) {
    v.Some? && v.value != ""
  }

  const CallbackPath := "/api/auth/discord/callback"
  const DefaultRedirectUri := "http://localhost:3000/api/auth/discord/callback"
  const AuthorizeEndpoint := "https://discord.com/api/oauth2/authorize"
  const Scope := "identify guilds"

  /** The redirect URI both route modules compute at load time: the app URL
      followed by the callback path, with no trimming, or the local default. */
  function RedirectUri(appUrl: Option<string>): (r: string)
    ensures EndsWith(r, CallbackPath)
    ensures Truthy(appUrl) ==> |appUrl.value| < |r| && r[..|appUrl.value|] == appUrl.value
    ensures Truthy(appUrl) ==> |r| == |appUrl.value| + |CallbackPath|
    ensures !Truthy(appUrl) ==> r == DefaultRedirectUri
  {
    if Truthy(appUrl) then appUrl.value + CallbackPath else DefaultRedirectUri
  }

  /** A URL as its location and its ordered query parameters. */
  datatype Url = Url(base: string, query: Params)

  /** `new URL(AuthorizeEndpoint)` followed by four `searchParams.set` calls. */
  function AuthorizeUrl(clientId: string, redirectUri: string): (u: Url)
    ensures u.base == AuthorizeEndpoint
    ensures u.query == [("client_id", clientId), ("redirect_uri", redirectUri),
                        ("response_type", "code"), ("scope", Scope)]
    ensures Get(u.query, "client_id") == Some(clientId)
    ensures Get(u.query, "redirect_uri") == Some(redirectUri)
    ensures Get(u.query, "response_type") == Some("code")
    ensures Get(u.query, "scope") == Some("identify guilds")
  {
    var q1 := Set([], "client_id", clientId);
    var q2 := Set(q1, "redirect_uri", redirectUri);
    var q3 := Set(q2, "response_type", "code");
    var q4 := Set(q3, "scope", Scope);
    Url(AuthorizeEndpoint, q4)
  }

  /** The error codes the callback route reports on the home page. */
  datatype ErrorCode =
    | MissingClientId
    | InvalidClientId
    | InvalidAppUrlDuplicateProtocol
    | InvalidAppUrlPlaceholder
    | InvalidAppUrlFormat
  {
    /** The code as it appears in the `error` query parameter. */
    function Code(): string {
      match this
      case MissingClientId => "missing_client_id"
      case InvalidClientId => "invalid_client_id"
      case InvalidAppUrlDuplicateProtocol => "invalid_app_url_duplicate_protocol"
      case InvalidAppUrlPlaceholder => "invalid_app_url_placeholder"
      case InvalidAppUrlFormat => "invalid_app_url_format"
    }
  }

  /** Distinct error codes are reported under distinct names. */
  lemma CodeInjective(a: ErrorCode, b: ErrorCode)
    ensures a.Code() == b.Code() <==> a == b
  {
  }

  /** What a login route answers with. */
  datatype Redirect = ToErrorPage(error: ErrorCode) | ToAuthorize(url: Url) {
    /** Where the browser is sent; an error goes to `/?error=<code>`
        (resolved against the request URL). */
    function Location(): (u: Url)
      ensures ToErrorPage? ==> Get(u.query, "error") == Some(error.Code())
    {
      match this
      case ToErrorPage(e) => Url("/", Set([], "error", e.Code()))
      case ToAuthorize(u) => u
    }
  }
}
