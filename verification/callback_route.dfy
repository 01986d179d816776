/** The validating login route (`app/api/auth/discord/callback/route.ts`): five
    configuration checks in a fixed order, the first failure answered with an
    error redirect, and otherwise a redirect to Discord's authorize URL.

    `urlParses` is whether `new URL(s)` accepts `s` (the WHATWG URL parser,
    which is not part of this model). */
module CallbackRoute {
  import opened Common
  import opened JsString
  import opened SearchParams
  import opened OAuthConfig

  /** The duplicated-scheme test. */
  predicate HasDuplicateProtocol(url: string) {
    Includes(url, "https://https://") || Includes(url, "http://http://")
  }

  /** The placeholder test, as written: `endsWith("...") || includes("...")`. */
  predicate HasPlaceholder(url: string) {
    EndsWith(url, "...") || Includes(url, "...")
  }

  /** The route handler. */
  function Get(env: Env, urlParses: string -> bool): (r: Redirect)
    ensures r.ToAuthorize? ==>
      && env.clientId.Some? && IsDigitString(env.clientId.value)
      && r.url.base == AuthorizeEndpoint
      && SearchParams.Get(r.url.query, "client_id") == env.clientId
      && SearchParams.Get(r.url.query, "redirect_uri") == Some(RedirectUri(env.appUrl))
      && SearchParams.Get(r.url.query, "response_type") == Some("code")
      && SearchParams.Get(r.url.query, "scope") == Some("identify guilds")
    ensures r.ToAuthorize? && Truthy(env.appUrl) ==>
      && !HasDuplicateProtocol(env.appUrl.value)
      && !Includes(env.appUrl.value, "...")
      && urlParses(env.appUrl.value)
  {
    if !Truthy(env.clientId) then ToErrorPage(MissingClientId)
    else if !IsDigitString(env.clientId.value) then ToErrorPage(InvalidClientId)
    else if Truthy(env.appUrl) && HasDuplicateProtocol(env.appUrl.value) then
      ToErrorPage(InvalidAppUrlDuplicateProtocol)
    else if Truthy(env.appUrl) && HasPlaceholder(env.appUrl.value) then
      ToErrorPage(InvalidAppUrlPlaceholder)
    else if Truthy(env.appUrl) && !urlParses(env.appUrl.value) then
      ToErrorPage(InvalidAppUrlFormat)
    else ToAuthorize(AuthorizeUrl(env.clientId.value, RedirectUri(env.appUrl)))
  }

  /** Position of each check in the order the handler runs them. */
  function Rank(e: ErrorCode): nat {
    match e
    case MissingClientId => 0
    case InvalidClientId => 1
    case InvalidAppUrlDuplicateProtocol => 2
    case InvalidAppUrlPlaceholder => 3
    case InvalidAppUrlFormat => 4
  }

  /** Each check's own failure condition, stated on its own: the client id
      checks look at the client id only, the URL checks are skipped when the
      app URL is unset, and the placeholder condition is `includes` alone. */
  predicate Fails(env: Env, urlParses: string -> bool, e: ErrorCode) {
    match e
    case MissingClientId => !Truthy(env.clientId)
    case InvalidClientId => env.clientId.Some? && !IsDigitString(env.clientId.value)
    case InvalidAppUrlDuplicateProtocol =>
      Truthy(env.appUrl) && HasDuplicateProtocol(env.appUrl.value)
    case InvalidAppUrlPlaceholder => Truthy(env.appUrl) && Includes(env.appUrl.value, "...")
    case InvalidAppUrlFormat => Truthy(env.appUrl) && !urlParses(env.appUrl.value)
  }

  /** The reported error is the first failing check in handler order. */
  lemma FirstFailingCheckReported(env: Env, urlParses: string -> bool, e: ErrorCode)
    ensures Get(env, urlParses) == ToErrorPage(e) <==>
      && Fails(env, urlParses, e)
      && forall earlier: ErrorCode :: Rank(earlier) < Rank(e) ==> !Fails(env, urlParses, earlier)
  {
    if Truthy(env.appUrl) && EndsWith(env.appUrl.value, "...") {
      EndsWithIncludes(env.appUrl.value, "...");
    }
    if forall earlier: ErrorCode :: Rank(earlier) < Rank(e) ==> !Fails(env, urlParses, earlier) {
      assert Rank(e) > 0 ==> !Fails(env, urlParses, MissingClientId);
      assert Rank(e) > 1 ==> !Fails(env, urlParses, InvalidClientId);
      assert Rank(e) > 2 ==> !Fails(env, urlParses, InvalidAppUrlDuplicateProtocol);
      assert Rank(e) > 3 ==> !Fails(env, urlParses, InvalidAppUrlPlaceholder);
    }
  }

  /** Exactly one outcome: the authorize redirect when no check fails, and
      otherwise a single error redirect. */
  lemma AuthorizeIffNoCheckFails(env: Env, urlParses: string -> bool)
    ensures Get(env, urlParses).ToAuthorize? <==> forall e: ErrorCode :: !Fails(env, urlParses, e)
  {
    var r := Get(env, urlParses);
    if r.ToErrorPage? {
      FirstFailingCheckReported(env, urlParses, r.error);
    } else {
      forall e: ErrorCode
        ensures !Fails(env, urlParses, e)
      {
        FirstFailingCheckReported(env, urlParses, e);
      }
    }
  }

  /** A missing client id is reported whatever else is wrong. */
  lemma MissingClientIdFirst(env: Env, urlParses: string -> bool)
    requires !Truthy(env.clientId)
    ensures Get(env, urlParses) == ToErrorPage(MissingClientId)
  {
  }

  /** With no app URL, no URL check runs and the local redirect URI is used. */
  lemma UnsetAppUrlUsesLocalDefault(env: Env, urlParses: string -> bool)
    requires !Truthy(env.appUrl)
    requires env.clientId.Some? && IsDigitString(env.clientId.value)
    ensures Get(env, urlParses).ToAuthorize?
    ensures SearchParams.Get(Get(env, urlParses).url.query, "redirect_uri")
              == Some("http://localhost:3000/api/auth/discord/callback")
  {
  }
}
