/** `GET /api/auth/me`: reads the session cookies and answers with the user and
    the guilds the user may administer (MANAGE_GUILD set), 401 when the session
    is missing, or 500 when its contents cannot be read.

    Two pieces of the JavaScript runtime are parameters: `parseJson` is
    `JSON.parse` (`None` when it throws) and `toBigInt` is `BigInt(v)` applied to
    a parsed permissions value (`None` when it throws). */
module MeRoute {
  import opened Common
  import opened Json
  import opened Permissions
  import opened SessionCookies

  datatype MeResponse =
    | Authenticated(user: Json, guilds: seq<Json>)
    | NotAuthenticated
    | InvalidSessionData
  {
    /** HTTP status of the response. */
    function Status(): nat {
      match this
      case Authenticated(_, _) => 200
      case NotAuthenticated => 401
      case InvalidSessionData => 500
    }

    /** The `error` field of the JSON body, if any. */
    function ErrorText(): Option<string> {
      match this
      case Authenticated(_, _) => None
      case NotAuthenticated => Some("Not authenticated")
      case InvalidSessionData => Some("Invalid session data")
    }
  }

  /** `BigInt(guild.permissions)` where it does not throw. Reading a field of
      `null` and `BigInt(undefined)` both throw, so a guild that is not an object
      with a `permissions` field has no permission value. */
  function Permission(guild: Json, toBigInt: Json -> Option<int>): Option<int> {
    match Property(guild, "permissions")
    case None => None
    case Some(v) => toBigInt(v)
  }

  /** The filter callback: the guild's permission value has MANAGE_GUILD. */
  predicate Manages(guild: Json, toBigInt: Json -> Option<int>) {
    var p := Permission(guild, toBigInt);
    p.Some? && HasManageGuild(p.value)
  }

  /** `guilds.filter(...)`: `None` when the callback throws on some element,
      otherwise the guilds that pass, in their original order and unchanged. */
  function ManagedGuilds(guilds: seq<Json>, toBigInt: Json -> Option<int>): (r: Option<seq<Json>>)
    ensures r.Some? <==> forall i :: 0 <= i < |guilds| ==> Permission(guilds[i], toBigInt).Some?
    ensures r.Some? ==> IsSubsequence(r.value, guilds)
    ensures r.Some? ==> forall x :: x in r.value <==> x in guilds && Manages(x, toBigInt)
    ensures r.Some? ==> forall x ::
      multiset(r.value)[x] == if Manages(x, toBigInt) then multiset(guilds)[x] else 0
    decreases |guilds|
  {
    if guilds == [] then Some([])
    else
      var g := guilds[0];
      assert guilds == [g] + guilds[1..];
      match Permission(g, toBigInt)
      case None => None
      case Some(p) =>
        match ManagedGuilds(guilds[1..], toBigInt)
        case None => None
        case Some(rest) =>
          Some(if HasManageGuild(p) then [g] + rest else rest)
  }

  /** Everything the handler needs from the cookie texts can be read without a
      throw: both parse, the user is not `null` (`user.username` is read), the
      guild list is an array (`guilds.filter` is called) and every guild yields
      a permission value. */
  predicate Readable(userText: string, guildsText: string,
                     parseJson: string -> Option<Json>, toBigInt: Json -> Option<int>)
  {
    var user := parseJson(userText);
    var guilds := parseJson(guildsText);
    && user.Some? && !user.value.JNull?
    && guilds.Some? && guilds.value.JArr?
    && forall i :: 0 <= i < |guilds.value.elems| ==>
         Permission(guilds.value.elems[i], toBigInt).Some?
  }

  /** The route handler. */
  function Get(cookies: Cookies, parseJson: string -> Option<Json>,
               toBigInt: Json -> Option<int>): (r: MeResponse)
    ensures r == NotAuthenticated <==> UserCookie !in cookies || GuildsCookie !in cookies
    ensures r == InvalidSessionData <==>
      && UserCookie in cookies && GuildsCookie in cookies
      && !Readable(cookies[UserCookie], cookies[GuildsCookie], parseJson, toBigInt)
    ensures r.Authenticated? ==>
      && UserCookie in cookies && GuildsCookie in cookies
      && parseJson(cookies[UserCookie]) == Some(r.user)
      && var guilds := parseJson(cookies[GuildsCookie]).value.elems;
         && IsSubsequence(r.guilds, guilds)
         && forall x :: x in r.guilds <==> x in guilds && Manages(x, toBigInt)
    ensures r.Authenticated? ==>
      ManagedGuilds(parseJson(cookies[GuildsCookie]).value.elems, toBigInt) == Some(r.guilds)
  {
    if UserCookie !in cookies || GuildsCookie !in cookies then NotAuthenticated
    else
      match parseJson(cookies[UserCookie])
      case None => InvalidSessionData
      case Some(user) =>
        match parseJson(cookies[GuildsCookie])
        case None => InvalidSessionData
        case Some(guilds) =>
          if user.JNull? || !guilds.JArr? then InvalidSessionData
          else
            match ManagedGuilds(guilds.elems, toBigInt)
            case None => InvalidSessionData
            case Some(managed) => Authenticated(user, managed)
  }

  /** Filtering the returned list again changes nothing. */
  lemma {:induction false} ManagedGuildsIdempotent(guilds: seq<Json>, toBigInt: Json -> Option<int>)
    requires ManagedGuilds(guilds, toBigInt).Some?
    ensures var kept := ManagedGuilds(guilds, toBigInt).value;
            ManagedGuilds(kept, toBigInt) == Some(kept)
  {
    AllManagedIsFixed(ManagedGuilds(guilds, toBigInt).value, toBigInt);
  }

  lemma {:induction false} AllManagedIsFixed(guilds: seq<Json>, toBigInt: Json -> Option<int>)
    requires forall x :: x in guilds ==> Manages(x, toBigInt)
    ensures ManagedGuilds(guilds, toBigInt) == Some(guilds)
    decreases |guilds|
  {
    if guilds != [] {
      assert guilds[0] in guilds;
      forall x | x in guilds[1..]
        ensures Manages(x, toBigInt)
      {
        assert x in guilds;
      }
      AllManagedIsFixed(guilds[1..], toBigInt);
      assert guilds == [guilds[0]] + guilds[1..];
    }
  }

  /** The response depends on the user and guild cookies only: in particular
      the token cookie is never read, so a session without it still succeeds. */
  lemma OnlySessionDataCookiesRead(c1: Cookies, c2: Cookies,
                                   parseJson: string -> Option<Json>, toBigInt: Json -> Option<int>)
    requires UserCookie in c1 <==> UserCookie in c2
    requires GuildsCookie in c1 <==> GuildsCookie in c2
    requires UserCookie in c1 ==> c1[UserCookie] == c2[UserCookie]
    requires GuildsCookie in c1 ==> c1[GuildsCookie] == c2[GuildsCookie]
    ensures Get(c1, parseJson, toBigInt) == Get(c2, parseJson, toBigInt)
  {
  }

  lemma TokenNeverConsulted(cookies: Cookies, parseJson: string -> Option<Json>,
                            toBigInt: Json -> Option<int>)
    ensures Get(cookies - {TokenCookie}, parseJson, toBigInt) == Get(cookies, parseJson, toBigInt)
  {
  }

  /** A missing user or guilds cookie is a 401 whatever the parsers would say:
      nothing is parsed. */
  lemma MissingCookieIsUnauthenticated(cookies: Cookies,
                                       parseJson: string -> Option<Json>, toBigInt: Json -> Option<int>)
    requires UserCookie !in cookies || GuildsCookie !in cookies
    ensures Get(cookies, parseJson, toBigInt).Status() == 401
    ensures Get(cookies, parseJson, toBigInt).ErrorText() == Some("Not authenticated")
  {
  }

  /** With permissions sent as decimal strings, the gate keeps a guild exactly
      when bit 5 of the full, unrounded value is set, at any size. */
  lemma GateExactForDecimalPermissions(n: nat)
    ensures Manages(JObj(map["permissions" := JStr(ToDecimal(n))]), DecimalBigInt)
            <==> (n / 32) % 2 == 1
  {
    DecimalBigIntExact(n);
    ManageGuildBit(n);
  }
}
