# Discord dashboard login and guild gate, in Dafny

This project models the decision layer of a Discord ticket-bot dashboard (a
Next.js application). The layer has five pieces:

- **The session read** (`GET /api/auth/me`). The session lives only in
  browser cookies. The handler looks for the `discord_user` and
  `discord_guilds` cookies. It answers 401 when either is missing. It answers
  500 when their JSON cannot be read. Otherwise it answers with the user and
  the guilds whose permission bitmask has MANAGE_GUILD (`0x20`) set. The bitmask
  is read as a `BigInt`, so the model works with unbounded integers.
- **The validating login route** (`app/api/auth/discord/callback/route.ts`). It
  runs five configuration checks in a fixed order: client id set, client id all
  ASCII digits, no doubled scheme in the app URL, no `...` placeholder, and the
  app URL parses. The first failing check sends the browser to
  `/?error=<code>`. If all pass, it sends the browser to Discord's authorize URL.
- **The unvalidated login route** (`app/api/auth/discord/route.ts`). It builds the
  same authorize URL with no checks.
- **Logout** (`POST /api/auth/logout`). It deletes the three session cookies.
- **`getErrorMessage`** on the OAuth debug page (`/api/auth/discord/debug`).
  It maps an `error` query parameter to the text the page shows.

Modules follow the source files:

- `MeRoute`, `LogoutRoute`, `CallbackRoute`, `DiscordRoute` and `DebugPage`
  model the five pieces.
- `OAuthConfig` holds what both login routes share: the environment, the
  redirect URI, the authorize URL, the error codes and the redirects.
- `SearchParams` models `URLSearchParams.get`/`set` as the WHATWG URL Standard
  defines them.
- `Permissions` models `BigInt` `&` (two's complement for negative values) and
  an exact decimal reading of permission strings.
- `Json`, `JsString`, `SessionCookies` and `Common` hold shared vocabulary.

Three pieces of the JavaScript runtime are parameters of the model and are not
re-implemented:

- `JSON.parse`, as `parseJson: string -> Option<Json>` (`None` = it throws);
- `BigInt(v)` on a parsed permissions value, as `toBigInt: Json -> Option<int>`;
- whether `new URL(s)` accepts `s`, as `urlParses: string -> bool`.

`Permissions.DecimalBigInt` is a concrete instance of `toBigInt`. It covers the
decimal strings Discord sends.

Notes on what the code does:

- The app URL is not stripped of trailing slashes. The redirect URI is the app
  URL followed by `/api/auth/discord/callback`, exactly.
- The cookies are named `discord_token`, `discord_user` and `discord_guilds`.
- A session whose JSON cannot be read gets a 500 "Invalid session data", not a
  401. No cookie is cleared.
- JavaScript truthiness decides whether an environment value is "set": an empty
  `DISCORD_CLIENT_ID` counts as missing, and an empty `NEXT_PUBLIC_APP_URL` counts
  as unset.

## Model

| member | source | states |
|---|---|---|
| MeRoute.Get | app/api/auth/me/route.ts:14-48 | 401 exactly when the user or guilds cookie is absent. 500 exactly when both are present but something cannot be read: a JSON parse fails, the user is `null`, the guild list is not an array, or a guild has no convertible `permissions`. On success the user is the parsed user, unchanged. The guilds are exactly the parsed list filtered to the guilds with MANAGE_GUILD: same order, same multiplicity (equal to `ManagedGuilds` of the parsed list). |
| MeRoute.ManagedGuilds | app/api/auth/me/route.ts:33-37 | The filter throws exactly when some guild's `BigInt(guild.permissions)` throws. Otherwise the result is a subsequence of the input, in input order. A guild is in it iff it is in the input and has MANAGE_GUILD, with the same multiplicity as in the input. |
| MeRoute.ManagedGuildsIdempotent | app/api/auth/me/route.ts:33-37 | Filtering the returned guild list again yields the same list. |
| MeRoute.OnlySessionDataCookiesRead | app/api/auth/me/route.ts:14-20 | Two cookie jars that agree on `discord_user` and `discord_guilds` get the same response. No other cookie is consulted. |
| MeRoute.TokenNeverConsulted | app/api/auth/me/route.ts:14-20 | Removing `discord_token` never changes the response. A session without a token still succeeds. |
| MeRoute.MissingCookieIsUnauthenticated | app/api/auth/me/route.ts:20-23 | A missing user or guilds cookie gives status 401 and "Not authenticated", for every JSON parser and `BigInt` (nothing is parsed). |
| Permissions.ManageGuildBit | app/api/auth/me/route.ts:34-36 | `(p & 0x20n) === 0x20n`, with `&` on infinite two's-complement integers, holds iff `(p / 32) % 2 == 1`, for every integer `p` of any size or sign. |
| Permissions.ManageGuildBeyondDoublePrecision | app/api/auth/me/route.ts:34-36 | 2^60 + 32 passes the MANAGE_GUILD test and 2^60 fails it. Both values lie beyond the 53-bit precision of a JavaScript number, where a double could not tell them apart. |
| Permissions.DecimalBigIntExact | app/api/auth/me/route.ts:34 | A natural rendered in decimal, as Discord sends it, converts back to exactly that natural, at any size. |
| MeRoute.GateExactForDecimalPermissions | app/api/auth/me/route.ts:33-37 | A guild whose `permissions` is a natural `n` in decimal, as Discord sends it, passes the filter iff bit 5 of `n` is set, at any size. |
| LogoutRoute.Post | app/api/auth/logout/route.ts:4-10 | Afterwards none of the three session cookies is present. Every other cookie is kept with its value. The answer is `success: true`, also when none of the cookies existed. |
| LogoutRoute.LogoutIdempotent | app/api/auth/logout/route.ts:6-8 | Logging out twice leaves the same cookies and answer as logging out once. |
| LogoutRoute.NoSessionAfterLogout | app/api/auth/logout/route.ts:6-8 | After logout, the session read answers 401 `NotAuthenticated`, whatever the cookies held and for every parser. |
| JsString.IncludesIffOccurs | app/api/auth/discord/callback/route.ts:26 | The `includes` scan is true iff the pattern occurs at some index of the string. |
| JsString.EndsWithIncludes | app/api/auth/discord/callback/route.ts:31 | A string that ends with `...` includes `...`, so the `endsWith` half of the placeholder test adds nothing. |
| SearchParams.Set | app/api/auth/discord/callback/route.ts:50-53 | After `set(name, value)`: `get(name)` is the value, the name occurs once, `get` of every other name is unchanged, the pairs with other names are unchanged and in order, and a new name is appended at the end. |
| OAuthConfig.RedirectUri | app/api/auth/discord/callback/route.ts:5-7 | When the app URL is set, the redirect URI is exactly the app URL, untrimmed, followed by `/api/auth/discord/callback` (prefix, suffix and total length). When it is unset or empty, it is exactly `http://localhost:3000/api/auth/discord/callback`. |
| OAuthConfig.AuthorizeUrl | app/api/auth/discord/callback/route.ts:49-53 | The URL is Discord's authorize endpoint with exactly the query `client_id`, `redirect_uri`, `response_type=code`, `scope=identify guilds`, in that order. |
| OAuthConfig.CodeInjective | app/api/auth/discord/callback/route.ts:10-42 | Distinct error outcomes are reported under distinct `error` codes. |
| OAuthConfig.Redirect.Location | app/api/auth/discord/callback/route.ts:12 | An error redirect carries its code in the `error` query parameter, as `/?error=<code>`. |
| CallbackRoute.Get | app/api/auth/discord/callback/route.ts:9-56 | An authorize redirect happens only with an all-digit client id. It carries that client id, the derived redirect URI, `response_type=code` and `scope=identify guilds`. When the app URL is set, it also requires an app URL with no doubled scheme, no `...`, and which parses. |
| CallbackRoute.FirstFailingCheckReported | app/api/auth/discord/callback/route.ts:10-42 | The route answers with error `e` iff check `e` fails and no check before it in the fixed order fails. The placeholder check is stated as `includes("...")` alone. |
| CallbackRoute.AuthorizeIffNoCheckFails | app/api/auth/discord/callback/route.ts:10-55 | Exactly one outcome: the authorize redirect iff no check fails, otherwise a single error redirect. |
| CallbackRoute.MissingClientIdFirst | app/api/auth/discord/callback/route.ts:10-13 | An unset or empty client id gives `missing_client_id`, whatever the app URL is. |
| CallbackRoute.UnsetAppUrlUsesLocalDefault | app/api/auth/discord/callback/route.ts:5-7 | With no app URL and a valid client id, no URL check runs and the redirect URI is `http://localhost:3000/api/auth/discord/callback`. |
| DiscordRoute.Get | app/api/auth/discord/route.ts:8-16 | Always a redirect to the authorize endpoint, never an error. `client_id` is the configured id, or `""` when unset. `redirect_uri` is the derived redirect URI. `response_type` and `scope` are fixed. |
| DiscordRoute.SameUrlAsValidatingRoute | app/api/auth/discord/route.ts:9-13 | Whenever the validating route redirects to Discord, this route redirects to the same URL. |
| DiscordRoute.DifferOnlyOnRejectedConfig | app/api/auth/discord/route.ts:8-15 | The two routes give the same answer iff the validating route redirects to Discord. When they agree, no validation check fails. |
| DebugPage.FirstCase | app/api/auth/discord/debug/page.tsx:23-42 | A `switch` on strings finds a case iff some case has that code, and then returns a message listed for that code. |
| DebugPage.GetErrorMessage | app/api/auth/discord/debug/page.tsx:22-43 | A message exists iff the code is present and is one of the eight listed codes. A null code, or any other code, gives null. A returned message is the one listed for that code. |
| DebugPage.EightKnownCodes | app/api/auth/discord/debug/page.tsx:24-39 | Each of the eight listed codes has a non-null message. |
| DebugPage.EveryErrorCodeHasMessage | app/api/auth/discord/debug/page.tsx:24-33 | Each of the five codes the validating route can report has a message. |
| DebugPage.CallbackErrorsAreExplained | app/api/auth/discord/debug/page.tsx:12-45 | The `error` code in every error redirect of the validating route has a message in this table. |
| DebugPage.TokenExchangeFailureUnexplained | app/api/auth/discord/debug/page.tsx:40-41 | `token_exchange_failed` has no message. |
| DebugPage.MessagesPairwiseDistinct | app/api/auth/discord/debug/page.tsx:24-39 | No two cases return the same message. |
| DebugPage.MessagesIdentifyCodes | app/api/auth/discord/debug/page.tsx:24-39 | Two codes with the same non-null message are the same code. |

## Left out

- The link from a failed login to the message: the validating route redirects
  to `/?error=<code>`, and the home page (`app/page.tsx`) does not read
  `error`. The message table lives on the debug page only. The model states
  that every code the route emits has a message, not that the user sees it.
- The OAuth code exchange, user and guild fetches, and cookie writing: none of
  them is in the modelled files.
- The validating route does not read the request. It ignores any `code` query
  parameter, so the model takes no request input. The request URL is used only
  to resolve the error page location, which the model writes as `/?error=<code>`.
- `JSON.parse`, the `BigInt` coercion of a parsed value, and the WHATWG URL
  parser: these are parameters, not re-implementations.
- Permissions.DecimalBigInt: reads decimal digit strings only. `BigInt` also
  accepts surrounding whitespace, a sign, `0x`/`0o`/`0b` prefixes, the empty
  string, numbers and booleans. Those inputs are covered by the `toBigInt`
  parameter, not by this instance.
- URL serialisation (`authUrl.toString()`, percent-encoding of the query):
  the model keeps the URL as its location and its ordered query pairs.
- JSON numbers are kept as the exact `real` the parser produced. Object key
  order is not kept (objects are maps).
- The cookie store is a map from name to value. Duplicate cookie names, and
  cookie attributes (`httpOnly`, `maxAge`, `secure`, path), are not modelled.
- Console logging, `NextResponse` mechanics and page rendering are not
  modelled.
- The per-guild check `verifyGuildAccess` in the guild config and category
  routes, the config store in `lib/database.ts`, the bot-status probe and the
  client-side hooks are not part of this model.
