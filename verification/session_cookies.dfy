/** The browser-held session: three cookies written together at login. The
    server keeps no copy; every request rebuilds identity from these alone. */
module SessionCookies {

  /** The cookies a request carries, by name. */
  type Cookies = map<string, string>

  /** Opaque OAuth access token. */
  const TokenCookie := "discord_token"
  /** JSON text of the Discord user profile. */
  const UserCookie := "discord_user"
  /** JSON text of the user's guild list. */
  const GuildsCookie := "discord_guilds"

  const SessionCookieNames: set<string> := {TokenCookie, UserCookie, GuildsCookie}
}
