/** `getErrorMessage` of the OAuth debug page (`/api/auth/discord/debug`): the
    text it shows for an `error` query parameter. */
module DebugPage {
  import opened Common
  import opened SearchParams
  import opened OAuthConfig
  import CallbackRoute

  /** The `switch` of `getErrorMessage` as a table: each case's code and the
      message it returns, in the order the cases are written. */
  const Messages: seq<(string, string)> := [
    ("missing_client_id",
     "Discord Client ID is not configured. Please set the DISCORD_CLIENT_ID environment variable."),
    ("invalid_client_id",
     "Discord Client ID is invalid. It must be a numeric Discord snowflake ID."),
    ("invalid_app_url_duplicate_protocol",
     "NEXT_PUBLIC_APP_URL has duplicate protocol (https://https://). Please fix the environment variable to use only one protocol."),
    ("invalid_app_url_placeholder",
     "NEXT_PUBLIC_APP_URL contains '...' placeholder. Please replace it with your actual deployment URL."),
    ("invalid_app_url_format",
     "NEXT_PUBLIC_APP_URL is not a valid URL format. Please check the environment variable."),
    ("missing_credentials",
     "Discord credentials are not configured. Please set DISCORD_CLIENT_ID and DISCORD_CLIENT_SECRET."),
    ("no_code",
     "Authorization code was not received from Discord."),
    ("auth_failed",
     "Authentication failed. Please try again.")
  ]

  /** The codes that have a case. */
  function KnownCodes(): set<string> {
    set i | 0 <= i < |Messages| :: Messages[i].0
  }

  /** The first case whose code is `code`, as a `switch` on strings selects it. */
  function FirstCase(cases: seq<(string, string)>, code: string): (r: Option<string>)
    ensures r.Some? <==> exists i :: 0 <= i < |cases| && cases[i].0 == code
    ensures r.Some? ==> exists i :: 0 <= i < |cases| && cases[i] == (code, r.value)
    decreases |cases|
  {
    if cases == [] then None
    else if cases[0].0 == code then
      assert cases[0] == (code, cases[0].1);
      Some(cases[0].1)
    else
      var r := FirstCase(cases[1..], code);
      assert forall i :: 1 <= i < |cases| ==> cases[i] == cases[1..][i - 1];
      r
  }

  /** Message for an error code; `None` (JavaScript `null`) for no code or for
      a code without a case. */
  function GetErrorMessage(code: Option<string>): (r: Option<string>)
    ensures r.Some? <==> code.Some? && code.value in KnownCodes()
    ensures r.Some? ==> (code.value, r.value) in Messages
  {
    match code
    case None => None
    case Some(c) => FirstCase(Messages, c)
  }

  /** The page has a message for each of its eight listed codes. */
  lemma EightKnownCodes()
    ensures GetErrorMessage(Some("missing_client_id")).Some?
    ensures GetErrorMessage(Some("invalid_client_id")).Some?
    ensures GetErrorMessage(Some("invalid_app_url_duplicate_protocol")).Some?
    ensures GetErrorMessage(Some("invalid_app_url_placeholder")).Some?
    ensures GetErrorMessage(Some("invalid_app_url_format")).Some?
    ensures GetErrorMessage(Some("missing_credentials")).Some?
    ensures GetErrorMessage(Some("no_code")).Some?
    ensures GetErrorMessage(Some("auth_failed")).Some?
  {
  }

  /** Every code the validating login route can report has a message. */
  lemma EveryErrorCodeHasMessage(e: ErrorCode)
    ensures GetErrorMessage(Some(e.Code())).Some?
  {
  }

  /** The `error` value in every error redirect of the validating route has a
      message in this table. */
  lemma CallbackErrorsAreExplained(env: Env, urlParses: string -> bool)
    requires CallbackRoute.Get(env, urlParses).ToErrorPage?
    ensures GetErrorMessage(SearchParams.Get(CallbackRoute.Get(env, urlParses).Location().query, "error")).Some?
  {
  }

  /** The token-exchange failure code has no message on this page. */
  lemma TokenExchangeFailureUnexplained()
    ensures GetErrorMessage(Some("token_exchange_failed")).None?
  {
  }

  /** No two cases return the same message (their lengths already differ). */
  lemma MessagesPairwiseDistinct()
    ensures forall i, j :: 0 <= i < |Messages| && 0 <= j < |Messages| && i != j ==>
              Messages[i].1 != Messages[j].1
  {
  }

  /** A message identifies its code. */
  lemma MessagesIdentifyCodes(a: string, b: string)
    ensures GetErrorMessage(Some(a)).Some? && GetErrorMessage(Some(a)) == GetErrorMessage(Some(b))
            ==> a == b
  {
    if GetErrorMessage(Some(a)).Some? && GetErrorMessage(Some(a)) == GetErrorMessage(Some(b)) {
      var m := GetErrorMessage(Some(a)).value;
      var i :| 0 <= i < |Messages| && Messages[i] == (a, m);
      var j :| 0 <= j < |Messages| && Messages[j] == (b, m);
      MessagesPairwiseDistinct();
    }
  }
}
