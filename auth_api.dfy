/** The session endpoints of the backend (lib/auth-api.ts). The value of
    `process.env.NEXT_PUBLIC_API_URL` is the parameter `env`. */
module AuthApi {
  import opened Wrappers
  import opened Http
  import opened AuthTypes

  const DefaultApiBaseUrl := "http://localhost:3001"
  const LogoutFailure := "登出失敗"

  /** The backend origin: the environment value unless it is unset or empty
      (`||` falls through on ""), else the local development server. */
  function ApiBaseUrl(env: Option<string>): (base: string)
    ensures env.Some? && env.value != "" ==> base == env.value
    ensures env.None? || env.value == "" ==> base == DefaultApiBaseUrl
    ensures base != ""
  {
    if env.Some? && env.value != "" then env.value else DefaultApiBaseUrl
  }

  /** `getGoogleLoginUrl()`: the backend origin followed by the Google
      login route. */
  function GoogleLoginUrl(env: Option<string>): (url: string)
    ensures url == ApiBaseUrl(env) + "/api/auth/google"
    ensures env.None? ==> url == "http://localhost:3001/api/auth/google"
  {
    ApiBaseUrl(env) + "/api/auth/google"
  }

  /** `getCurrentUser(signal)`, once the profile request is answered.
      A 401 returns null; any other non-ok status throws inside the `try`
      and is caught, so it returns null too; a rejected `fetch` (an
      AbortError or a network failure) is caught likewise. The body of an ok
      response is returned without `await`, so a rejected read of that body
      (it does not parse, the signal fires or the connection drops while
      it streams) escapes the `catch` and is the only way the call throws,
      with the reading's own error. */
  function GetCurrentUser(resp: Response<User>): (c: Completion<Option<User>>)
    ensures c.Throw? <==> resp.BodyRejected?
    ensures c.Throw? ==> c.thrown == Error(resp.errorName, resp.message)
    ensures c == Return(None) <==> resp.NonOk? || resp.Aborted? || resp.NetworkFailure?
    ensures resp.Ok? ==> c == Return(Some(resp.body))
  {
    match resp
    case Ok(body) => Return(Some(body))
    case BodyRejected(_, _) => Throw(RejectionOf(resp))
    case NonOk(_, _) => Return(None)
    case Aborted => Return(None)
    case NetworkFailure(_) => Return(None)
  }

  /** `logout()`, once answered: a non-ok status throws "登出失敗"; an ok
      one yields the parsed body; a rejection propagates. */
  function Logout(resp: Response<LogoutResponse>): (c: Completion<LogoutResponse>)
    ensures c.Return? <==> resp.Ok?
    ensures c.Return? ==> c.value == resp.body
    ensures resp.NonOk? ==> c == Throw(PlainError(LogoutFailure))
  {
    ExpectOk(resp, LogoutFailure)
  }
}
