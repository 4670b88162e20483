/** The login-failure page (app/auth/error/page.tsx): which code the
    callback URL carries and which message is shown for it. A query parameter
    is `None` when the URL lacks it. */
module AuthErrorPage {
  import opened Wrappers

  const DefaultCode := "default"

  /** `errorMessages`: the fixed messages of the known codes. */
  const ErrorMessages: map<string, string> := map[
    "access_denied" := "您取消了登入授權",
    "unauthorized" := "授權失敗，請重新嘗試",
    "server_error" := "伺服器發生錯誤，請稍後再試",
    DefaultCode := "登入過程中發生錯誤"]

  /** A query value counts only when present and non-empty (`||`). */
  predicate Truthy(s: Option<string>) {
    s.Some? && s.value != ""
  }

  /** `errorCode`: the `error` parameter, else the `message` parameter, else
      "default"; an empty value falls through like a missing one. */
  function ErrorCode(errorParam: Option<string>, messageParam: Option<string>): (code: string)
    ensures code != ""
    ensures Truthy(errorParam) ==> code == errorParam.value
    ensures !Truthy(errorParam) && Truthy(messageParam) ==> code == messageParam.value
    ensures !Truthy(errorParam) && !Truthy(messageParam) ==> code == DefaultCode
  {
    if Truthy(errorParam) then errorParam.value
    else if Truthy(messageParam) then messageParam.value
    else DefaultCode
  }

  /** `errorMessage`: the table's message for a known code; any other code
      (and a known one whose message were empty) is shown as it is. */
  function ErrorMessage(code: string): (m: string)
    ensures code in ErrorMessages ==> m == ErrorMessages[code]
    ensures code !in ErrorMessages ==> m == code
  {
    var known := if code in ErrorMessages then ErrorMessages[code] else "";
    if known != "" then known else code
  }

  /** Every message of the table is non-empty, so the `||` fallback is only
      taken for codes the table does not know. */
  lemma TableMessagesNonEmpty()
    ensures forall code :: code in ErrorMessages ==> ErrorMessages[code] != ""
  {
    forall code | code in ErrorMessages ensures ErrorMessages[code] != "" {
      assert code == "access_denied" || code == "unauthorized" || code == "server_error" || code == DefaultCode;
    }
  }

  /** The page always has something to say: whatever the URL, the message
      shown is non-empty, and without a usable code it is the generic one. */
  lemma ShownMessageNonEmpty(errorParam: Option<string>, messageParam: Option<string>)
    ensures ErrorMessage(ErrorCode(errorParam, messageParam)) != ""
    ensures !Truthy(errorParam) && !Truthy(messageParam) ==>
              ErrorMessage(ErrorCode(errorParam, messageParam)) == "登入過程中發生錯誤"
  {
    TableMessagesNonEmpty();
  }

  /** A code the table does not know is shown verbatim, and a known one
      never is, so the user never sees a raw known code. */
  lemma UnknownCodeVerbatim(code: string)
    ensures ErrorMessage(code) == code <==> code !in ErrorMessages
  {
    TableMessagesNonEmpty();
    if code in ErrorMessages {
      assert code == "access_denied" || code == "unauthorized" || code == "server_error" || code == DefaultCode;
    }
  }
}
