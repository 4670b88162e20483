/** The page the login callback lands on (app/auth/success/page.tsx). It
    verifies the new session once, through the session provider's
    `checkAuth`, then either shows the outcome or schedules a redirect home.
    The page's `checking` state and its `hasVerified` ref are the fields of
    `AuthSuccessPage`; its abort controller is a token, as in the session
    provider. */
module AuthSuccessPage {
  import opened Wrappers
  import opened Http
  import opened AuthTypes
  import AuthContext
  import AuthApi

  const VerifyFallback := "無法驗證您的登入狀態，請重新嘗試"

  datatype SuccessView =
    | Verifying               // spinner: "驗證登入中..."
    | LoginFailed(message: string)
    | LoggedIn                // "登入成功！"

  /** The view: a spinner while the page or the session is still checking;
      then a failure, with the error's text or the fixed fallback, when an
      error is set or nobody is logged in; else the success card. An empty
      error text counts as no error, as `||` does. */
  function View(checking: bool, isLoading: bool, isAuthenticated: bool, error: Option<string>): (v: SuccessView)
    ensures v.Verifying? <==> checking || isLoading
    ensures v.LoginFailed? <==>
              !checking && !isLoading && ((error.Some? && error.value != "") || !isAuthenticated)
    ensures v.LoginFailed? ==>
              v.message == (if error.Some? && error.value != "" then error.value else VerifyFallback)
    ensures v.LoggedIn? ==> isAuthenticated
    ensures v.LoginFailed? ==> v.message != ""
  {
    if checking || isLoading then Verifying
    else if (error.Some? && error.value != "") || !isAuthenticated then
      LoginFailed(if error.Some? && error.value != "" then error.value else VerifyFallback)
    else LoggedIn
  }

  /** The redirect effect arms its timer exactly when the check is over and
      someone is logged in. */
  predicate ShouldRedirect(checking: bool, isAuthenticated: bool) {
    !checking && isAuthenticated
  }

  /** When an error comes with no user, as after a single settled session
      check, a redirect is only ever scheduled under the success card, never
      under the failure card. The requirement excludes two reachable
      states, in which a user and an error are both set:
      - a failed logout (from the header menu) keeps the user and sets the
        error;
      - on a full load, the provider's own check fails reading its body
        first and the page's check then answers ok (`VisitUnderProvider`
        with `pageFirst` false).
      In both, the page shows the failure card while the redirect is armed
      (`RedirectUnderFailureCard`). */
  lemma RedirectOnlyWhenLoggedIn(checking: bool, user: Option<User>, error: Option<string>)
    requires error.Some? ==> user.None?
    ensures var v := AuthContext.ContextValue(user, false, error);
            ShouldRedirect(checking, v.isAuthenticated) ==> View(checking, false, v.isAuthenticated, error) == LoggedIn
  {
  }

  /** A user and a non-empty error together, once checking and loading are
      over: the failure card shows while the redirect effect, which tests
      only `isAuthenticated`, arms its timer. */
  lemma RedirectUnderFailureCard(user: User, error: string)
    requires error != ""
    ensures var v := AuthContext.ContextValue(Some(user), false, Some(error));
            ShouldRedirect(false, v.isAuthenticated)
            && View(false, false, v.isAuthenticated, Some(error)) == LoginFailed(error)
  {
  }

  class AuthSuccessPage {
    var checking: bool
    /** `hasVerified.current` */
    var hasVerified: bool
    /** The token of the verification whose controller is not aborted. */
    var liveVerify: Option<nat>
    /** The number of verifications started so far; also the next token. */
    var verifications: nat

    ghost predicate Valid()
      reads this
    {
      && verifications == (if hasVerified then 1 else 0)
      && (liveVerify.Some? ==> hasVerified && liveVerify.value == 0)
    }

    constructor()
      ensures Valid()
      ensures checking && !hasVerified && liveVerify.None? && verifications == 0
    {
      checking := true;
      hasVerified := false;
      liveVerify := None;
      verifications := 0;
    }

    /** The verification effect. Its first run marks the ref, makes a fresh
        controller live and starts `checkAuth` with its signal; every later
        run (the development re-run, a new `checkAuth` identity) returns at
        once, so at most one verification is ever started. */
    method VerifyEffect(auth: AuthContext.AuthProvider) returns (started: Option<nat>)
      requires Valid()
      modifies this`hasVerified, this`liveVerify, this`verifications, auth`isLoading, auth`error
      ensures Valid() && hasVerified && verifications == 1
      ensures old(hasVerified) ==>
                started.None? && liveVerify == old(liveVerify)
                && auth.isLoading == old(auth.isLoading) && auth.error == old(auth.error)
      ensures !old(hasVerified) ==>
                started == Some(0) && liveVerify == Some(0) && auth.isLoading && auth.error.None?
    {
      if hasVerified {
        return None;
      }
      hasVerified := true;
      started := Some(verifications);
      liveVerify := started;
      verifications := verifications + 1;
      auth.CheckAuthStart();
    }

    /** The effect's cleanup: the controller is aborted. */
    method EffectCleanup()
      requires Valid()
      modifies this`liveVerify
      ensures Valid() && liveVerify.None?
    {
      liveVerify := None;
    }

    /** The verification `token` settles with the profile endpoint's answer:
        `checkAuth` finishes (changing nothing if its controller was
        aborted) and only then does the page stop checking. */
    method VerifySettle(auth: AuthContext.AuthProvider, token: nat, resp: Response<User>)
      requires Valid() && token < verifications
      modifies this`checking, auth`user, auth`isLoading, auth`error
      ensures Valid() && !checking
      ensures liveVerify != Some(token) ==>
                auth.user == old(auth.user) && auth.isLoading == old(auth.isLoading)
                && auth.error == old(auth.error)
      ensures liveVerify == Some(token) ==> !auth.isLoading
      ensures liveVerify == Some(token) && resp.Ok? ==>
                auth.user == Some(resp.body) && auth.error == old(auth.error)
      ensures liveVerify == Some(token) && resp.BodyRejected? ==>
                auth.user == None && auth.error == Some(resp.message)
      ensures liveVerify == Some(token) && (resp.NonOk? || resp.Aborted? || resp.NetworkFailure?) ==>
                auth.user == None && auth.error == old(auth.error)
    {
      auth.CheckAuthSettle(liveVerify != Some(token), AuthApi.GetCurrentUser(resp));
      checking := false;
    }

    function CurrentView(auth: AuthContext.AuthProvider): SuccessView
      reads this, auth
    {
      View(checking, auth.isLoading, auth.user.Some?, auth.error)
    }

    /** One visit as the page sees it alone: the effect runs, the
        verification settles with `resp` while the page is still mounted.
        The visitor ends on the success card, with a redirect armed, exactly
        when the profile request answered ok; a rejected read of the profile
        body shows its own text. `VisitUnderProvider` adds the provider's own
        check. */
    method Visit(auth: AuthContext.AuthProvider, resp: Response<User>) returns (view: SuccessView)
      requires Valid() && !hasVerified
      modifies this`checking, this`hasVerified, this`liveVerify, this`verifications
      modifies auth`user, auth`isLoading, auth`error
      ensures Valid() && !checking && verifications == 1
      ensures view == CurrentView(auth)
      ensures view == LoggedIn <==> resp.Ok?
      ensures view == LoggedIn ==> ShouldRedirect(checking, auth.user.Some?)
      ensures resp.BodyRejected? && resp.message != "" ==> view == LoginFailed(resp.message)
      ensures resp.NonOk? || resp.Aborted? || resp.NetworkFailure? ==> view == LoginFailed(VerifyFallback)
    {
      var token := VerifyEffect(auth);
      VerifySettle(auth, token.value, resp);
      view := CurrentView(auth);
    }

    /** One visit under the session provider of the root layout, whose own
        mount effect checks the session too. React runs the page's effect
        before the layout's, so the page's check starts first; both starts
        only set loading and clear the error. The two settle in either order
        (`pageFirst`: the page's first). Both write the provider's fields,
        so the answer that settles last decides the user, and the error of
        a rejected body read of either stays shown. `early` is the view
        between the two settlements: still the spinner when the provider's
        answer comes first, and otherwise already the outcome of the page's
        own answer, which the provider's later answer may overturn. When the
        provider's read fails first and the page's answer is ok, a user and
        an error are both set: the failure card shows with the redirect
        armed (`RedirectUnderFailureCard`). */
    method VisitUnderProvider(auth: AuthContext.AuthProvider, mountResp: Response<User>,
                              verifyResp: Response<User>, pageFirst: bool)
      returns (early: SuccessView, view: SuccessView)
      requires Valid() && checking && !hasVerified && auth.Valid()
      modifies this`checking, this`hasVerified, this`liveVerify, this`verifications
      modifies auth`user, auth`isLoading, auth`error, auth`liveCheck, auth`nextCheck
      ensures Valid() && auth.Valid() && !checking && !auth.isLoading
      ensures view == CurrentView(auth)
      ensures var first := if pageFirst then verifyResp else mountResp;
              var last := if pageFirst then mountResp else verifyResp;
              && (last.Ok? ==> auth.user == Some(last.body))
              && (!last.Ok? ==> auth.user == None)
              && auth.error == (if last.BodyRejected? then Some(last.message)
                                else if first.BodyRejected? then Some(first.message)
                                else None)
      ensures var first := if pageFirst then verifyResp else mountResp;
              var last := if pageFirst then mountResp else verifyResp;
              view == LoggedIn <==> last.Ok? && !(first.BodyRejected? && first.message != "")
      ensures !pageFirst ==> early == Verifying
      ensures pageFirst ==> early == View(false, false, verifyResp.Ok?,
                                          if verifyResp.BodyRejected? then Some(verifyResp.message) else None)
      ensures pageFirst && verifyResp.Ok? && !mountResp.Ok? ==> early == LoggedIn && view.LoginFailed?
      ensures !pageFirst && mountResp.BodyRejected? && mountResp.message != "" && verifyResp.Ok? ==>
                view == LoginFailed(mountResp.message) && ShouldRedirect(checking, auth.user.Some?)
    {
      var token := VerifyEffect(auth);
      var mountToken := auth.Mount();
      if pageFirst {
        VerifySettle(auth, token.value, verifyResp);
        early := CurrentView(auth);
        auth.SettleMountCheck(mountToken, mountResp);
      } else {
        auth.SettleMountCheck(mountToken, mountResp);
        early := CurrentView(auth);
        VerifySettle(auth, token.value, verifyResp);
      }
      view := CurrentView(auth);
    }
  }
}
