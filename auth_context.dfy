/** The session provider (contexts/AuthContext.tsx). Its three `useState`
    fields are the fields of `AuthProvider`. The abort controller of the
    mount effect is a token: a check whose token is no longer live was
    aborted by the effect's cleanup. Each `async` callback is split at its
    single `await`: a `...Start` method runs the synchronous prefix, and a
    `...Settle` method runs what follows, given how the awaited call
    settled. */
module AuthContext {
  import opened Wrappers
  import opened Http
  import opened AuthTypes
  import AuthApi

  const CheckFailure := "驗證失敗"
  const LogoutFailure := "登出失敗"
  const MissingProvider := "useAuthContext must be used within an AuthProvider"

  /** The value the provider publishes, with its two derived flags. */
  function ContextValue(user: Option<User>, isLoading: bool, error: Option<string>): (v: AuthContextValue)
    ensures v.isAuthenticated <==> user.Some?
    ensures v.isAdmin <==> user.Some? && user.value.role == Admin
    ensures v.isAdmin ==> v.isAuthenticated
    ensures v.user == user && v.isLoading == isLoading && v.error == error
  {
    AuthContextValue(
      isAuthenticated := user.Some?,
      isAdmin := user.Some? && user.value.role == Admin,
      user := user,
      isLoading := isLoading,
      error := error)
  }

  /** `useAuthContext()`: the provider's value, or an Error outside any
      provider. */
  function UseAuthContext(context: Option<AuthContextValue>): (c: Completion<AuthContextValue>)
    ensures c.Throw? <==> context.None?
    ensures c.Throw? ==> c.thrown == PlainError(MissingProvider)
    ensures c.Return? ==> c.value == context.value
  {
    match context
    case None => Throw(PlainError(MissingProvider))
    case Some(value) => Return(value)
  }

  class AuthProvider {
    var user: Option<User>
    var isLoading: bool
    var error: Option<string>
    /** The token of the mount effect's controller that is not aborted. */
    var liveCheck: Option<nat>
    /** The token the next mount effect takes. */
    var nextCheck: nat

    ghost predicate Valid()
      reads this
    {
      liveCheck.Some? ==> liveCheck.value < nextCheck
    }

    /** The initial state: no user, loading, no error, not yet mounted. */
    constructor()
      ensures Valid()
      ensures user == None && isLoading && error == None
      ensures liveCheck == None && nextCheck == 0
    {
      user := None;
      isLoading := true;
      error := None;
      liveCheck := None;
      nextCheck := 0;
    }

    /** What `checkAuth` does before its `await`: loading starts and the
        previous error is cleared; the user is kept. */
    method CheckAuthStart()
      modifies this`isLoading, this`error
      ensures isLoading && error == None
    {
      isLoading := true;
      error := None;
    }

    /** What `checkAuth` does once `getCurrentUser` has settled. Unless
        the signal was aborted, a returned value becomes the user and a thrown
        one becomes the error (its message, or "驗證失敗" for a non-Error) with
        the user cleared; then loading ends. An aborted check changes
        nothing: the `catch` returns early and the `finally` skips its update. */
    method CheckAuthSettle(aborted: bool, outcome: Completion<Option<User>>)
      modifies this`user, this`isLoading, this`error
      ensures aborted ==> user == old(user) && isLoading == old(isLoading) && error == old(error)
      ensures !aborted ==> !isLoading
      ensures !aborted && outcome.Return? ==> user == outcome.value && error == old(error)
      ensures !aborted && outcome.Throw? ==>
                user == None && error == Some(MessageOr(outcome.thrown, CheckFailure))
    {
      match outcome {
        case Return(currentUser) =>
          if !aborted {
            user := currentUser;
          }
        case Throw(err) =>
          if !aborted {
            error := Some(MessageOr(err, CheckFailure));
            user := None;
          }
      }
      if !aborted {
        isLoading := false;
      }
    }

    /** A whole `checkAuth(signal)` against the profile endpoint's answer.
        Unaborted, it ends not loading, with the user from an ok response,
        the error of an ok body whose reading rejects, and no user and no error
        for every other answer. Aborted, only the synchronous prefix shows. */
    method CheckAuth(aborted: bool, resp: Response<User>)
      modifies this`user, this`isLoading, this`error
      ensures aborted ==> user == old(user) && isLoading && error == None
      ensures !aborted ==> !isLoading
      ensures !aborted && resp.Ok? ==> user == Some(resp.body) && error == None
      ensures !aborted && resp.BodyRejected? ==> user == None && error == Some(resp.message)
      ensures !aborted && (resp.NonOk? || resp.Aborted? || resp.NetworkFailure?) ==>
                user == None && error == None
    {
      CheckAuthStart();
      CheckAuthSettle(aborted, AuthApi.GetCurrentUser(resp));
    }

    /** The mount effect: a fresh controller becomes live and `checkAuth`
        starts with its signal. */
    method Mount() returns (token: nat)
      requires Valid()
      modifies this`isLoading, this`error, this`liveCheck, this`nextCheck
      ensures Valid()
      ensures token == old(nextCheck) && liveCheck == Some(token) && nextCheck == token + 1
      ensures isLoading && error == None
    {
      token := nextCheck;
      nextCheck := nextCheck + 1;
      liveCheck := Some(token);
      CheckAuthStart();
    }

    /** The effect's cleanup: the live controller is aborted. */
    method Unmount()
      requires Valid()
      modifies this`liveCheck
      ensures Valid() && liveCheck == None
    {
      liveCheck := None;
    }

    /** The check started by the mount effect with `token` settles with the
        profile endpoint's answer. A check whose controller was aborted
        leaves every field as it was. */
    method SettleMountCheck(token: nat, resp: Response<User>)
      requires Valid()
      modifies this`user, this`isLoading, this`error
      ensures Valid()
      ensures liveCheck != Some(token) ==>
                user == old(user) && isLoading == old(isLoading) && error == old(error)
      ensures liveCheck == Some(token) ==> !isLoading
      ensures liveCheck == Some(token) && resp.Ok? ==> user == Some(resp.body) && error == old(error)
      ensures liveCheck == Some(token) && resp.BodyRejected? ==> user == None && error == Some(resp.message)
      ensures liveCheck == Some(token) && (resp.NonOk? || resp.Aborted? || resp.NetworkFailure?) ==>
                user == None && error == old(error)
    {
      CheckAuthSettle(liveCheck != Some(token), AuthApi.GetCurrentUser(resp));
    }

    /** A mount, an unmount and a second mount, as a development build runs
        the effect. The first check, settling after the second, is ignored:
        the state is decided by the second answer alone. */
    method RemountedCheck(first: Response<User>, second: Response<User>)
      requires Valid()
      modifies this`user, this`isLoading, this`error, this`liveCheck, this`nextCheck
      ensures Valid() && !isLoading
      ensures user == (if second.Ok? then Some(second.body) else None)
      ensures error == (if second.BodyRejected? then Some(second.message) else None)
    {
      var t1 := Mount();
      Unmount();
      var t2 := Mount();
      SettleMountCheck(t2, second);
      SettleMountCheck(t1, first);
    }

    /** What `logout` does before its `await`. */
    method LogoutStart()
      modifies this`isLoading, this`error
      ensures isLoading && error == None
    {
      isLoading := true;
      error := None;
    }

    /** What `logout` does once the logout call has settled: a success
        clears the user, a failure keeps the user and records the error (its
        message, or "登出失敗" for a non-Error); either way loading ends. */
    method LogoutSettle(outcome: Completion<LogoutResponse>)
      modifies this`user, this`isLoading, this`error
      ensures !isLoading
      ensures outcome.Return? ==> user == None && error == old(error)
      ensures outcome.Throw? ==>
                user == old(user) && error == Some(MessageOr(outcome.thrown, LogoutFailure))
    {
      match outcome {
        case Return(_) =>
          user := None;
        case Throw(err) =>
          error := Some(MessageOr(err, LogoutFailure));
      }
      isLoading := false;
    }

    /** A whole `logout()` against the logout endpoint's answer. Only an ok
        response signs the user out. A non-ok status records "登出失敗";
        a rejected read of the body or a network failure records its own
        message; an abort, which no signal of `logout` can cause, records
        the AbortError's text, left empty here. Every failure keeps the
        user. */
    method Logout(resp: Response<LogoutResponse>)
      modifies this`user, this`isLoading, this`error
      ensures !isLoading
      ensures resp.Ok? ==> user == None && error == None
      ensures resp.NonOk? ==> user == old(user) && error == Some(LogoutFailure)
      ensures resp.BodyRejected? || resp.NetworkFailure? ==> user == old(user) && error == Some(resp.message)
      ensures resp.Aborted? ==> user == old(user) && error == Some("")
    {
      LogoutStart();
      LogoutSettle(AuthApi.Logout(resp));
    }
  }
}
