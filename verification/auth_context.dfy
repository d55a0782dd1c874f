/**
 * The session store: a reducer over `AuthState`, and the provider whose
 * `login`, `signup`, `logout` and start-up restore run sequences of storage
 * writes and dispatches into it.
 */
module AuthContext {
  import opened Types
  import AuthService

  datatype AuthAction =
    | LoginStart
    | LoginSuccess(user: User, token: string)
    | LoginError
    | Logout
    | RestoreSession(user: User, token: string)
      /** Any other action object: the reducer's `default` branch. */
    | Unknown

  const InitialAuthState := AuthState(None, None, false, false)

  function AuthReducer(state: AuthState, action: AuthAction): AuthState {
    match action
    case LoginStart => state.(isLoading := true)
    case LoginSuccess(u, t) => AuthState(Some(u), Some(t), true, false)
    case LoginError => AuthState(None, None, false, false)
    case Logout => AuthState(None, None, false, false)
    case RestoreSession(u, t) => AuthState(Some(u), Some(t), true, false)
    case Unknown => state
  }

  /** The state reached by dispatching `actions`, in order, from the initial state. */
  function Replay(actions: seq<AuthAction>): AuthState {
    if |actions| == 0 then InitialAuthState
    else AuthReducer(Replay(actions[..|actions| - 1]), actions[|actions| - 1])
  }

  /** Authenticated exactly when a user is present, exactly when a token is present. */
  predicate Consistent(s: AuthState) {
    (s.isAuthenticated <==> s.user.Some?) && (s.user.Some? <==> s.token.Some?)
  }

  // ---------------------------------------------------------------------
  // Properties of the reducer
  // ---------------------------------------------------------------------

  lemma LoginStartOnlyRaisesLoading(s: AuthState)
    ensures var t := AuthReducer(s, LoginStart);
      t.isLoading && t.user == s.user && t.token == s.token && t.isAuthenticated == s.isAuthenticated
  {
  }

  /** A successful login and a restored session are indistinguishable. */
  lemma SuccessAndRestoreAgree(s: AuthState, u: User, t: string)
    ensures AuthReducer(s, LoginSuccess(u, t)) == AuthReducer(s, RestoreSession(u, t))
    ensures AuthReducer(s, LoginSuccess(u, t)) == AuthState(Some(u), Some(t), true, false)
  {
  }

  /** A failed login and a logout both return to the initial state. */
  lemma ErrorAndLogoutReset(s: AuthState)
    ensures AuthReducer(s, LoginError) == InitialAuthState
    ensures AuthReducer(s, Logout) == InitialAuthState
  {
  }

  /** Every action keeps the session consistent. */
  lemma ReducerKeepsConsistent(s: AuthState, a: AuthAction)
    requires Consistent(s)
    ensures Consistent(AuthReducer(s, a))
  {
  }

  /** Every sequence of actions from the initial state ends in a consistent session. */
  lemma {:induction false} ReplayConsistent(actions: seq<AuthAction>)
    ensures Consistent(Replay(actions))
  {
    if |actions| > 0 {
      ReplayConsistent(actions[..|actions| - 1]);
      ReducerKeepsConsistent(Replay(actions[..|actions| - 1]), actions[|actions| - 1]);
    }
  }

  lemma ReplaySnoc(actions: seq<AuthAction>, a: AuthAction)
    ensures Replay(actions + [a]) == AuthReducer(Replay(actions), a)
  {
    assert (actions + [a])[..|actions|] == actions;
  }

  // ---------------------------------------------------------------------
  // The provider
  // ---------------------------------------------------------------------

  class AuthProvider {
    var state: AuthState
    /** Every action dispatched so far, oldest first. */
    ghost var dispatched: seq<AuthAction>
    const store: AuthService.LocalStore

    ghost predicate Valid()
      reads this
    {
      state == Replay(dispatched)
    }

    constructor (store: AuthService.LocalStore)
      ensures Valid() && this.store == store
      ensures state == InitialAuthState && dispatched == []
    {
      this.store := store;
      state := InitialAuthState;
      dispatched := [];
    }

    method Dispatch(a: AuthAction)
      requires Valid()
      modifies this
      ensures Valid() && Consistent(state)
      ensures dispatched == old(dispatched) + [a]
      ensures state == AuthReducer(old(state), a)
    {
      ReplaySnoc(dispatched, a);
      state := AuthReducer(state, a);
      dispatched := dispatched + [a];
      ReplayConsistent(dispatched);
    }

    /** The mount effect: restore only when storage yields both a user and a token. */
    method RestoreSession()
      requires Valid()
      modifies this
      ensures Valid() && Consistent(state) && store.items == old(store.items)
      ensures var (u, t) := AuthService.CurrentUserIn(store.items);
        if u.Some? && t.Some? then
          dispatched == old(dispatched) + [AuthAction.RestoreSession(u.value, t.value)]
          && state == AuthState(u, t, true, false)
        else
          dispatched == old(dispatched) && state == old(state)
    {
      ReplayConsistent(dispatched);
      var u, t := store.GetCurrentUser();
      if u.Some? && t.Some? {
        Dispatch(AuthAction.RestoreSession(u.value, t.value));
      }
    }

    /**
     * login: LOGIN_START, then either the service's session is saved and
     * LOGIN_SUCCESS dispatched, or (when `fails`, a rejected call)
     * LOGIN_ERROR is dispatched and the error re-thrown (`ok` false).
     */
    method Login(c: AuthService.Credentials, fails: bool) returns (ok: bool)
      requires Valid()
      modifies this, store
      ensures Valid() && Consistent(state) && !state.isLoading && ok == !fails
      ensures var sess := AuthService.Login(c);
        if ok then
          dispatched == old(dispatched) + [LoginStart, LoginSuccess(sess.user, sess.token)]
          && state == AuthState(Some(sess.user), Some(sess.token), true, false)
          && store.items == old(store.items)[AuthService.TokenKey := AuthService.Text(sess.token)]
                                           [AuthService.UserKey := AuthService.UserJson(sess.user)]
        else
          dispatched == old(dispatched) + [LoginStart, LoginError]
          && state == InitialAuthState && store.items == old(store.items)
    {
      Dispatch(LoginStart);
      if fails {
        Dispatch(LoginError);
        ok := false;
      } else {
        var sess := AuthService.Login(c);
        store.SaveAuthData(sess.user, sess.token);
        Dispatch(LoginSuccess(sess.user, sess.token));
        ok := true;
      }
    }

    /** signup: the same sequence as login, with the signup service and a fresh id. */
    method Signup(c: AuthService.Credentials, id: string, fails: bool) returns (ok: bool)
      requires Valid()
      modifies this, store
      ensures Valid() && Consistent(state) && !state.isLoading && ok == !fails
      ensures var sess := AuthService.Signup(c, id);
        if ok then
          dispatched == old(dispatched) + [LoginStart, LoginSuccess(sess.user, sess.token)]
          && state == AuthState(Some(sess.user), Some(sess.token), true, false)
          && store.items == old(store.items)[AuthService.TokenKey := AuthService.Text(sess.token)]
                                           [AuthService.UserKey := AuthService.UserJson(sess.user)]
        else
          dispatched == old(dispatched) + [LoginStart, LoginError]
          && state == InitialAuthState && store.items == old(store.items)
    {
      Dispatch(LoginStart);
      if fails {
        Dispatch(LoginError);
        ok := false;
      } else {
        var sess := AuthService.Signup(c, id);
        store.SaveAuthData(sess.user, sess.token);
        Dispatch(LoginSuccess(sess.user, sess.token));
        ok := true;
      }
    }

    /** logout: clear storage, then dispatch LOGOUT. */
    method Logout()
      requires Valid()
      modifies this, store
      ensures Valid() && state == InitialAuthState
      ensures dispatched == old(dispatched) + [AuthAction.Logout]
      ensures store.items == old(store.items) - {AuthService.TokenKey, AuthService.UserKey}
      ensures AuthService.CurrentUserIn(store.items) == (None, None)
    {
      store.Logout();
      Dispatch(AuthAction.Logout);
      AuthService.LogoutThenRead(old(store.items));
    }
  }

  /** After a successful login, a page reload restores exactly the same session. */
  lemma LoginSurvivesReload(c: AuthService.Credentials, items: map<string, AuthService.StoredValue>)
    ensures var sess := AuthService.Login(c);
      var after := items[AuthService.TokenKey := AuthService.Text(sess.token)]
                        [AuthService.UserKey := AuthService.UserJson(sess.user)];
      AuthService.CurrentUserIn(after) == (Some(sess.user), Some(sess.token))
  {
    AuthService.IssuedTokensAreNonEmpty(c, "");
    AuthService.SaveThenRead(items, AuthService.Login(c).user, AuthService.Login(c).token);
  }
}
