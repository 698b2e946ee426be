/**
 * The authentication hook (hooks/useAuth.ts): one state record, replaced whole by the
 * startup check, by login and by logout.
 */
module Auth {
  import opened Wrappers
  import opened Types
  import Api

  datatype AuthState = AuthState(isLoading: bool, isAuthenticated: bool,
                                 ownerName: Option<string>, botName: Option<string>)

  /** The record every failed or negative check and every logout leaves. */
  const SignedOut: AuthState := AuthState(false, false, None, None)

  /** Names are only known while signed in. */
  predicate Consistent(s: AuthState)
  {
    !s.isAuthenticated ==> s.ownerName.None? && s.botName.None?
  }

  /**
   * The record `checkAuth` arrives at when the store holds `items` (or a read throws) and
   * the validation probe answers `probe`: signed out without a token; otherwise signed in
   * exactly when the token validates, keeping the stored names only then.
   */
  function Checked(readFailed: bool, items: map<string, string>, probe: Api.Probe): (r: AuthState)
    ensures !r.isLoading && Consistent(r)
    ensures r.isAuthenticated <==>
      !readFailed && Api.Present(Api.Item(items, Api.TokenKey)) && (probe.NetworkError? || probe.ok)
    ensures r.isAuthenticated ==>
      r.ownerName == Api.Item(items, Api.OwnerNameKey) && r.botName == Api.Item(items, Api.BotNameKey)
  {
    var token := Api.Item(items, Api.TokenKey);
    if readFailed || !Api.Present(token) then SignedOut
    else
      var valid := Api.IsAuthenticated(token, probe).valid;
      AuthState(false, valid,
                if valid then Api.Item(items, Api.OwnerNameKey) else None,
                if valid then Api.Item(items, Api.BotNameKey) else None)
  }

  /** The record a successful login sets. */
  function SignedIn(auth: AuthResponse): (r: AuthState)
    ensures Consistent(r) && r.isAuthenticated && !r.isLoading
    ensures r.ownerName == Some(auth.ownerName) && r.botName == Some(auth.botName)
  {
    AuthState(false, true, Some(auth.ownerName), Some(auth.botName))
  }

  /**
   * After a successful login with a non-empty token, the next check reaches the record the
   * login set, unless the server rejects the token.
   */
  lemma CheckAfterLogin(items: map<string, string>, auth: AuthResponse, probe: Api.Probe)
    requires auth.token != ""
    ensures Checked(false, Api.StoredLogin(items, auth), probe) ==
      (if probe.NetworkError? || probe.ok then SignedIn(auth) else SignedOut)
  {
    Api.StoredLoginContents(items, auth, Api.TokenKey);
  }

  /** After a logout every check reaches the signed-out record. */
  lemma CheckAfterLogout(items: map<string, string>, readFailed: bool, probe: Api.Probe)
    ensures Checked(readFailed, items - Api.AuthKeys(), probe) == SignedOut
  {
    assert Api.TokenKey in Api.AuthKeys();
  }

  class AuthHook {
    var state: AuthState

    constructor ()
      ensures state == AuthState(true, false, None, None) && Consistent(state)
    {
      state := AuthState(true, false, None, None);
    }

    /**
     * `checkAuth` (also `refresh`): the record `Checked` gives; the validation request is
     * sent only when a token is stored.
     */
    method CheckAuth(store: Api.SecureStore, readFailed: bool, probe: Api.Probe)
      returns (request: Option<Api.Request>)
      modifies this
      ensures state == Checked(readFailed, store.items, probe)
      ensures request.Some? <==> !readFailed && Api.Present(Api.Item(store.items, Api.TokenKey))
      ensures request.Some? ==>
        request.value == Api.Request("/owner/api/data", [], Api.AuthHeaders(Api.Item(store.items, Api.TokenKey)))
    {
      var token := Api.Item(store.items, Api.TokenKey);
      if readFailed || !Api.Present(token) {
        state := SignedOut;
        request := None;
        return;
      }
      var ownerName := Api.Item(store.items, Api.OwnerNameKey);
      var botName := Api.Item(store.items, Api.BotNameKey);
      var validation := Api.IsAuthenticated(token, probe);
      var valid := validation.valid;
      state := AuthState(false, valid, if valid then ownerName else None, if valid then botName else None);
      request := validation.request;
    }

    /** `login`: on success persists the response and signs in; a throw leaves the record. */
    method Login(store: Api.SecureStore, reply: Api.LoginReply) returns (r: Result<AuthResponse, string>)
      modifies this, store
      ensures r == Api.LoginResult(reply)
      ensures r.Success? ==> store.items == Api.StoredLogin(old(store.items), r.value) && state == SignedIn(r.value)
      ensures r.Failure? ==> store.items == old(store.items) && state == old(state)
    {
      r := Api.Login(store, reply);
      if r.Success? {
        state := SignedIn(r.value);
      }
    }

    /** `logout`: clears the auth keys and signs out. */
    method Logout(store: Api.SecureStore)
      modifies this, store
      ensures store.items == old(store.items) - Api.AuthKeys()
      ensures state == SignedOut
    {
      Api.Logout(store);
      state := SignedOut;
    }
  }
}
