/**
 * The root layout's route guard (app/_layout.tsx): a startup check that only looks for a
 * stored token, and a redirect rule on the loading flag, the authentication flag and the
 * first segment of the current route.
 */
module RootLayout {
  import opened Wrappers
  import Api
  import Auth

  const AppGroup: string := "(app)"
  const ChatRoute: string := "/(app)/chat"
  const WelcomeRoute: string := "/"

  /** `segments[0] === "(app)"`: the current route lies in the signed-in group. */
  predicate InApp(segments: seq<string>)
  {
    |segments| > 0 && segments[0] == AppGroup
  }

  /**
   * The redirect effect: nothing while loading; the chat for a signed-in user outside the
   * app group; the welcome screen for a signed-out user inside it; nothing otherwise.
   */
  function Redirect(isLoading: bool, isAuthenticated: bool, segments: seq<string>): (r: Option<string>)
    ensures isLoading ==> r.None?
    ensures !isLoading && isAuthenticated && !InApp(segments) ==> r == Some(ChatRoute)
    ensures !isLoading && !isAuthenticated && InApp(segments) ==> r == Some(WelcomeRoute)
    ensures r.None? <==> isLoading || isAuthenticated == InApp(segments)
  {
    if isLoading then None
    else if isAuthenticated && !InApp(segments) then Some(ChatRoute)
    else if !isAuthenticated && InApp(segments) then Some(WelcomeRoute)
    else None
  }

  /**
   * The redirect settles: on the route it leads to (the chat lies in the app group, the
   * welcome screen does not) the rule asks for nothing further.
   */
  lemma RedirectSettles(isAuthenticated: bool, segments: seq<string>, landed: seq<string>)
    requires Redirect(false, isAuthenticated, segments).Some?
    requires InApp(landed) <==> Redirect(false, isAuthenticated, segments) == Some(ChatRoute)
    ensures Redirect(false, isAuthenticated, landed).None?
  {
  }

  /** The guard's check: signed in exactly when a non-empty token is stored. */
  function TokenPresence(items: map<string, string>): (r: bool)
    ensures r <==> Api.TokenKey in items && items[Api.TokenKey] != ""
  {
    Api.Present(Api.Item(items, Api.TokenKey))
  }

  /**
   * The guard admits every user the auth hook signs in; the converse fails when the server
   * rejects the stored token, which this check never asks about.
   */
  lemma GuardAdmitsCheckedUser(readFailed: bool, items: map<string, string>, probe: Api.Probe)
    ensures Auth.Checked(readFailed, items, probe).isAuthenticated ==> TokenPresence(items)
    ensures TokenPresence(items) && !readFailed && probe == Api.Responded(false) ==>
      !Auth.Checked(readFailed, items, probe).isAuthenticated
  {
  }

  class Guard {
    var isLoading: bool
    var isAuthenticated: bool

    constructor ()
      ensures isLoading && !isAuthenticated
    {
      isLoading, isAuthenticated := true, false;
    }

    /** `checkAuth`: token presence, after which loading is over. */
    method CheckAuth(store: Api.SecureStore)
      modifies this
      ensures isAuthenticated == TokenPresence(store.items) && !isLoading
    {
      var token := Api.Item(store.items, Api.TokenKey);
      isAuthenticated := Api.Present(token);
      isLoading := false;
    }
  }
}
