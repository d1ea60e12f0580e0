/** End-to-end runs through several components at once: a sign-in followed
    by the gate's decisions, and a rejected credential followed by the page
    reload the gateway asks for. */
module Scenarios {
  import opened Wrappers
  import opened Types
  import opened Storage
  import opened ApiService
  import opened AuthContext
  import PR = ProtectedRoute
  import L = Login
  import UP = UseProperties

  const Alice := User("1", "alice", "alice@example.com", None, RoleUser, None, None, None, None)

  /** A browser that still remembers alice's username from an earlier
      session (logging out keeps it) mounts the app, then alice signs in with password
      "correct", the backend answers token "tok123" and her record: exactly
      one login call and one profile fetch go out, the token is persisted,
      and the gate lets her into ordinary protected routes but sends her to
      the fallback from the admin route. */
  method AliceSignsIn() returns (auth: AuthProvider, sent: seq<Request>)
    ensures auth.token == Some("tok123") && auth.user == Some(Alice) && !auth.loading
    ensures auth.storage.items == map[TokenKey := "tok123", UsernameKey := "alice"]
    ensures |sent| == 2 && sent[0].call == PostLogin("alice", "correct") && sent[1].call.path == UsersPrefix + "alice"
    ensures sent[1].headers == map[AuthorizationHeader := BearerPrefix + "tok123"]
    ensures PR.Decide(auth.loading, auth.IsAuthenticated(), auth.IsAdmin(), PR.DefaultProps) == PR.Outlet
    ensures PR.Decide(auth.loading, auth.IsAuthenticated(), auth.IsAdmin(), PR.AdminRouteProps) == PR.Navigate(PR.FallbackRoute)
  {
    var storage := new LocalStorage(map[UsernameKey := "alice"]);
    auth := new AuthProvider(storage);
    var _ := auth.CheckAuth(Reply(Alice));
    var page := new L.LoginPage(auth);
    page.SetUsername("alice");
    page.SetPassword("correct");
    var _, s := page.HandleSubmit(Reply(AuthReply(Some("tok123"))), Reply(Alice));
    sent := s;
  }

  /** A 401 on any call, here the hook's own-listings fetch, removes the
      persisted token and username. The provider in memory still holds its
      token, so until the reload the gate keeps letting the user in; the
      provider mounted by the reload finds no token and the gate then
      redirects to "/login". */
  method UnauthorizedThenReload(auth: AuthProvider, e: HttpError, anyProfile: Answer<User>) returns (reloaded: AuthProvider)
    requires IsUnauthorized(e) && auth.IsAuthenticated() && !auth.loading
    modifies auth.storage
    ensures TokenKey !in auth.storage.items && UsernameKey !in auth.storage.items
    ensures PR.Decide(auth.loading, auth.IsAuthenticated(), auth.IsAdmin(), PR.DefaultProps) == PR.Outlet
    ensures PR.Decide(reloaded.loading, reloaded.IsAuthenticated(), reloaded.IsAdmin(), PR.DefaultProps)
              == PR.Navigate("/login")
  {
    var hook := new UP.PropertiesHook(auth.storage);
    var _ := UP.Fetch(hook, UP.FetchUser, Fault(e));
    reloaded := new AuthProvider(auth.storage);
    var _ := reloaded.CheckAuth(anyProfile);
  }
}
