/** The login page (src/pages/auth/Login.tsx): two text fields, a loading
    flag, and the submit handler that refuses empty fields, delegates to the
    session store, and persists the username once login has resolved. */
module Login {
  import opened Wrappers
  import opened Types
  import opened Storage
  import opened Js
  import opened ApiService
  import opened AuthContext

  class LoginPage {
    var username: string
    var password: string
    var loading: bool
    const auth: AuthProvider

    constructor (auth: AuthProvider)
      ensures this.auth == auth && username == "" && password == "" && !loading
    {
      this.auth := auth;
      username, password := "", "";
      loading := false;
    }

    method SetUsername(value: string)
      modifies this`username
      ensures username == value
    {
      username := value;
    }

    method SetPassword(value: string)
      modifies this`password
      ensures password == value
    {
      password := value;
    }

    /** `handleSubmit`. An empty field stops it before any call. Otherwise
        `login` runs; only when it resolves, which includes a reply without
        a token, is the typed username persisted, after the profile fetch
        inside `login` has already been addressed. */
    method HandleSubmit(reply: Answer<AuthReply>, profile: Answer<User>) returns (submitted: bool, sent: seq<Request>)
      modifies this`loading, auth`user, auth`token, auth`loading, auth`navigatedTo, auth.storage
      ensures submitted <==> username != "" && password != ""
      ensures !submitted ==>
                sent == [] && loading == old(loading) && auth.token == old(auth.token) && auth.user == old(auth.user)
                && auth.navigatedTo == old(auth.navigatedTo) && auth.storage.items == old(auth.storage.items)
      ensures submitted ==>
                !loading && !auth.loading && |sent| >= 1
                && sent[0] == Request(PostLogin(username, password), CredentialHeaders(old(auth.storage.items)))
      ensures submitted && reply.Fault? ==>
                auth.storage.items == ItemsAfterFault(old(auth.storage.items), reply.error)
                && auth.token == old(auth.token) && auth.user == old(auth.user)
      ensures submitted && reply.Reply? && !Truthy(reply.data.token) ==>
                auth.storage.items == old(auth.storage.items)[UsernameKey := username]
                && auth.token == old(auth.token) && auth.user == old(auth.user)
      ensures submitted && reply.Reply? && Truthy(reply.data.token) ==>
                auth.token == reply.data.token
                && sent == [sent[0], Request(GetUserByUsername(Template(old(auth.storage.GetItem(UsernameKey)))),
                                             CredentialHeaders(old(auth.storage.items)[TokenKey := reply.data.token.value]))]
      ensures submitted && reply.Reply? && Truthy(reply.data.token) && profile.Reply? ==>
                auth.storage.items == old(auth.storage.items)[TokenKey := reply.data.token.value][UsernameKey := username]
                && auth.user == Some(profile.data) && auth.navigatedTo == Some(DashboardRoute)
      ensures submitted && reply.Reply? && Truthy(reply.data.token) && profile.Fault? ==>
                auth.storage.items
                  == ItemsAfterFault(old(auth.storage.items)[TokenKey := reply.data.token.value], profile.error)
                && auth.user == old(auth.user) && auth.navigatedTo == old(auth.navigatedTo)
      ensures !submitted ==> auth.loading == old(auth.loading)
      ensures submitted && (reply.Fault? || !Truthy(reply.data.token)) ==> auth.navigatedTo == old(auth.navigatedTo)
    {
      if username == "" || password == "" {
        return false, [];
      }
      submitted := true;
      loading := true;
      var done;
      done, sent := auth.Login(username, password, reply, profile);
      if done.Resolved? {
        auth.storage.SetItem(UsernameKey, username);
      }
      loading := false;
    }
  }
}
