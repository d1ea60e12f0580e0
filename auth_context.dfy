/** The session store (src/contexts/AuthContext.tsx): the in-memory
    `token`, `user` and `loading` state of the `AuthProvider`, the persisted
    `token` it shares with the gateway through `localStorage`, and its
    operations. Each asynchronous handler is one sequential step; the
    backend's answers are its parameters. */
module AuthContext {
  import opened Wrappers
  import opened Types
  import opened Storage
  import opened Js
  import opened ApiService

  /** The body of a login or register response. */
  datatype AuthReply = AuthReply(token: Option<string>)

  /** How an `async` handler ends: it resolves, or it throws (rejects) with a reason. */
  datatype Completion = Resolved | Threw(reason: Rejection)

  const RoleUser := "USER"
  const RoleAdmin := "ADMIN"
  const LoginRoute := "/login"

  /** `{ ...base, ...patch }`: every key present in the patch overrides the base record. */
  function Spread(base: User, patch: UserPatch): (u: User)
    ensures patch.id.Some? ==> u.id == patch.id.value
    ensures patch.id.None? ==> u.id == base.id
    ensures patch.username.Some? ==> u.username == patch.username.value
    ensures patch.username.None? ==> u.username == base.username
    ensures patch.email.Some? ==> u.email == patch.email.value
    ensures patch.email.None? ==> u.email == base.email
    ensures patch.role.Some? ==> u.role == patch.role.value
    ensures patch.role.None? ==> u.role == base.role
    ensures patch.password.Some? ==> u.password == patch.password
    ensures patch.password.None? ==> u.password == base.password
    ensures patch.phoneNumber.Some? ==> u.phoneNumber == patch.phoneNumber
    ensures patch.phoneNumber.None? ==> u.phoneNumber == base.phoneNumber
    ensures patch.preferredLocation.Some? ==> u.preferredLocation == patch.preferredLocation
    ensures patch.preferredLocation.None? ==> u.preferredLocation == base.preferredLocation
    ensures patch.budget.Some? ==> u.budget == patch.budget
    ensures patch.budget.None? ==> u.budget == base.budget
    ensures patch.preferredGender.Some? ==> u.preferredGender == patch.preferredGender
    ensures patch.preferredGender.None? ==> u.preferredGender == base.preferredGender
  {
    User(
      if patch.id.Some? then patch.id.value else base.id,
      if patch.username.Some? then patch.username.value else base.username,
      if patch.email.Some? then patch.email.value else base.email,
      if patch.password.Some? then patch.password else base.password,
      if patch.role.Some? then patch.role.value else base.role,
      if patch.phoneNumber.Some? then patch.phoneNumber else base.phoneNumber,
      if patch.preferredLocation.Some? then patch.preferredLocation else base.preferredLocation,
      if patch.budget.Some? then patch.budget else base.budget,
      if patch.preferredGender.Some? then patch.preferredGender else base.preferredGender)
  }

  /** The user `register` seeds from the submitted data before any profile fetch:
      `{ username: d.username || '', email: d.email || '', role: 'USER', ...d, id: '' }`. */
  function SeedUser(d: UserPatch): (u: User)
    ensures u.id == ""
    ensures u.role == (if d.role.Some? then d.role.value else RoleUser)
    ensures u.username == d.username.GetOr("") && u.email == d.email.GetOr("")
    ensures u.password == d.password && u.phoneNumber == d.phoneNumber
    ensures u.preferredLocation == d.preferredLocation && u.budget == d.budget
    ensures u.preferredGender == d.preferredGender
  {
    var base := User("", d.username.GetOr(""), d.email.GetOr(""), None, RoleUser, None, None, None, None);
    Spread(base, d).(id := "")
  }

  class AuthProvider {
    var user: Option<User>
    var token: Option<string>
    var loading: bool
    /** The last route this provider navigated to. */
    var navigatedTo: Option<string>
    const storage: LocalStorage

    /** Mounting the provider: the token is read from storage, no user yet, loading. */
    constructor (storage: LocalStorage)
      ensures this.storage == storage
      ensures token == storage.GetItem(TokenKey) && user == None && loading && navigatedTo == None
    {
      this.storage := storage;
      token := storage.GetItem(TokenKey);
      user := None;
      loading := true;
      navigatedTo := None;
    }

    /** `!!token`: an empty token does not authenticate. */
    function IsAuthenticated(): (b: bool)
      reads this
      ensures b <==> token.Some? && token.value != ""
    {
      Truthy(token)
    }

    /** `user?.role === 'ADMIN'`: false, without failing, when there is no user. */
    function IsAdmin(): (b: bool)
      reads this
      ensures b <==> user.Some? && user.value.role == RoleAdmin
      ensures user.None? ==> !b
    {
      match user
      case None => false
      case Some(u) => u.role == RoleAdmin
    }

    method Logout()
      modifies this`token, this`user, this`navigatedTo, storage
      ensures storage.items == old(storage.items) - {TokenKey}
      ensures UsernameKey in old(storage.items) ==> UsernameKey in storage.items
      ensures token == None && user == None && navigatedTo == Some(LoginRoute)
      ensures !IsAuthenticated() && !IsAdmin()
    {
      storage.RemoveItem(TokenKey);
      token := None;
      user := None;
      navigatedTo := Some(LoginRoute);
    }

    /** Fetch the current user's record, addressed by the persisted username
        (printed as "null" when none is persisted). */
    method FetchUserProfile(answer: Answer<User>) returns (done: Completion, sent: seq<Request>)
      modifies this`user, storage
      ensures !old(IsAuthenticated()) ==>
                done == Resolved && sent == [] && user == old(user) && storage.items == old(storage.items)
      ensures old(IsAuthenticated()) ==>
                sent == [Request(GetUserByUsername(Template(old(storage.GetItem(UsernameKey)))),
                                 CredentialHeaders(old(storage.items)))]
      ensures old(IsAuthenticated()) && answer.Reply? ==>
                done == Resolved && user == Some(answer.data) && storage.items == old(storage.items)
      ensures old(IsAuthenticated()) && answer.Fault? ==>
                done == Threw(Rejected(answer.error)) && user == old(user)
                && storage.items == ItemsAfterFault(old(storage.items), answer.error)
    {
      if !IsAuthenticated() {
        return Resolved, [];
      }
      var username := storage.GetItem(UsernameKey);
      var req, r := Exchange(storage, GetUserByUsername(Template(username)), answer);
      sent := [req];
      match r
      case Success(data) =>
        user := Some(data);
        done := Resolved;
      case Failure(reason) =>
        done := Threw(reason);
    }

    /** The start-up check, run whenever `token` changes. */
    method CheckAuth(answer: Answer<User>) returns (sent: seq<Request>)
      modifies this`user, this`token, this`loading, this`navigatedTo, storage
      ensures !loading
      ensures !old(IsAuthenticated()) ==>
                sent == [] && user == old(user) && token == old(token) && navigatedTo == old(navigatedTo)
                && storage.items == old(storage.items)
      ensures old(IsAuthenticated()) ==>
                sent == [Request(GetUserByUsername(Template(old(storage.GetItem(UsernameKey)))),
                                 CredentialHeaders(old(storage.items)))]
      ensures old(IsAuthenticated()) && answer.Reply? ==>
                user == Some(answer.data) && token == old(token) && navigatedTo == old(navigatedTo)
                && storage.items == old(storage.items)
      ensures old(IsAuthenticated()) && answer.Fault? ==>
                user == None && token == None && navigatedTo == Some(LoginRoute)
                && storage.items == ItemsAfterFault(old(storage.items), answer.error) - {TokenKey}
    {
      if IsAuthenticated() {
        var done;
        done, sent := FetchUserProfile(answer);
        if done.Threw? {
          Logout();
        }
        loading := false;
      } else {
        sent := [];
        loading := false;
      }
    }

    /** Log in; on a truthy token, persist it, adopt it, fetch the profile and go to the dashboard. */
    method Login(username: string, password: string, reply: Answer<AuthReply>, profile: Answer<User>)
      returns (done: Completion, sent: seq<Request>)
      modifies this`user, this`token, this`loading, this`navigatedTo, storage
      ensures !loading
      ensures |sent| >= 1 && sent[0] == Request(PostLogin(username, password), CredentialHeaders(old(storage.items)))
      // the backend refused the credentials
      ensures reply.Fault? ==>
                done == Threw(Rejected(reply.error)) && sent == [sent[0]]
                && token == old(token) && user == old(user) && navigatedTo == old(navigatedTo)
                && storage.items == ItemsAfterFault(old(storage.items), reply.error)
      // the response carries no usable token: nothing changes and nothing is thrown
      ensures reply.Reply? && !Truthy(reply.data.token) ==>
                done == Resolved && sent == [sent[0]]
                && token == old(token) && user == old(user) && navigatedTo == old(navigatedTo)
                && storage.items == old(storage.items)
      // a token: persisted and adopted, then exactly one profile fetch with it,
      // addressed by the username persisted before this call
      ensures reply.Reply? && Truthy(reply.data.token) ==>
                token == reply.data.token
                && |sent| == 2
                && sent[1] == Request(GetUserByUsername(Template(old(storage.GetItem(UsernameKey)))),
                                      CredentialHeaders(old(storage.items)[TokenKey := reply.data.token.value]))
      ensures reply.Reply? && Truthy(reply.data.token) && profile.Reply? ==>
                done == Resolved && user == Some(profile.data) && navigatedTo == Some(DashboardRoute)
                && storage.items == old(storage.items)[TokenKey := reply.data.token.value]
      // the profile fetch failed: rethrown, and the persisted token is kept unless that failure was a 401
      ensures reply.Reply? && Truthy(reply.data.token) && profile.Fault? ==>
                done == Threw(Rejected(profile.error)) && user == old(user) && navigatedTo == old(navigatedTo)
                && storage.items == ItemsAfterFault(old(storage.items)[TokenKey := reply.data.token.value], profile.error)
    {
      loading := true;
      var req, r := Exchange(storage, PostLogin(username, password), reply);
      sent := [req];
      if r.Failure? {
        done := Threw(r.error);
        loading := false;
        return;
      }
      var replyToken := r.value.token;
      if Truthy(replyToken) {
        storage.SetItem(TokenKey, replyToken.value);
        token := replyToken;
        var fetched, more := FetchUserProfile(profile);
        sent := sent + more;
        if fetched.Threw? {
          done := fetched;
          loading := false;
          return;
        }
        navigatedTo := Some(DashboardRoute);
      }
      done := Resolved;
      loading := false;
    }

    /** Register; on a truthy token, persist it, adopt it and seed `user` from the submitted data. */
    method Register(userData: UserPatch, reply: Answer<AuthReply>) returns (done: Completion, sent: seq<Request>)
      modifies this`user, this`token, this`loading, this`navigatedTo, storage
      ensures !loading
      ensures sent == [Request(PostRegister(userData), CredentialHeaders(old(storage.items)))]
      ensures reply.Fault? ==>
                done == Threw(Rejected(reply.error))
                && token == old(token) && user == old(user) && navigatedTo == old(navigatedTo)
                && storage.items == ItemsAfterFault(old(storage.items), reply.error)
      ensures reply.Reply? && !Truthy(reply.data.token) ==>
                done == Resolved && token == old(token) && user == old(user) && navigatedTo == old(navigatedTo)
                && storage.items == old(storage.items)
      ensures reply.Reply? && Truthy(reply.data.token) ==>
                done == Resolved && token == reply.data.token && user == Some(SeedUser(userData))
                && navigatedTo == Some(DashboardRoute)
                && storage.items == old(storage.items)[TokenKey := reply.data.token.value]
    {
      loading := true;
      var req, r := Exchange(storage, PostRegister(userData), reply);
      sent := [req];
      if r.Failure? {
        done := Threw(r.error);
        loading := false;
        return;
      }
      var replyToken := r.value.token;
      if Truthy(replyToken) {
        storage.SetItem(TokenKey, replyToken.value);
        token := replyToken;
        user := Some(SeedUser(userData));
        navigatedTo := Some(DashboardRoute);
      }
      done := Resolved;
      loading := false;
    }

    /** Send a partial update of the current user; the server's record replaces `user`. */
    method UpdateUserProfile(patch: UserPatch, answer: Answer<User>) returns (done: Completion, sent: seq<Request>)
      modifies this`user, this`loading, storage
      // without a user or a token: an immediate, silent return
      ensures old(user).None? || !old(IsAuthenticated()) ==>
                done == Resolved && sent == [] && user == old(user) && loading == old(loading)
                && storage.items == old(storage.items)
      ensures old(user).Some? && old(IsAuthenticated()) ==>
                !loading
                && sent == [Request(UpdateUser(old(user).value.username, patch), CredentialHeaders(old(storage.items)))]
      ensures old(user).Some? && old(IsAuthenticated()) && answer.Reply? ==>
                done == Resolved && user == Some(answer.data) && storage.items == old(storage.items)
      ensures old(user).Some? && old(IsAuthenticated()) && answer.Fault? ==>
                done == Threw(Rejected(answer.error)) && user == old(user)
                && storage.items == ItemsAfterFault(old(storage.items), answer.error)
    {
      if user.None? || !IsAuthenticated() {
        return Resolved, [];
      }
      loading := true;
      var req, r := Exchange(storage, UpdateUser(user.value.username, patch), answer);
      sent := [req];
      match r {
        case Success(data) =>
          user := Some(data);
          done := Resolved;
        case Failure(reason) =>
          done := Threw(reason);
      }
      loading := false;
    }
  }

  /** Logging out twice leaves the same state as logging out once, and the
      persisted username survives both. */
  method LogoutIsIdempotent(auth: AuthProvider)
    modifies auth, auth.storage
    ensures auth.token == None && auth.user == None && auth.navigatedTo == Some(LoginRoute)
    ensures auth.storage.items == old(auth.storage.items) - {TokenKey}
    ensures UsernameKey in old(auth.storage.items) ==> auth.storage.items[UsernameKey] == old(auth.storage.items)[UsernameKey]
  {
    auth.Logout();
    ghost var once := auth.storage.items;
    auth.Logout();
    assert auth.storage.items == once;
  }
}
