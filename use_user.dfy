/** The profile hook (src/hooks/useUser.tsx): a loading flag and an error
    message around the session store's `updateUserProfile`, whose failure it
    records and rethrows. The hook obtains the store through `useAuth` from
    src/hooks/useAuth, which is not part of this model; it is taken to be the
    `AuthProvider` state of src/contexts/AuthContext.tsx. */
module UseUser {
  import opened Wrappers
  import opened Types
  import opened ApiService
  import opened AuthContext

  const UpdateFailedText := "Failed to update profile"

  class UserHook {
    var loading: bool
    var error: Option<string>
    const auth: AuthProvider

    constructor (auth: AuthProvider)
      ensures this.auth == auth && !loading && error == None
    {
      this.auth := auth;
      loading := false;
      error := None;
    }

    /** `updateProfile(userData)`: delegate to the session store; on a
        throw, record the fixed message and throw the same reason again. */
    method UpdateProfile(patch: UserPatch, answer: Answer<User>) returns (done: Completion, sent: seq<Request>)
      modifies this`loading, this`error, auth`user, auth`loading, auth.storage
      ensures !loading
      ensures old(auth.user).None? || !old(auth.IsAuthenticated()) ==>
                done == Resolved && sent == [] && error == None && auth.user == old(auth.user)
      ensures old(auth.user).Some? && old(auth.IsAuthenticated()) ==>
                sent == [Request(UpdateUser(old(auth.user).value.username, patch), CredentialHeaders(old(auth.storage.items)))]
      ensures old(auth.user).Some? && old(auth.IsAuthenticated()) && answer.Reply? ==>
                done == Resolved && error == None && auth.user == Some(answer.data)
      ensures old(auth.user).Some? && old(auth.IsAuthenticated()) && answer.Fault? ==>
                done == Threw(Rejected(answer.error)) && error == Some(UpdateFailedText) && auth.user == old(auth.user)
      ensures done.Threw? <==> error == Some(UpdateFailedText)
      ensures old(auth.user).None? || !old(auth.IsAuthenticated()) ==>
                auth.loading == old(auth.loading) && auth.storage.items == old(auth.storage.items)
      ensures old(auth.user).Some? && old(auth.IsAuthenticated()) ==> !auth.loading
      ensures old(auth.user).Some? && old(auth.IsAuthenticated()) && answer.Reply? ==>
                auth.storage.items == old(auth.storage.items)
      ensures old(auth.user).Some? && old(auth.IsAuthenticated()) && answer.Fault? ==>
                auth.storage.items == ItemsAfterFault(old(auth.storage.items), answer.error)
    {
      loading := true;
      error := None;
      done, sent := auth.UpdateUserProfile(patch, answer);
      if done.Threw? {
        error := Some(UpdateFailedText);
      }
      loading := false;
    }
  }
}
