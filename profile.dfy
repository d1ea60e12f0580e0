/** The profile page (src/pages/user/Profile.tsx): the form prefilled from
    the session's user, the editing toggle, and the submit handler with its
    new-password check and the payload that carries a password only when a
    new one was typed. */
module Profile {
  import opened Wrappers
  import opened Numerals
  import opened Types
  import opened ApiService
  import opened AuthContext

  datatype ProfileForm = ProfileForm(
    email: string,
    currentPassword: string,
    newPassword: string,
    confirmPassword: string,
    phoneNumber: string,
    preferredLocation: string,
    budget: string,
    preferredGender: string)

  const EmptyForm := ProfileForm("", "", "", "", "", "", "", "")

  /** `x || ''` for an optional text field. */
  function OrEmpty(o: Option<string>): (s: string)
    ensures o.Some? ==> s == o.value
    ensures o.None? ==> s == ""
  {
    o.GetOr("")
  }

  /** `user.budget ? user.budget.toString() : ''`: 0, NaN and an absent budget all show as empty. */
  function BudgetText(budget: Option<Number>): (s: string)
    ensures s == "" <==> budget.None? || !TruthyNumber(budget.value)
    ensures s != "" ==> IsNumeral(s) && Parse(s) == budget.value
  {
    if budget.Some? && TruthyNumber(budget.value) then IntToString(budget.value.value) else ""
  }

  /** The form the prefill effect builds from the user: the three password
      inputs empty, everything else from the record. */
  function PrefillFrom(u: User): (f: ProfileForm)
    ensures f.email == u.email && f.currentPassword == "" && f.newPassword == "" && f.confirmPassword == ""
    ensures f.phoneNumber == OrEmpty(u.phoneNumber) && f.preferredLocation == OrEmpty(u.preferredLocation)
    ensures f.preferredGender == OrEmpty(u.preferredGender)
    ensures f.budget == BudgetText(u.budget)
  {
    ProfileForm(u.email, "", "", "", OrEmpty(u.phoneNumber), OrEmpty(u.preferredLocation),
                BudgetText(u.budget), OrEmpty(u.preferredGender))
  }

  /** The new password check: only a non-empty new password must match its confirmation. */
  predicate PasswordsAgree(f: ProfileForm) {
    f.newPassword == "" || f.newPassword == f.confirmPassword
  }

  /** The `userData` sent to `updateUserProfile`: email, phone, location and
      gender always (empty text included), the budget parsed when non-empty,
      and `password` only when a new one was typed; never the username, id,
      role or the current password. */
  function ProfilePayload(f: ProfileForm): (d: UserPatch)
    ensures d.email == Some(f.email) && d.phoneNumber == Some(f.phoneNumber)
    ensures d.preferredLocation == Some(f.preferredLocation) && d.preferredGender == Some(f.preferredGender)
    ensures d.budget.Some? <==> f.budget != ""
    ensures d.budget.Some? ==> d.budget.value == Parse(f.budget)
    ensures d.password.Some? <==> f.newPassword != ""
    ensures d.password.Some? ==> d.password.value == f.newPassword
    ensures d.username == None && d.id == None && d.role == None
  {
    UserPatch(
      None, None, Some(f.email),
      if f.newPassword != "" then Some(f.newPassword) else None,
      None,
      Some(f.phoneNumber), Some(f.preferredLocation),
      if f.budget != "" then Some(Parse(f.budget)) else None,
      Some(f.preferredGender))
  }

  /** The current-password input never reaches the backend. */
  lemma {:induction false} CurrentPasswordIgnored(f: ProfileForm, typed: string)
    ensures ProfilePayload(f.(currentPassword := typed)) == ProfilePayload(f)
  {
  }

  /** Submitting the prefilled form unchanged sends back the user's own
      email, a truthy budget as the same number, and no password; a budget
      of 0 is not sent at all. */
  lemma {:induction false} PrefillRoundTrip(u: User)
    ensures ProfilePayload(PrefillFrom(u)).email == Some(u.email)
    ensures ProfilePayload(PrefillFrom(u)).password == None
    ensures u.budget.Some? && TruthyNumber(u.budget.value) ==> ProfilePayload(PrefillFrom(u)).budget == u.budget
    ensures u.budget.None? || !TruthyNumber(u.budget.value) ==> ProfilePayload(PrefillFrom(u)).budget == None
    ensures ProfilePayload(PrefillFrom(u)).phoneNumber == Some(OrEmpty(u.phoneNumber))
  {
    var f := PrefillFrom(u);
    if u.budget.Some? && TruthyNumber(u.budget.value) {
      assert f.budget == IntToString(u.budget.value.value);
      assert Parse(f.budget) == u.budget.value;
    }
  }

  /** The inputs `handleChange` updates by their `name`. */
  datatype TextField = Email | CurrentPassword | NewPassword | ConfirmPassword | PhoneNumber | PreferredLocation | Budget

  function Get(form: ProfileForm, field: TextField): string {
    match field
    case Email => form.email
    case CurrentPassword => form.currentPassword
    case NewPassword => form.newPassword
    case ConfirmPassword => form.confirmPassword
    case PhoneNumber => form.phoneNumber
    case PreferredLocation => form.preferredLocation
    case Budget => form.budget
  }

  /** `{ ...prev, [name]: value }`: that input takes the value, nothing else moves. */
  function WithField(form: ProfileForm, field: TextField, value: string): (r: ProfileForm)
    ensures Get(r, field) == value
    ensures forall other: TextField :: other != field ==> Get(r, other) == Get(form, other)
    ensures r.preferredGender == form.preferredGender
  {
    match field
    case Email => form.(email := value)
    case CurrentPassword => form.(currentPassword := value)
    case NewPassword => form.(newPassword := value)
    case ConfirmPassword => form.(confirmPassword := value)
    case PhoneNumber => form.(phoneNumber := value)
    case PreferredLocation => form.(preferredLocation := value)
    case Budget => form.(budget := value)
  }

  class ProfilePage {
    var formData: ProfileForm
    var isEditing: bool
    var loading: bool
    const auth: AuthProvider

    constructor (auth: AuthProvider)
      ensures this.auth == auth && formData == EmptyForm && !isEditing && !loading
    {
      this.auth := auth;
      formData := EmptyForm;
      isEditing := false;
      loading := false;
    }

    /** The effect keyed on `user`: refill the form when there is a user,
        discarding any unsaved edits. */
    method Prefill()
      modifies this`formData
      ensures auth.user.Some? ==> formData == PrefillFrom(auth.user.value)
      ensures auth.user.None? ==> formData == old(formData)
    {
      if auth.user.Some? {
        formData := PrefillFrom(auth.user.value);
      }
    }

    method StartEditing()
      modifies this`isEditing
      ensures isEditing
    {
      isEditing := true;
    }

    /** Cancel leaves editing mode but keeps whatever was typed. */
    method CancelEditing()
      modifies this`isEditing
      ensures !isEditing && formData == old(formData)
    {
      isEditing := false;
    }

    method HandleChange(field: TextField, value: string)
      modifies this`formData
      ensures formData == WithField(old(formData), field, value)
    {
      formData := WithField(formData, field, value);
    }

    method HandleSelectChange(value: string)
      modifies this`formData
      ensures formData == old(formData).(preferredGender := value)
    {
      formData := formData.(preferredGender := value);
    }

    /** `handleSubmit`: a typed new password that differs from its
        confirmation stops it before any call. Otherwise the payload goes to
        `updateUserProfile`; editing ends whenever that resolves, including
        its silent return when there is no user or token. */
    method HandleSubmit(answer: Answer<User>) returns (submitted: bool, sent: seq<Request>)
      modifies this`isEditing, this`loading, auth`user, auth`loading, auth.storage
      ensures submitted <==> PasswordsAgree(formData)
      ensures !submitted ==>
                sent == [] && isEditing == old(isEditing) && loading == old(loading)
                && auth.user == old(auth.user) && auth.storage.items == old(auth.storage.items)
      ensures submitted ==> !loading
      ensures submitted && (old(auth.user).None? || !old(auth.IsAuthenticated())) ==>
                sent == [] && !isEditing && auth.user == old(auth.user)
      ensures submitted && old(auth.user).Some? && old(auth.IsAuthenticated()) ==>
                sent == [Request(UpdateUser(old(auth.user).value.username, ProfilePayload(formData)),
                                 CredentialHeaders(old(auth.storage.items)))]
      ensures submitted && old(auth.user).Some? && old(auth.IsAuthenticated()) && answer.Reply? ==>
                !isEditing && auth.user == Some(answer.data)
      ensures submitted && old(auth.user).Some? && old(auth.IsAuthenticated()) && answer.Fault? ==>
                isEditing == old(isEditing) && auth.user == old(auth.user)
                && auth.storage.items == ItemsAfterFault(old(auth.storage.items), answer.error)
      ensures submitted && (old(auth.user).None? || !old(auth.IsAuthenticated())) ==>
                auth.storage.items == old(auth.storage.items) && auth.loading == old(auth.loading)
      ensures submitted && old(auth.user).Some? && old(auth.IsAuthenticated()) ==> !auth.loading
      ensures submitted && old(auth.user).Some? && old(auth.IsAuthenticated()) && answer.Reply? ==>
                auth.storage.items == old(auth.storage.items)
    {
      if !PasswordsAgree(formData) {
        return false, [];
      }
      submitted := true;
      loading := true;
      var done;
      done, sent := auth.UpdateUserProfile(ProfilePayload(formData), answer);
      if done.Resolved? {
        isEditing := false;
      }
      loading := false;
    }
  }
}
