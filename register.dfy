/** The registration page (src/pages/auth/Register.tsx): the form, the
    password-confirmation check, the payload with empty optional fields
    dropped, and persisting the username once registration has resolved. */
module Register {
  import opened Wrappers
  import opened Numerals
  import opened Types
  import opened Storage
  import opened Js
  import opened ApiService
  import opened AuthContext

  datatype RegisterForm = RegisterForm(
    username: string,
    email: string,
    password: string,
    confirmPassword: string,
    phoneNumber: string,
    preferredLocation: string,
    budget: string,
    preferredGender: string)

  const EmptyForm := RegisterForm("", "", "", "", "", "", "", "")

  /** The inputs `handleChange` updates by their `name`. */
  datatype TextField = Username | Email | Password | ConfirmPassword | PhoneNumber | PreferredLocation | Budget

  function Get(form: RegisterForm, field: TextField): string {
    match field
    case Username => form.username
    case Email => form.email
    case Password => form.password
    case ConfirmPassword => form.confirmPassword
    case PhoneNumber => form.phoneNumber
    case PreferredLocation => form.preferredLocation
    case Budget => form.budget
  }

  /** `{ ...prev, [name]: value }`: that input takes the value, nothing else moves. */
  function WithField(form: RegisterForm, field: TextField, value: string): (r: RegisterForm)
    ensures Get(r, field) == value
    ensures forall other: TextField :: other != field ==> Get(r, other) == Get(form, other)
    ensures r.preferredGender == form.preferredGender
  {
    match field
    case Username => form.(username := value)
    case Email => form.(email := value)
    case Password => form.(password := value)
    case ConfirmPassword => form.(confirmPassword := value)
    case PhoneNumber => form.(phoneNumber := value)
    case PreferredLocation => form.(preferredLocation := value)
    case Budget => form.(budget := value)
  }

  /** `x || undefined` for a text input. */
  function NonEmpty(s: string): (o: Option<string>)
    ensures o.Some? <==> s != ""
    ensures o.Some? ==> o.value == s
  {
    if s != "" then Some(s) else None
  }

  /** The `userData` sent to `register`: the three required fields as typed,
      each optional text field only when non-empty, the budget parsed when
      non-empty; never an id, a role or the confirmation. */
  function RegisterPayload(form: RegisterForm): (d: UserPatch)
    ensures d.username == Some(form.username) && d.email == Some(form.email) && d.password == Some(form.password)
    ensures d.id == None && d.role == None
    ensures d.phoneNumber == NonEmpty(form.phoneNumber)
    ensures d.preferredLocation == NonEmpty(form.preferredLocation)
    ensures d.preferredGender == NonEmpty(form.preferredGender)
    ensures d.budget.Some? <==> form.budget != ""
    ensures d.budget.Some? ==> d.budget.value == Parse(form.budget)
  {
    UserPatch(
      None,
      Some(form.username),
      Some(form.email),
      Some(form.password),
      None,
      NonEmpty(form.phoneNumber),
      NonEmpty(form.preferredLocation),
      if form.budget != "" then Some(Parse(form.budget)) else None,
      NonEmpty(form.preferredGender))
  }

  /** The user the session store seeds from a registration: the typed
      username and email, role "USER", an empty id, and a typed budget read
      back as the number it spells. */
  lemma {:induction false} RegisteredUser(form: RegisterForm, budget: int)
    ensures SeedUser(RegisterPayload(form)).username == form.username
    ensures SeedUser(RegisterPayload(form)).email == form.email
    ensures SeedUser(RegisterPayload(form)).role == RoleUser
    ensures SeedUser(RegisterPayload(form)).id == ""
    ensures SeedUser(RegisterPayload(form)).password == Some(form.password)
    ensures form.budget == IntToString(budget) ==> SeedUser(RegisterPayload(form)).budget == Some(Num(budget))
  {
    var d := RegisterPayload(form);
    if form.budget == IntToString(budget) {
      assert d.budget == Some(Num(budget));
    }
  }

  class RegisterPage {
    var formData: RegisterForm
    var loading: bool
    const auth: AuthProvider

    constructor (auth: AuthProvider)
      ensures this.auth == auth && formData == EmptyForm && !loading
    {
      this.auth := auth;
      formData := EmptyForm;
      loading := false;
    }

    method HandleChange(field: TextField, value: string)
      modifies this`formData
      ensures formData == WithField(old(formData), field, value)
    {
      formData := WithField(formData, field, value);
    }

    method HandleSelectChange(value: string)
      modifies this`formData
      ensures formData == old(formData).(preferredGender := value)
    {
      formData := formData.(preferredGender := value);
    }

    /** `handleSubmit`: a mismatched confirmation stops it before any call.
        Otherwise `register` runs with the payload; only when it resolves,
        which includes a reply without a token, is the username persisted. */
    method HandleSubmit(reply: Answer<AuthReply>) returns (submitted: bool, sent: seq<Request>)
      modifies this`loading, auth`user, auth`token, auth`loading, auth`navigatedTo, auth.storage
      ensures submitted <==> formData.password == formData.confirmPassword
      ensures !submitted ==>
                sent == [] && loading == old(loading) && auth.token == old(auth.token) && auth.user == old(auth.user)
                && auth.navigatedTo == old(auth.navigatedTo) && auth.storage.items == old(auth.storage.items)
      ensures submitted ==>
                !loading && !auth.loading
                && sent == [Request(PostRegister(RegisterPayload(formData)), CredentialHeaders(old(auth.storage.items)))]
      ensures submitted && reply.Fault? ==>
                auth.storage.items == ItemsAfterFault(old(auth.storage.items), reply.error)
                && auth.token == old(auth.token) && auth.user == old(auth.user)
      ensures submitted && reply.Reply? && !Truthy(reply.data.token) ==>
                auth.storage.items == old(auth.storage.items)[UsernameKey := formData.username]
                && auth.token == old(auth.token) && auth.user == old(auth.user)
      ensures submitted && reply.Reply? && Truthy(reply.data.token) ==>
                auth.storage.items
                  == old(auth.storage.items)[TokenKey := reply.data.token.value][UsernameKey := formData.username]
                && auth.token == reply.data.token && auth.user == Some(SeedUser(RegisterPayload(formData)))
                && auth.navigatedTo == Some(DashboardRoute)
      ensures !submitted ==> auth.loading == old(auth.loading)
      ensures submitted && (reply.Fault? || !Truthy(reply.data.token)) ==> auth.navigatedTo == old(auth.navigatedTo)
    {
      if formData.password != formData.confirmPassword {
        return false, [];
      }
      submitted := true;
      loading := true;
      var done;
      done, sent := auth.Register(RegisterPayload(formData), reply);
      if done.Resolved? {
        auth.storage.SetItem(UsernameKey, formData.username);
      }
      loading := false;
    }
  }
}
