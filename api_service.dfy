/** The request gateway (src/services/apiService.ts): the endpoint table,
    the request interceptor that attaches the persisted token as a Bearer
    credential, and the response interceptor that passes successes through,
    clears the persisted session on a 401, and turns every failure into one
    of three rejection shapes. The backend itself is a parameter: each call
    is given the `Answer` the server would produce. */
module ApiService {
  import opened Wrappers
  import opened Types
  import opened Storage
  import opened Js

  datatype Verb = GET | POST | PUT | DELETE

  /** What a request carries in its body. */
  datatype Body =
    | NoBody
    | Credentials(username: string, password: string)
    | UserData(patch: UserPatch)
    | PropertyData(draft: PropertyDraft)

  /** A call as the client issues it: verb, path, query parameters and body. */
  datatype Call = Call(verb: Verb, path: string, params: Option<PropertyFilter>, body: Body)

  /** A call together with the headers the request interceptor left on it. */
  datatype Request = Request(call: Call, headers: map<string, string>)

  // ----- Endpoint table -----

  const LoginPath := "/auth/login"
  const RegisterPath := "/auth/register"
  const UsersPrefix := "/api/users/"
  const PropertiesPrefix := "/api/properties/"
  const AllPropertiesPath := "/api/properties/all"
  const UserPropertiesPath := "/api/properties/user"
  const CreatePropertyPath := "/api/properties/create"
  const UpdatePropertyPrefix := "/api/properties/update/"
  const DeletePropertyPrefix := "/api/properties/delete/"
  const FilterPath := "/api/properties/filter/advanced"
  const AllUsersPath := "/api/users/all"

  function PostLogin(username: string, password: string): Call {
    Call(POST, LoginPath, None, Credentials(username, password))
  }

  function PostRegister(userData: UserPatch): Call {
    Call(POST, RegisterPath, None, UserData(userData))
  }

  function GetAllProperties(): Call {
    Call(GET, AllPropertiesPath, None, NoBody)
  }

  /** `getPropertyById(id)`; the id is recovered from the path after the fixed prefix. */
  function GetPropertyById(id: string): (c: Call)
    ensures c.verb == GET && c.params.None?
    ensures |c.path| == |PropertiesPrefix| + |id|
    ensures c.path[..|PropertiesPrefix|] == PropertiesPrefix && c.path[|PropertiesPrefix|..] == id
  {
    Call(GET, PropertiesPrefix + id, None, NoBody)
  }

  function CreateProperty(draft: PropertyDraft): Call {
    Call(POST, CreatePropertyPath, None, PropertyData(draft))
  }

  function UpdateProperty(id: string, draft: PropertyDraft): (c: Call)
    ensures c.verb == PUT && c.body == PropertyData(draft)
    ensures |c.path| == |UpdatePropertyPrefix| + |id|
    ensures c.path[..|UpdatePropertyPrefix|] == UpdatePropertyPrefix && c.path[|UpdatePropertyPrefix|..] == id
  {
    Call(PUT, UpdatePropertyPrefix + id, None, PropertyData(draft))
  }

  function DeleteProperty(id: string): (c: Call)
    ensures c.verb == DELETE && c.body == NoBody
    ensures |c.path| == |DeletePropertyPrefix| + |id|
    ensures c.path[..|DeletePropertyPrefix|] == DeletePropertyPrefix && c.path[|DeletePropertyPrefix|..] == id
  {
    Call(DELETE, DeletePropertyPrefix + id, None, NoBody)
  }

  function GetUserProperties(): Call {
    Call(GET, UserPropertiesPath, None, NoBody)
  }

  /** `filterProperties(params)`: always the advanced-filter path, the filter as query parameters. */
  function FilterProperties(f: PropertyFilter): (c: Call)
    ensures c.verb == GET && c.path == FilterPath && c.params == Some(f)
  {
    Call(GET, FilterPath, Some(f), NoBody)
  }

  function GetAllUsers(): Call {
    Call(GET, AllUsersPath, None, NoBody)
  }

  /** `getUserByUsername(u)`, also spelt `get(`/api/users/${u}`)`. */
  function GetUserByUsername(username: string): (c: Call)
    ensures c.verb == GET && c.body == NoBody
    ensures |c.path| == |UsersPrefix| + |username|
    ensures c.path[..|UsersPrefix|] == UsersPrefix && c.path[|UsersPrefix|..] == username
  {
    Call(GET, UsersPrefix + username, None, NoBody)
  }

  function UpdateUser(username: string, patch: UserPatch): (c: Call)
    ensures c.verb == PUT && c.body == UserData(patch)
    ensures |c.path| == |UsersPrefix| + |username|
    ensures c.path[..|UsersPrefix|] == UsersPrefix && c.path[|UsersPrefix|..] == username
  {
    Call(PUT, UsersPrefix + username, None, UserData(patch))
  }

  function DeleteUser(username: string): (c: Call)
    ensures c.verb == DELETE && c.body == NoBody
    ensures |c.path| == |UsersPrefix| + |username|
    ensures c.path[..|UsersPrefix|] == UsersPrefix && c.path[|UsersPrefix|..] == username
  {
    Call(DELETE, UsersPrefix + username, None, NoBody)
  }

  /** Paths are plain concatenations, so an identifier equal to a fixed
      segment addresses the fixed endpoint: the user named "all" and the
      property with id "all" or "user" share their paths with the listings. */
  lemma {:induction false} FixedSegmentsCollide()
    ensures GetUserByUsername("all").path == GetAllUsers().path
    ensures GetPropertyById("all").path == GetAllProperties().path
    ensures GetPropertyById("user").path == GetUserProperties().path
  {
  }

  /** Two users or two properties get the same path only when their identifiers are equal. */
  lemma {:induction false} PathsDetermineIdentifiers(a: string, b: string)
    ensures GetUserByUsername(a).path == GetUserByUsername(b).path ==> a == b
    ensures GetPropertyById(a).path == GetPropertyById(b).path ==> a == b
    ensures DeleteProperty(a).path == DeleteProperty(b).path ==> a == b
  {
    if GetUserByUsername(a).path == GetUserByUsername(b).path {
      assert a == GetUserByUsername(a).path[|UsersPrefix|..];
    }
    if GetPropertyById(a).path == GetPropertyById(b).path {
      assert a == GetPropertyById(a).path[|PropertiesPrefix|..];
    }
    if DeleteProperty(a).path == DeleteProperty(b).path {
      assert a == DeleteProperty(a).path[|DeletePropertyPrefix|..];
    }
  }

  // ----- Request interceptor -----

  const AuthorizationHeader := "Authorization"
  const BearerPrefix := "Bearer "

  /** The headers the request interceptor adds, given the persisted items. */
  function CredentialHeaders(items: map<string, string>): (h: map<string, string>)
    ensures AuthorizationHeader in h <==> TokenKey in items && items[TokenKey] != ""
    ensures AuthorizationHeader in h ==> h[AuthorizationHeader] == BearerPrefix + items[TokenKey]
    ensures h.Keys <= {AuthorizationHeader}
  {
    if TokenKey in items && items[TokenKey] != "" then map[AuthorizationHeader := BearerPrefix + items[TokenKey]]
    else map[]
  }

  /** An axios request config; the interceptor edits its headers in place. */
  class RequestConfig {
    const call: Call
    var headers: map<string, string>

    constructor (call: Call, headers: map<string, string>)
      ensures this.call == call && this.headers == headers
    {
      this.call := call;
      this.headers := headers;
    }

    /** The request interceptor: a truthy persisted token becomes
        `Authorization: Bearer <token>`; every other header and the call are left alone. */
    method AttachCredentials(storage: LocalStorage)
      modifies this
      ensures Truthy(storage.GetItem(TokenKey)) ==>
                headers == old(headers)[AuthorizationHeader := BearerPrefix + storage.items[TokenKey]]
      ensures !Truthy(storage.GetItem(TokenKey)) ==> headers == old(headers)
    {
      var token := storage.GetItem(TokenKey);
      if Truthy(token) {
        headers := headers[AuthorizationHeader := BearerPrefix + token.value];
      }
    }
  }

  /** Issue a call: build its config and run the request interceptor over it. */
  method Send(storage: LocalStorage, call: Call) returns (req: Request)
    ensures req.call == call
    ensures AuthorizationHeader in req.headers <==> Truthy(storage.GetItem(TokenKey))
    ensures AuthorizationHeader in req.headers ==> req.headers[AuthorizationHeader] == BearerPrefix + storage.items[TokenKey]
    ensures req.headers == CredentialHeaders(storage.items)
  {
    var config := new RequestConfig(call, map[]);
    config.AttachCredentials(storage);
    req := Request(config.call, config.headers);
  }

  // ----- Response interceptor -----

  datatype HttpResponse = HttpResponse(status: int, data: string)

  /** An axios error: the response, if the server answered; whether a request
      went out; and the error's message. */
  datatype HttpError = HttpError(response: Option<HttpResponse>, request: bool, message: string)

  /** What a failed call rejects with: the response body, or a string. */
  datatype Rejection = ResponseData(data: string) | Reason(text: string)

  /** The backend's answer to one call. */
  datatype Answer<T> = Reply(data: T) | Fault(error: HttpError)

  const NetworkErrorText := "Network error occurred"

  /** The failure is a 401 from the server; such a failure always carries a
      response, so it is rejected with the response body. */
  function IsUnauthorized(e: HttpError): (b: bool)
    ensures b ==> e.response.Some? && Rejected(e).ResponseData?
    ensures e.response.None? ==> !b
  {
    e.response.Some? && e.response.value.status == 401
  }

  /** The value a failure is rejected with: the response body exactly when
      there is a response; otherwise a fixed text when a request went out. */
  function Rejected(e: HttpError): (r: Rejection)
    ensures r.ResponseData? <==> e.response.Some?
    ensures r.Reason? && e.request ==> r.text == NetworkErrorText
  {
    if e.response.Some? then ResponseData(e.response.value.data)
    else if e.request then Reason(NetworkErrorText)
    else Reason(e.message)
  }

  /** The persisted items after a failure: a 401 removes the token and the username. */
  function ItemsAfterFault(items: map<string, string>, e: HttpError): (m: map<string, string>)
    ensures IsUnauthorized(e) ==> TokenKey !in m && UsernameKey !in m && m == items - {TokenKey, UsernameKey}
    ensures !IsUnauthorized(e) ==> m == items
  {
    if IsUnauthorized(e) then items - {TokenKey, UsernameKey} else items
  }

  /** Every failure has exactly one of the three rejection shapes: the
      response body whenever there is a response (401 included), the fixed
      network text when a request got no response, and the message otherwise. */
  lemma {:induction false} RejectionShapes(e: HttpError)
    ensures e.response.Some? ==> Rejected(e) == ResponseData(e.response.value.data)
    ensures e.response.None? && e.request ==> Rejected(e) == Reason(NetworkErrorText)
    ensures e.response.None? && !e.request ==> Rejected(e) == Reason(e.message)
    ensures Rejected(e).ResponseData? <==> e.response.Some?
  {
  }

  /** The response interceptor's failure handler. */
  method OnFailure(storage: LocalStorage, e: HttpError) returns (rejection: Rejection)
    modifies storage
    ensures rejection == Rejected(e)
    ensures storage.items == ItemsAfterFault(old(storage.items), e)
  {
    if e.response.Some? {
      if e.response.value.status == 401 {
        storage.RemoveItem(TokenKey);
        storage.RemoveItem(UsernameKey);
        assert storage.items == old(storage.items) - {TokenKey, UsernameKey};
      }
      rejection := ResponseData(e.response.value.data);
    } else if e.request {
      rejection := Reason(NetworkErrorText);
    } else {
      rejection := Reason(e.message);
    }
  }

  /** Receive the backend's answer through the response interceptor:
      successes pass through untouched, failures are shaped by `OnFailure`. */
  method Receive<T>(storage: LocalStorage, answer: Answer<T>) returns (r: Result<T, Rejection>)
    modifies storage
    ensures answer.Reply? ==> r == Success(answer.data) && storage.items == old(storage.items)
    ensures answer.Fault? ==> r == Failure(Rejected(answer.error))
    ensures answer.Fault? ==> storage.items == ItemsAfterFault(old(storage.items), answer.error)
  {
    match answer
    case Reply(data) =>
      r := Success(data);
    case Fault(e) =>
      var rejection := OnFailure(storage, e);
      r := Failure(rejection);
  }

  /** One whole round trip: send the call, then receive the answer. */
  method Exchange<T>(storage: LocalStorage, call: Call, answer: Answer<T>) returns (req: Request, r: Result<T, Rejection>)
    modifies storage
    ensures req == Request(call, CredentialHeaders(old(storage.items)))
    ensures answer.Reply? ==> r == Success(answer.data) && storage.items == old(storage.items)
    ensures answer.Fault? ==> r == Failure(Rejected(answer.error))
    ensures answer.Fault? ==> storage.items == ItemsAfterFault(old(storage.items), answer.error)
  {
    req := Send(storage, call);
    r := Receive(storage, answer);
  }
}
