/** The listing hook (src/hooks/useProperties.tsx): a list, a loading flag
    and an error message, and three fetches that each reset the error, send
    one call and, after the `await`, store the list or a fixed message. */
module UseProperties {
  import opened Wrappers
  import opened Types
  import opened Storage
  import opened ApiService

  /** Which of the hook's three fetches is running. */
  datatype FetchKind = FetchAll | FetchUser | Filter(f: PropertyFilter)

  /** The call each fetch makes; the filter fetch uses the advanced filter
      even for an empty filter. */
  function CallFor(kind: FetchKind): (c: Call)
    ensures kind.FetchAll? ==> c == GetAllProperties()
    ensures kind.FetchUser? ==> c == GetUserProperties()
    ensures kind.Filter? ==> c == FilterProperties(kind.f) && c.params == Some(kind.f)
    ensures c.path == FilterPath <==> kind.Filter?
  {
    match kind
    case FetchAll => GetAllProperties()
    case FetchUser => GetUserProperties()
    case Filter(f) => FilterProperties(f)
  }

  /** The message each fetch stores when its call fails. */
  function FailureMessage(kind: FetchKind): (m: string)
    ensures kind.FetchAll? ==> m == "Failed to fetch properties"
    ensures kind.FetchUser? ==> m == "Failed to fetch your properties"
    ensures kind.Filter? ==> m == "Failed to filter properties"
  {
    match kind
    case FetchAll => "Failed to fetch properties"
    case FetchUser => "Failed to fetch your properties"
    case Filter(_) => "Failed to filter properties"
  }

  /** The three messages tell the fetches apart, whatever the filter. */
  lemma {:induction false} FailureMessagesDistinct(a: FetchKind, b: FetchKind)
    ensures FailureMessage(a) == FailureMessage(b) <==> a.FetchAll? == b.FetchAll? && a.FetchUser? == b.FetchUser?
  {
    var all, mine, filter := "Failed to fetch properties", "Failed to fetch your properties", "Failed to filter properties";
    assert all[16] != mine[16] && all[11] != filter[11] && mine[11] != filter[11];
  }

  class PropertiesHook {
    var properties: seq<Property>
    var loading: bool
    var error: Option<string>
    const storage: LocalStorage

    constructor (storage: LocalStorage)
      ensures this.storage == storage
      ensures properties == [] && loading && error == None
    {
      this.storage := storage;
      properties := [];
      loading := true;
      error := None;
    }

    /** The part before the `await`: raise the loading flag, clear the error, send the call. */
    method Begin(kind: FetchKind) returns (req: Request)
      modifies this`loading, this`error
      ensures loading && error == None
      ensures req == Request(CallFor(kind), CredentialHeaders(storage.items))
    {
      loading := true;
      error := None;
      req := Send(storage, CallFor(kind));
    }

    /** The part after the `await`: the list on success, the fetch's message on failure. */
    method Complete(kind: FetchKind, answer: Answer<seq<Property>>)
      modifies this`properties, this`loading, this`error, storage
      ensures !loading
      ensures answer.Reply? ==>
                properties == answer.data && error == old(error) && storage.items == old(storage.items)
      ensures answer.Fault? ==>
                properties == old(properties) && error == Some(FailureMessage(kind))
                && storage.items == ItemsAfterFault(old(storage.items), answer.error)
    {
      var r := Receive(storage, answer);
      match r {
        case Success(data) =>
          properties := data;
        case Failure(_) =>
          error := Some(FailureMessage(kind));
      }
      loading := false;
    }
  }

  /** One whole fetch with nothing in between: a success leaves no error, a
      failure leaves exactly its own message and the old list. */
  method Fetch(hook: PropertiesHook, kind: FetchKind, answer: Answer<seq<Property>>) returns (req: Request)
    modifies hook, hook.storage
    ensures req == Request(CallFor(kind), CredentialHeaders(old(hook.storage.items)))
    ensures !hook.loading
    ensures answer.Reply? ==>
              hook.properties == answer.data && hook.error == None && hook.storage.items == old(hook.storage.items)
    ensures answer.Fault? ==>
              hook.properties == old(hook.properties) && hook.error == Some(FailureMessage(kind))
              && hook.storage.items == ItemsAfterFault(old(hook.storage.items), answer.error)
  {
    req := hook.Begin(kind);
    hook.Complete(kind, answer);
  }
}
