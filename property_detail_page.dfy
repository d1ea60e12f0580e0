/** The property detail page (src/pages/properties/PropertyDetail.tsx): the
    property and its owner fetched for the route's id, the ownership test
    that shows the edit and delete controls, the gender label, and the
    delete handler. */
module PropertyDetailPage {
  import opened Wrappers
  import opened Types
  import opened Storage
  import opened Js
  import opened ApiService

  const AnyGender := "any"
  const AnyGenderLabel := "Any gender"

  /** `user && property && user.username === property.userId`. */
  function IsOwner(user: Option<User>, property: Option<Property>): (b: bool)
    ensures b <==> user.Some? && property.Some? && user.value.username == property.value.userId
    ensures user.None? || property.None? ==> !b
  {
    match (user, property)
    case (Some(u), Some(p)) => u.username == p.userId
    case _ => false
  }

  /** The "Preferred:" line: "any" reads "Any gender", anything else is shown as stored. */
  function GenderLabel(g: string): (s: string)
    ensures g == AnyGender ==> s == AnyGenderLabel
    ensures g != AnyGender ==> s == g
    ensures s == AnyGenderLabel <==> g == AnyGender || g == AnyGenderLabel
  {
    if g == AnyGender then AnyGenderLabel else g
  }

  /** What the page renders. */
  datatype DetailView =
    | Spinner
    | NotFound
    | Details(property: Property, genderLabel: string, owner: Option<User>, ownerControls: bool)

  function Render(loading: bool, user: Option<User>, property: Option<Property>, owner: Option<User>): (v: DetailView)
    ensures v.Spinner? <==> loading
    ensures v.NotFound? <==> !loading && property.None?
    ensures v.Details? ==>
              v.property == property.value && v.genderLabel == GenderLabel(property.value.preferredGender)
              && v.owner == owner
    ensures v.Details? ==> (v.ownerControls <==> user.Some? && user.value.username == property.value.userId)
  {
    if loading then Spinner
    else if property.None? then NotFound
    else Details(property.value, GenderLabel(property.value.preferredGender), owner, IsOwner(user, property))
  }

  class DetailPage {
    var property: Option<Property>
    var propertyOwner: Option<User>
    var loading: bool
    /** The last route this page navigated to. */
    var navigatedTo: Option<string>
    const storage: LocalStorage

    constructor (storage: LocalStorage)
      ensures this.storage == storage
      ensures property == None && propertyOwner == None && loading && navigatedTo == None
    {
      this.storage := storage;
      property, propertyOwner := None, None;
      loading := true;
      navigatedTo := None;
    }

    /** `fetchPropertyDetails` for the route's `id`: without an id nothing
        happens and the spinner stays. Otherwise the property is fetched;
        when it names an owner the owner is fetched too, and a failure of
        that second fetch is swallowed. */
    method FetchDetails(id: Option<string>, propertyAnswer: Answer<Property>, ownerAnswer: Answer<User>)
      returns (sent: seq<Request>)
      modifies this`property, this`propertyOwner, this`loading, storage
      ensures !Truthy(id) ==>
                sent == [] && property == old(property) && propertyOwner == old(propertyOwner)
                && loading == old(loading) && storage.items == old(storage.items)
      ensures Truthy(id) ==>
                !loading && |sent| >= 1 && sent[0] == Request(GetPropertyById(id.value), CredentialHeaders(old(storage.items)))
      ensures Truthy(id) && propertyAnswer.Fault? ==>
                sent == [sent[0]] && property == old(property) && propertyOwner == old(propertyOwner)
                && storage.items == ItemsAfterFault(old(storage.items), propertyAnswer.error)
      ensures Truthy(id) && propertyAnswer.Reply? ==> property == Some(propertyAnswer.data)
      ensures Truthy(id) && propertyAnswer.Reply? && propertyAnswer.data.userId == "" ==>
                sent == [sent[0]] && propertyOwner == old(propertyOwner) && storage.items == old(storage.items)
      ensures Truthy(id) && propertyAnswer.Reply? && propertyAnswer.data.userId != "" ==>
                sent == [sent[0], Request(GetUserByUsername(propertyAnswer.data.userId), CredentialHeaders(old(storage.items)))]
      ensures Truthy(id) && propertyAnswer.Reply? && propertyAnswer.data.userId != "" && ownerAnswer.Reply? ==>
                propertyOwner == Some(ownerAnswer.data) && storage.items == old(storage.items)
      ensures Truthy(id) && propertyAnswer.Reply? && propertyAnswer.data.userId != "" && ownerAnswer.Fault? ==>
                propertyOwner == old(propertyOwner)
                && storage.items == ItemsAfterFault(old(storage.items), ownerAnswer.error)
    {
      if !Truthy(id) {
        return [];
      }
      loading := true;
      var req, r := Exchange(storage, GetPropertyById(id.value), propertyAnswer);
      sent := [req];
      if r.Success? {
        var data := r.value;
        property := Some(data);
        if data.userId != "" {
          var ownerReq, o := Exchange(storage, GetUserByUsername(data.userId), ownerAnswer);
          sent := sent + [ownerReq];
          if o.Success? {
            propertyOwner := Some(o.value);
          }
        }
      }
      loading := false;
    }

    /** `handleDelete`: nothing without a property; otherwise delete it and,
        only on success, go to "/my-properties". */
    method HandleDelete(answer: Answer<()>) returns (sent: seq<Request>)
      modifies this`navigatedTo, storage
      ensures old(property).None? ==>
                sent == [] && navigatedTo == old(navigatedTo) && storage.items == old(storage.items)
      ensures old(property).Some? ==>
                sent == [Request(DeleteProperty(old(property).value.id), CredentialHeaders(old(storage.items)))]
      ensures old(property).Some? && answer.Reply? ==>
                navigatedTo == Some(MyPropertiesRoute) && storage.items == old(storage.items)
      ensures old(property).Some? && answer.Fault? ==>
                navigatedTo == old(navigatedTo) && storage.items == ItemsAfterFault(old(storage.items), answer.error)
    {
      if property.None? {
        return [];
      }
      var req, r := Exchange(storage, DeleteProperty(property.value.id), answer);
      sent := [req];
      if r.Success? {
        navigatedTo := Some(MyPropertiesRoute);
      }
    }
  }
}
