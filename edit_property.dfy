/** The edit page (src/pages/properties/EditProperty.tsx): fetch the property
    for the route's id, send anyone but its owner (or anyone, on a failed
    fetch) to "/my-properties", and show the form once loaded. */
module EditProperty {
  import opened Wrappers
  import opened Types
  import opened Storage
  import opened Js
  import opened ApiService


  /** What the page renders: the spinner, nothing, or the form in edit mode. */
  datatype EditView = Spinner | Blank | EditForm(property: Property)

  function Render(loading: bool, property: Option<Property>): (v: EditView)
    ensures v.Spinner? <==> loading
    ensures v.EditForm? <==> !loading && property.Some?
    ensures v.EditForm? ==> v.property == property.value
  {
    if loading then Spinner
    else if property.None? then Blank
    else EditForm(property.value)
  }

  /** The ownership redirect fires only when a user is known and is not the owner. */
  predicate RedirectsAway(user: Option<User>, p: Property) {
    user.Some? && p.userId != user.value.username
  }

  class EditPage {
    var property: Option<Property>
    var loading: bool
    /** The last route this page navigated to. */
    var navigatedTo: Option<string>
    const storage: LocalStorage

    constructor (storage: LocalStorage)
      ensures this.storage == storage && property == None && loading && navigatedTo == None
    {
      this.storage := storage;
      property := None;
      loading := true;
      navigatedTo := None;
    }

    /** `fetchProperty`, given the route's id and the session's user. Without
        an id nothing happens and the spinner stays. A fetched property is
        stored even when its viewer is sent away; with no user known yet,
        nobody is sent away. A failed fetch sends the viewer away. */
    method FetchProperty(id: Option<string>, user: Option<User>, answer: Answer<Property>) returns (sent: seq<Request>)
      modifies this`property, this`loading, this`navigatedTo, storage
      ensures !Truthy(id) ==>
                sent == [] && property == old(property) && loading == old(loading)
                && navigatedTo == old(navigatedTo) && storage.items == old(storage.items)
      ensures Truthy(id) ==>
                !loading && sent == [Request(GetPropertyById(id.value), CredentialHeaders(old(storage.items)))]
      ensures Truthy(id) && answer.Reply? ==>
                property == Some(answer.data) && storage.items == old(storage.items)
                && navigatedTo == (if RedirectsAway(user, answer.data) then Some(MyPropertiesRoute) else old(navigatedTo))
      ensures Truthy(id) && answer.Fault? ==>
                property == old(property) && navigatedTo == Some(MyPropertiesRoute)
                && storage.items == ItemsAfterFault(old(storage.items), answer.error)
      ensures Truthy(id) && answer.Reply? && user.None? ==> navigatedTo == old(navigatedTo)
    {
      if !Truthy(id) {
        return [];
      }
      loading := true;
      var req, r := Exchange(storage, GetPropertyById(id.value), answer);
      sent := [req];
      match r {
        case Success(data) =>
          property := Some(data);
          if user.Some? && data.userId != user.value.username {
            navigatedTo := Some(MyPropertiesRoute);
          }
        case Failure(_) =>
          navigatedTo := Some(MyPropertiesRoute);
      }
      loading := false;
    }
  }

  /** A fresh page that loads a property successfully shows the form for
      it, even when the viewer was sent away. */
  method LoadedPageShowsForm(storage: LocalStorage, id: string, user: Option<User>, p: Property)
    returns (page: EditPage, view: EditView)
    requires id != ""
    modifies storage
    ensures view == EditForm(p)
    ensures page.navigatedTo.Some? <==> RedirectsAway(user, p)
  {
    page := new EditPage(storage);
    var _ := page.FetchProperty(Some(id), user, Reply(p));
    view := Render(page.loading, page.property);
  }
}
