/** The embeddable detail component (src/components/properties/PropertyDetail.tsx):
    the same fetch, ownership test and delete as the detail page, for an id
    given as a prop (never checked), with delete behind a two-step
    confirmation toggle. Its `useAuth` comes from src/hooks/useAuth, which is
    not part of this model; it is taken to be the `AuthProvider` state of
    src/contexts/AuthContext.tsx. */
module PropertyDetailComponent {
  import opened Wrappers
  import opened Types
  import opened Storage
  import opened ApiService
  import opened PropertyDetailPage

  /** The delete controls an owner sees: one button, or confirm and cancel. */
  datatype DeleteControls = NoControls | DeleteButton | ConfirmOrCancel

  function Controls(user: Option<User>, property: Option<Property>, deleteConfirm: bool): (c: DeleteControls)
    ensures c.NoControls? <==> !IsOwner(user, property)
    ensures c.ConfirmOrCancel? <==> IsOwner(user, property) && deleteConfirm
  {
    if !IsOwner(user, property) then NoControls
    else if deleteConfirm then ConfirmOrCancel
    else DeleteButton
  }

  class DetailComponent {
    const propertyId: string
    var property: Option<Property>
    var propertyOwner: Option<User>
    var loading: bool
    var deleteConfirm: bool
    /** The last route this component navigated to. */
    var navigatedTo: Option<string>
    const storage: LocalStorage

    constructor (propertyId: string, storage: LocalStorage)
      ensures this.propertyId == propertyId && this.storage == storage
      ensures property == None && propertyOwner == None && loading && !deleteConfirm && navigatedTo == None
    {
      this.propertyId := propertyId;
      this.storage := storage;
      property, propertyOwner := None, None;
      loading := true;
      deleteConfirm := false;
      navigatedTo := None;
    }

    /** `fetchPropertyDetails`: as on the detail page, but the id is used as
        given, so even an empty id is fetched. */
    method FetchDetails(propertyAnswer: Answer<Property>, ownerAnswer: Answer<User>) returns (sent: seq<Request>)
      modifies this`property, this`propertyOwner, this`loading, storage
      ensures !loading
      ensures |sent| >= 1 && sent[0] == Request(GetPropertyById(propertyId), CredentialHeaders(old(storage.items)))
      ensures propertyAnswer.Fault? ==>
                sent == [sent[0]] && property == old(property) && propertyOwner == old(propertyOwner)
                && storage.items == ItemsAfterFault(old(storage.items), propertyAnswer.error)
      ensures propertyAnswer.Reply? ==> property == Some(propertyAnswer.data)
      ensures propertyAnswer.Reply? && propertyAnswer.data.userId == "" ==>
                sent == [sent[0]] && propertyOwner == old(propertyOwner) && storage.items == old(storage.items)
      ensures propertyAnswer.Reply? && propertyAnswer.data.userId != "" ==>
                sent == [sent[0], Request(GetUserByUsername(propertyAnswer.data.userId), CredentialHeaders(old(storage.items)))]
      ensures propertyAnswer.Reply? && propertyAnswer.data.userId != "" && ownerAnswer.Reply? ==>
                propertyOwner == Some(ownerAnswer.data) && storage.items == old(storage.items)
      ensures propertyAnswer.Reply? && propertyAnswer.data.userId != "" && ownerAnswer.Fault? ==>
                propertyOwner == old(propertyOwner)
                && storage.items == ItemsAfterFault(old(storage.items), ownerAnswer.error)
    {
      loading := true;
      var req, r := Exchange(storage, GetPropertyById(propertyId), propertyAnswer);
      sent := [req];
      if r.Success? {
        var data := r.value;
        property := Some(data);
        if data.userId != "" {
          var ownerReq, o := Exchange(storage, GetUserByUsername(data.userId), ownerAnswer);
          sent := sent + [ownerReq];
          if o.Success? {
            propertyOwner := Some(o.value);
          }
        }
      }
      loading := false;
    }

    /** The first step: ask for confirmation. */
    method RequestDelete()
      modifies this`deleteConfirm
      ensures deleteConfirm
    {
      deleteConfirm := true;
    }

    /** Cancel: back to the single delete button. */
    method CancelDelete()
      modifies this`deleteConfirm
      ensures !deleteConfirm
    {
      deleteConfirm := false;
    }

    /** `handleDelete`, reached from the confirm button: nothing without a
        property; otherwise delete and, only on success, go to
        "/my-properties". The confirmation flag is not reset. */
    method HandleDelete(answer: Answer<()>) returns (sent: seq<Request>)
      modifies this`navigatedTo, storage
      ensures old(property).None? ==>
                sent == [] && navigatedTo == old(navigatedTo) && storage.items == old(storage.items)
      ensures old(property).Some? ==>
                sent == [Request(DeleteProperty(old(property).value.id), CredentialHeaders(old(storage.items)))]
      ensures old(property).Some? && answer.Reply? ==>
                navigatedTo == Some(MyPropertiesRoute) && storage.items == old(storage.items)
      ensures old(property).Some? && answer.Fault? ==>
                navigatedTo == old(navigatedTo) && storage.items == ItemsAfterFault(old(storage.items), answer.error)
    {
      if property.None? {
        return [];
      }
      var req, r := Exchange(storage, DeleteProperty(property.value.id), answer);
      sent := [req];
      if r.Success? {
        navigatedTo := Some(MyPropertiesRoute);
      }
    }
  }

  /** Asking and cancelling leaves the controls as they were before asking. */
  method AskThenCancel(c: DetailComponent, user: Option<User>)
    modifies c`deleteConfirm
    requires !c.deleteConfirm
    ensures Controls(user, c.property, c.deleteConfirm) == old(Controls(user, c.property, c.deleteConfirm))
  {
    c.RequestDelete();
    c.CancelDelete();
  }
}
