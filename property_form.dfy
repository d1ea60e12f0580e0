/** The create/edit form (src/components/properties/PropertyForm.tsx): the
    draft initialised from an optional property, its change handlers, and the
    submit handler that updates an existing property or creates a new one. */
module PropertyForm {
  import opened Wrappers
  import opened Numerals
  import opened Types
  import opened Storage
  import opened ApiService

  const DefaultGender := "any"

  /** `x || fallback` for a string. */
  function OrElse(s: string, fallback: string): (r: string)
    ensures s != "" ==> r == s
    ensures s == "" ==> r == fallback
  {
    if s != "" then s else fallback
  }

  /** The initial `formData`: the property's fields, each falsy one replaced
      by its default ("" for text, 0 for the budget, "any" for the gender). */
  function InitialDraft(property: Option<Property>): (d: PropertyDraft)
    ensures property.None? ==> d == PropertyDraft("", "", "", Num(0), DefaultGender)
    ensures property.Some? ==>
              d.title == property.value.title && d.description == property.value.description
              && d.location == property.value.location && d.budget == Num(property.value.budget)
    ensures property.Some? ==> d.preferredGender == OrElse(property.value.preferredGender, DefaultGender)
    ensures d.preferredGender != ""
  {
    match property
    case None => PropertyDraft("", "", "", Num(0), DefaultGender)
    case Some(p) =>
      PropertyDraft(p.title, p.description, p.location, if p.budget != 0 then Num(p.budget) else Num(0),
                    OrElse(p.preferredGender, DefaultGender))
  }

  /** Submitting an edit form untouched sends back the property's own values. */
  lemma {:induction false} UntouchedEditSendsProperty(p: Property)
    requires p.preferredGender != ""
    ensures InitialDraft(Some(p)) == PropertyDraft(p.title, p.description, p.location, Num(p.budget), p.preferredGender)
  {
  }

  /** The inputs `handleChange` updates by their `name`. */
  datatype DraftField = Title | Description | Location | Budget

  /** `{ ...prev, [name]: name === 'budget' ? parseFloat(value) : value }`. */
  function WithField(d: PropertyDraft, field: DraftField, value: string): (r: PropertyDraft)
    ensures r.preferredGender == d.preferredGender
    ensures field == Budget ==> r == d.(budget := Parse(value))
    ensures field == Title ==> r == d.(title := value)
    ensures field == Description ==> r == d.(description := value)
    ensures field == Location ==> r == d.(location := value)
  {
    match field
    case Title => d.(title := value)
    case Description => d.(description := value)
    case Location => d.(location := value)
    case Budget => d.(budget := Parse(value))
  }

  /** Clearing the budget input leaves NaN in the draft, not 0 or nothing. */
  lemma {:induction false} ClearedBudgetIsNaN(d: PropertyDraft)
    ensures WithField(d, Budget, "").budget == NaN
  {
  }

  /** Which call a submit makes: an update only when editing a property that has an id. */
  function SaveCall(isEditing: bool, property: Option<Property>, draft: PropertyDraft): (c: Call)
    ensures isEditing && property.Some? && property.value.id != "" ==> c == UpdateProperty(property.value.id, draft)
    ensures !(isEditing && property.Some? && property.value.id != "") ==> c == CreateProperty(draft)
    ensures c.body == PropertyData(draft)
  {
    if isEditing && property.Some? && property.value.id != "" then UpdateProperty(property.value.id, draft)
    else CreateProperty(draft)
  }

  class PropertyFormState {
    const property: Option<Property>
    const isEditing: bool
    var formData: PropertyDraft
    var loading: bool
    /** The last route this form navigated to. */
    var navigatedTo: Option<string>
    const storage: LocalStorage

    /** Mounting the form; `isEditing` defaults to false. */
    constructor (property: Option<Property>, isEditing: Option<bool>, storage: LocalStorage)
      ensures this.property == property && this.isEditing == isEditing.GetOr(false) && this.storage == storage
      ensures formData == InitialDraft(property) && !loading && navigatedTo == None
    {
      this.property := property;
      this.isEditing := isEditing.GetOr(false);
      this.storage := storage;
      formData := InitialDraft(property);
      loading := false;
      navigatedTo := None;
    }

    method HandleChange(field: DraftField, value: string)
      modifies this`formData
      ensures formData == WithField(old(formData), field, value)
    {
      formData := WithField(formData, field, value);
    }

    method HandleSelectChange(value: string)
      modifies this`formData
      ensures formData == old(formData).(preferredGender := value)
    {
      formData := formData.(preferredGender := value);
    }

    /** `handleSubmit`: save the draft and, only on success, go to "/my-properties". */
    method HandleSubmit(answer: Answer<()>) returns (sent: Request)
      modifies this`loading, this`navigatedTo, storage
      ensures !loading
      ensures sent == Request(SaveCall(isEditing, property, formData), CredentialHeaders(old(storage.items)))
      ensures answer.Reply? ==> navigatedTo == Some(MyPropertiesRoute) && storage.items == old(storage.items)
      ensures answer.Fault? ==>
                navigatedTo == old(navigatedTo) && storage.items == ItemsAfterFault(old(storage.items), answer.error)
    {
      loading := true;
      var r;
      sent, r := Exchange(storage, SaveCall(isEditing, property, formData), answer);
      if r.Success? {
        navigatedTo := Some(MyPropertiesRoute);
      }
      loading := false;
    }
  }
}
