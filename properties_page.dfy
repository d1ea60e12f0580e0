/** The public listing page (src/pages/properties/PropertiesPage.tsx): the
    current filter, the fetched properties and the loading flag. A fetch is
    split at its `await` into the half that sends the request and the half
    that takes the answer, because further fetches may start in between. */
module PropertiesPage {
  import opened Wrappers
  import opened Types
  import opened Storage
  import opened ApiService

  /** The call the page makes for a filter: the advanced filter when the
      filter has any key, otherwise the full listing. */
  function ListingCall(f: PropertyFilter): (c: Call)
    ensures KeyCount(f) > 0 ==> c == FilterProperties(f)
    ensures KeyCount(f) == 0 ==> c == GetAllProperties()
    ensures c.path == FilterPath <==> f != NoFilter
  {
    if KeyCount(f) > 0 then FilterProperties(f) else GetAllProperties()
  }

  const NoMatchText := "No properties match your current filters. Try adjusting your search criteria."
  const NoListingsText := "There are no properties listed yet."

  /** What the page shows below the filter panel. */
  datatype Listing = Spinner | Cards(properties: seq<Property>) | Empty(message: string)

  function Render(loading: bool, properties: seq<Property>, filters: PropertyFilter): (v: Listing)
    ensures v.Spinner? <==> loading
    ensures v.Cards? <==> !loading && |properties| > 0
    ensures v.Cards? ==> v.properties == properties
    ensures v.Empty? ==> (v.message == NoMatchText <==> filters != NoFilter)
    ensures v.Empty? ==> (v.message == NoListingsText <==> filters == NoFilter)
  {
    if loading then Spinner
    else if |properties| > 0 then Cards(properties)
    else Empty(if KeyCount(filters) > 0 then NoMatchText else NoListingsText)
  }

  class Page {
    var properties: seq<Property>
    var loading: bool
    var filters: PropertyFilter
    const storage: LocalStorage

    constructor (storage: LocalStorage)
      ensures this.storage == storage
      ensures properties == [] && loading && filters == NoFilter
    {
      this.storage := storage;
      properties := [];
      loading := true;
      filters := NoFilter;
    }

    /** The first half of `fetchProperties`: raise the loading flag and send
        the call chosen by the current filter. */
    method BeginFetch() returns (req: Request)
      modifies this`loading
      ensures loading
      ensures req == Request(ListingCall(filters), CredentialHeaders(storage.items))
    {
      loading := true;
      req := Send(storage, ListingCall(filters));
    }

    /** The second half: on success the answer replaces the list, on failure
        the list is kept; the loading flag drops either way. Nothing checks
        that this answer belongs to the latest request. */
    method CompleteFetch(answer: Answer<seq<Property>>)
      modifies this`properties, this`loading, storage
      ensures !loading
      ensures answer.Reply? ==> properties == answer.data && storage.items == old(storage.items)
      ensures answer.Fault? ==>
                properties == old(properties) && storage.items == ItemsAfterFault(old(storage.items), answer.error)
    {
      var r := Receive(storage, answer);
      if r.Success? {
        properties := r.value;
      }
      loading := false;
    }

    /** `handleFilterChange`: store the new filter; the effect keyed on it
        starts a fetch (a new object, so even an equal filter refetches). */
    method HandleFilterChange(f: PropertyFilter) returns (req: Request)
      modifies this`filters, this`loading
      ensures filters == f && loading
      ensures req == Request(ListingCall(f), CredentialHeaders(storage.items))
    {
      filters := f;
      req := BeginFetch();
    }
  }

  /** Two filter changes whose answers arrive in the reverse order: the list
      ends up holding the answer to the older filter while the page shows the
      newer one, and the loading flag already dropped while a request was
      still outstanding. */
  method StaleAnswerOverwrites(storage: LocalStorage, older: PropertyFilter, newer: PropertyFilter,
                               olderData: seq<Property>, newerData: seq<Property>)
    returns (page: Page, loadingWhileOutstanding: bool)
    modifies storage
    ensures page.filters == newer && page.properties == olderData && !page.loading
    ensures !loadingWhileOutstanding
  {
    page := new Page(storage);
    var _ := page.HandleFilterChange(older);
    var _ := page.HandleFilterChange(newer);
    page.CompleteFetch(Reply(newerData));
    loadingWhileOutstanding := page.loading;
    page.CompleteFetch(Reply(olderData));
  }
}
