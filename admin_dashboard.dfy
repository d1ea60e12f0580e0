/** The admin dashboard (src/pages/admin/AdminDashboard.tsx): the two
    case-insensitive search filters and the admin count over the fetched
    lists, and the page's state: both lists, their loading flags, the
    non-admin redirect on mount, the fetches and the delete handlers. */
module AdminDashboard {
  import opened Wrappers
  import opened Types
  import opened Storage
  import opened Js
  import opened ApiService

  // ----- Searching and counting -----

  /** `xs.filter(x => keep(x, key))`: the elements `keep` accepts, in order. */
  function Select<T>(xs: seq<T>, key: string, keep: (T, string) -> bool): (r: seq<T>)
    ensures |r| <= |xs|
    ensures forall x :: x in r ==> x in xs && keep(x, key)
  {
    if xs == [] then []
    else (if keep(xs[0], key) then [xs[0]] else []) + Select(xs[1..], key, keep)
  }

  /** Nothing `keep` accepts is dropped. */
  lemma {:induction false} SelectComplete<T>(xs: seq<T>, key: string, keep: (T, string) -> bool)
    ensures forall x :: x in xs && keep(x, key) ==> x in Select(xs, key, keep)
  {
    if xs != [] {
      SelectComplete(xs[1..], key, keep);
      assert forall x :: x in xs ==> x == xs[0] || x in xs[1..];
    }
  }

  /** Selecting from a concatenation concatenates the selections, so the
      relative order of the kept elements is that of the input. */
  lemma {:induction false} SelectAppend<T>(a: seq<T>, b: seq<T>, key: string, keep: (T, string) -> bool)
    ensures Select(a + b, key, keep) == Select(a, key, keep) + Select(b, key, keep)
  {
    if a != [] {
      assert (a + b)[1..] == a[1..] + b;
      SelectAppend(a[1..], b, key, keep);
    } else {
      assert a + b == b;
    }
  }

  /** The selection is the whole input exactly when every element is accepted. */
  lemma {:induction false} SelectAll<T>(xs: seq<T>, key: string, keep: (T, string) -> bool)
    ensures Select(xs, key, keep) == xs <==> forall i :: 0 <= i < |xs| ==> keep(xs[i], key)
  {
    if xs != [] {
      SelectAll(xs[1..], key, keep);
      if Select(xs, key, keep) == xs {
        assert forall i :: 0 <= i < |xs| ==> xs[i] in Select(xs, key, keep);
      }
    }
  }

  /** Two keys that every element treats alike select the same elements. */
  lemma {:induction false} SelectSameKeys<T>(xs: seq<T>, k1: string, k2: string, keep: (T, string) -> bool)
    requires forall i :: 0 <= i < |xs| ==> keep(xs[i], k1) == keep(xs[i], k2)
    ensures Select(xs, k1, keep) == Select(xs, k2, keep)
  {
    if xs != [] {
      SelectSameKeys(xs[1..], k1, k2, keep);
    }
  }

  /** `text.toLowerCase().includes(search.toLowerCase())`. */
  predicate ContainsIgnoringCase(text: string, search: string) {
    Includes(ToLower(text), ToLower(search))
  }

  predicate UserMatches(u: User, search: string) {
    ContainsIgnoringCase(u.username, search) || ContainsIgnoringCase(u.email, search)
  }

  predicate PropertyMatches(p: Property, search: string) {
    ContainsIgnoringCase(p.title, search) || ContainsIgnoringCase(p.location, search)
  }

  predicate HasRole(u: User, role: string) {
    u.role == role
  }

  const AdminRole := "ADMIN"

  /** `filteredUsers`: exactly the users whose username or email contains the search, in order. */
  function FilteredUsers(users: seq<User>, search: string): (r: seq<User>)
    ensures |r| <= |users|
    ensures forall u :: u in r <==> u in users && UserMatches(u, search)
  {
    SelectComplete(users, search, UserMatches);
    Select(users, search, UserMatches)
  }

  /** `filteredProperties`: exactly the properties whose title or location contains the search, in order. */
  function FilteredProperties(properties: seq<Property>, search: string): (r: seq<Property>)
    ensures |r| <= |properties|
    ensures forall p :: p in r <==> p in properties && PropertyMatches(p, search)
  {
    SelectComplete(properties, search, PropertyMatches);
    Select(properties, search, PropertyMatches)
  }

  /** The "Admin Users" figure. */
  function AdminCount(users: seq<User>): (n: nat)
    ensures n <= |users|
    ensures n == |users| <==> forall i :: 0 <= i < |users| ==> users[i].role == AdminRole
  {
    SelectAll(users, AdminRole, HasRole);
    assert |Select(users, AdminRole, HasRole)| == |users| ==> Select(users, AdminRole, HasRole) == users by {
      if |Select(users, AdminRole, HasRole)| == |users| {
        SelectFullLength(users, AdminRole, HasRole);
      }
    }
    |Select(users, AdminRole, HasRole)|
  }

  /** A selection as long as its input keeps everything. */
  lemma {:induction false} SelectFullLength<T>(xs: seq<T>, key: string, keep: (T, string) -> bool)
    requires |Select(xs, key, keep)| == |xs|
    ensures Select(xs, key, keep) == xs
  {
    if xs != [] {
      SelectFullLength(xs[1..], key, keep);
    }
  }

  /** The admin count of two lists together is the sum of their counts, and
      one admin more counts once more. */
  lemma {:induction false} AdminCountAdds(a: seq<User>, b: seq<User>, u: User)
    ensures AdminCount(a + b) == AdminCount(a) + AdminCount(b)
    ensures AdminCount(a + [u]) == AdminCount(a) + (if u.role == AdminRole then 1 else 0)
  {
    SelectAppend(a, b, AdminRole, HasRole);
    SelectAppend(a, [u], AdminRole, HasRole);
  }

  /** An empty search keeps every user and every property. */
  lemma {:induction false} EmptySearchKeepsAll(users: seq<User>, properties: seq<Property>)
    ensures FilteredUsers(users, "") == users
    ensures FilteredProperties(properties, "") == properties
  {
    assert ToLower("") == "";
    forall i | 0 <= i < |users| ensures UserMatches(users[i], "") {
      IncludesEmpty(ToLower(users[i].username));
    }
    SelectAll(users, "", UserMatches);
    forall i | 0 <= i < |properties| ensures PropertyMatches(properties[i], "") {
      IncludesEmpty(ToLower(properties[i].title));
    }
    SelectAll(properties, "", PropertyMatches);
  }

  /** The case of the search does not matter. */
  lemma {:induction false} SearchIgnoresCase(users: seq<User>, properties: seq<Property>, search: string)
    ensures FilteredUsers(users, search) == FilteredUsers(users, ToLower(search))
    ensures FilteredProperties(properties, search) == FilteredProperties(properties, ToLower(search))
  {
    ToLowerIdempotent(search);
    SelectSameKeys(users, search, ToLower(search), UserMatches);
    SelectSameKeys(properties, search, ToLower(search), PropertyMatches);
  }

  /** Searching within a concatenation searches each part, in order. */
  lemma {:induction false} FilteredUsersAppend(a: seq<User>, b: seq<User>, search: string)
    ensures FilteredUsers(a + b, search) == FilteredUsers(a, search) + FilteredUsers(b, search)
  {
    SelectAppend(a, b, search, UserMatches);
  }

  lemma {:induction false} FilteredPropertiesAppend(a: seq<Property>, b: seq<Property>, search: string)
    ensures FilteredProperties(a + b, search) == FilteredProperties(a, search) + FilteredProperties(b, search)
  {
    SelectAppend(a, b, search, PropertyMatches);
  }

  // ----- The page -----

  class Dashboard {
    var users: seq<User>
    var properties: seq<Property>
    var loadingUsers: bool
    var loadingProperties: bool
    var userSearch: string
    var propertySearch: string
    /** The last route this page navigated to. */
    var navigatedTo: Option<string>
    const storage: LocalStorage

    constructor (storage: LocalStorage)
      ensures this.storage == storage
      ensures users == [] && properties == [] && loadingUsers && loadingProperties
      ensures userSearch == "" && propertySearch == "" && navigatedTo == None
    {
      this.storage := storage;
      users, properties := [], [];
      loadingUsers, loadingProperties := true, true;
      userSearch, propertySearch := "", "";
      navigatedTo := None;
    }

    /** The users table's rows, as displayed. */
    function ShownUsers(): (r: seq<User>)
      reads this
      ensures userSearch == "" ==> r == users
    {
      EmptySearchKeepsAll(users, []);
      FilteredUsers(users, userSearch)
    }

    method StartUsers() returns (req: Request)
      modifies this`loadingUsers
      ensures loadingUsers && req == Request(GetAllUsers(), CredentialHeaders(storage.items))
    {
      loadingUsers := true;
      req := Send(storage, GetAllUsers());
    }

    method FinishUsers(answer: Answer<seq<User>>)
      modifies this`users, this`loadingUsers, storage
      ensures !loadingUsers
      ensures answer.Reply? ==> users == answer.data && storage.items == old(storage.items)
      ensures answer.Fault? ==> users == old(users) && storage.items == ItemsAfterFault(old(storage.items), answer.error)
    {
      var r := Receive(storage, answer);
      if r.Success? {
        users := r.value;
      }
      loadingUsers := false;
    }

    method StartProperties() returns (req: Request)
      modifies this`loadingProperties
      ensures loadingProperties && req == Request(GetAllProperties(), CredentialHeaders(storage.items))
    {
      loadingProperties := true;
      req := Send(storage, GetAllProperties());
    }

    method FinishProperties(answer: Answer<seq<Property>>)
      modifies this`properties, this`loadingProperties, storage
      ensures !loadingProperties
      ensures answer.Reply? ==> properties == answer.data && storage.items == old(storage.items)
      ensures answer.Fault? ==>
                properties == old(properties) && storage.items == ItemsAfterFault(old(storage.items), answer.error)
    {
      var r := Receive(storage, answer);
      if r.Success? {
        properties := r.value;
      }
      loadingProperties := false;
    }

    /** `fetchUsers`: on failure the list is kept; the flag drops either way. */
    method FetchUsers(answer: Answer<seq<User>>) returns (req: Request)
      modifies this`users, this`loadingUsers, storage
      ensures req == Request(GetAllUsers(), CredentialHeaders(old(storage.items)))
      ensures !loadingUsers
      ensures answer.Reply? ==> users == answer.data && storage.items == old(storage.items)
      ensures answer.Fault? ==> users == old(users) && storage.items == ItemsAfterFault(old(storage.items), answer.error)
    {
      req := StartUsers();
      FinishUsers(answer);
    }

    /** `fetchProperties`: on failure the list is kept; the flag drops either way. */
    method FetchProperties(answer: Answer<seq<Property>>) returns (req: Request)
      modifies this`properties, this`loadingProperties, storage
      ensures req == Request(GetAllProperties(), CredentialHeaders(old(storage.items)))
      ensures !loadingProperties
      ensures answer.Reply? ==> properties == answer.data && storage.items == old(storage.items)
      ensures answer.Fault? ==>
                properties == old(properties) && storage.items == ItemsAfterFault(old(storage.items), answer.error)
    {
      req := StartProperties();
      FinishProperties(answer);
    }

    /** The mount effect, given the session's `isAdmin()`: a non-admin is sent
        to "/dashboard" with nothing fetched (both lists stay loading); an
        admin gets both fetches, sent together before either is answered. */
    method Mount(isAdmin: bool, usersAnswer: Answer<seq<User>>, propertiesAnswer: Answer<seq<Property>>)
      returns (sent: seq<Request>)
      modifies this`users, this`properties, this`loadingUsers, this`loadingProperties, this`navigatedTo, storage
      ensures !isAdmin ==>
                sent == [] && navigatedTo == Some(DashboardRoute)
                && users == old(users) && properties == old(properties)
                && loadingUsers == old(loadingUsers) && loadingProperties == old(loadingProperties)
                && storage.items == old(storage.items)
      ensures isAdmin ==>
                navigatedTo == old(navigatedTo) && !loadingUsers && !loadingProperties
                && sent == [Request(GetAllUsers(), CredentialHeaders(old(storage.items))),
                            Request(GetAllProperties(), CredentialHeaders(old(storage.items)))]
      ensures isAdmin && usersAnswer.Reply? ==> users == usersAnswer.data
      ensures isAdmin && usersAnswer.Fault? ==> users == old(users)
      ensures isAdmin && propertiesAnswer.Reply? ==> properties == propertiesAnswer.data
      ensures isAdmin && propertiesAnswer.Fault? ==> properties == old(properties)
      ensures isAdmin && usersAnswer.Reply? && propertiesAnswer.Reply? ==> storage.items == old(storage.items)
      ensures isAdmin && usersAnswer.Reply? && propertiesAnswer.Fault? ==>
                storage.items == ItemsAfterFault(old(storage.items), propertiesAnswer.error)
      ensures isAdmin && usersAnswer.Fault? && propertiesAnswer.Reply? ==>
                storage.items == ItemsAfterFault(old(storage.items), usersAnswer.error)
      ensures isAdmin && usersAnswer.Fault? && propertiesAnswer.Fault? ==>
                storage.items == ItemsAfterFault(ItemsAfterFault(old(storage.items), usersAnswer.error), propertiesAnswer.error)
    {
      if !isAdmin {
        navigatedTo := Some(DashboardRoute);
        return [];
      }
      var forUsers := StartUsers();
      var forProperties := StartProperties();
      sent := [forUsers, forProperties];
      FinishUsers(usersAnswer);
      FinishProperties(propertiesAnswer);
    }

    /** `handleDeleteUser(username)`: only a successful delete refetches the users. */
    method HandleDeleteUser(username: string, answer: Answer<()>, refetch: Answer<seq<User>>) returns (sent: seq<Request>)
      modifies this`users, this`loadingUsers, storage
      ensures |sent| >= 1 && sent[0] == Request(DeleteUser(username), CredentialHeaders(old(storage.items)))
      ensures answer.Fault? ==>
                sent == [sent[0]] && users == old(users) && loadingUsers == old(loadingUsers)
                && storage.items == ItemsAfterFault(old(storage.items), answer.error)
      ensures answer.Reply? ==>
                sent == [sent[0], Request(GetAllUsers(), CredentialHeaders(old(storage.items)))] && !loadingUsers
      ensures answer.Reply? && refetch.Reply? ==> users == refetch.data
      ensures answer.Reply? && refetch.Fault? ==> users == old(users)
      ensures answer.Reply? && refetch.Reply? ==> storage.items == old(storage.items)
      ensures answer.Reply? && refetch.Fault? ==> storage.items == ItemsAfterFault(old(storage.items), refetch.error)
    {
      var req, r := Exchange(storage, DeleteUser(username), answer);
      sent := [req];
      if r.Success? {
        var again := FetchUsers(refetch);
        sent := sent + [again];
      }
    }

    /** `handleDeleteProperty(id)`: only a successful delete refetches the properties. */
    method HandleDeleteProperty(id: string, answer: Answer<()>, refetch: Answer<seq<Property>>) returns (sent: seq<Request>)
      modifies this`properties, this`loadingProperties, storage
      ensures |sent| >= 1 && sent[0] == Request(DeleteProperty(id), CredentialHeaders(old(storage.items)))
      ensures answer.Fault? ==>
                sent == [sent[0]] && properties == old(properties) && loadingProperties == old(loadingProperties)
                && storage.items == ItemsAfterFault(old(storage.items), answer.error)
      ensures answer.Reply? ==>
                sent == [sent[0], Request(GetAllProperties(), CredentialHeaders(old(storage.items)))]
                && !loadingProperties
      ensures answer.Reply? && refetch.Reply? ==> properties == refetch.data
      ensures answer.Reply? && refetch.Fault? ==> properties == old(properties)
      ensures answer.Reply? && refetch.Reply? ==> storage.items == old(storage.items)
      ensures answer.Reply? && refetch.Fault? ==> storage.items == ItemsAfterFault(old(storage.items), refetch.error)
    {
      var req, r := Exchange(storage, DeleteProperty(id), answer);
      sent := [req];
      if r.Success? {
        var again := FetchProperties(refetch);
        sent := sent + [again];
      }
    }

    method SetUserSearch(search: string)
      modifies this`userSearch
      ensures userSearch == search
    {
      userSearch := search;
    }

    method SetPropertySearch(search: string)
      modifies this`propertySearch
      ensures propertySearch == search
    {
      propertySearch := search;
    }
  }
}
