# RoomMateFinder client core, modelled in Dafny

RoomMateFinder's web client is a React application where people list rooms
and look for roommates. This project models its core logic and proves
properties of that model. The core has four parts:

- **The session store** (`AuthProvider`):
  - in-memory `user`, `token` and `loading` state;
  - the token persisted in `localStorage`;
  - login, registration, logout, the start-up profile check and profile updates.
- **The request gateway** (the axios instance in `apiService.ts`):
  - the endpoint table;
  - a request interceptor that attaches the persisted token as a Bearer credential;
  - a response interceptor that passes successes through, clears the persisted session on a 401, and rejects every failure with one of three shapes.
- **The authorization gate** (`ProtectedRoute`): a first-match-wins decision between the spinner, a redirect and the protected route.
- **Pages, components and hooks:** the filter panel, the listing page and hooks, the admin dashboard, the property detail, edit and form views, the login, registration and profile pages, and the string helpers.

How the model is built:

- **Shared modules.** `Wrappers`, `Js`, `Numerals`, `Types`, `Storage` and `ApiService` are shared. There is then one module per source file.
- **Mutable state.**
  - A component's or hook's React state is a Dafny `class`. Each handler is a method with a `modifies` frame.
  - `localStorage` is one shared `LocalStorage` object holding a `map`.
  - Navigation is recorded in a `navigatedTo` field.
- **The backend.** The backend is never called. Each handler receives, as a parameter, the answer the server gives to each call it makes: `Reply(data)` or `Fault(error)`.
- **Calls.** Every call goes through `ApiService.Exchange`, so each handler's contract states:
  - the request it sends, headers included;
  - what a 401 does to persisted storage.
- **Asynchronous handlers.** An `async` handler is one sequential step. The listing fetches are the exception: they are split at their `await` into a sending half and a receiving half, because further fetches can start between the two.

The model follows the code where the design description of the client says
otherwise:

- **Rejection shapes.** The gateway does not sort failures into four error classes. It rejects with one of three shapes (`ApiService.RejectionShapes`):
  - the response body whenever there is a response;
  - the text "Network error occurred" when no response arrived;
  - the error's message otherwise.
- **Token and user are not kept in step by the handlers themselves.** In the model's sequential `login`, a failed profile fetch rethrows but keeps the persisted and in-memory token. `logout` on a failed fetch belongs to the `checkAuth` effect. In the running app that effect also runs again after each token change, which this model leaves out (see "## Left out").
- **A 401 reaches storage only.** It clears `localStorage` but not the session store's in-memory token. Only the full reload the gateway requests brings the gate to "/login" (`Scenarios.UnauthorizedThenReload`).
- **No last-request-wins on the listing page.** The listing page has no such guard: a late answer to an older filter overwrites the newer results (`PropertiesPage.StaleAnswerOverwrites`).
- **Inverted budget ranges pass through.** An inverted budget range is sent as typed (`PropertyFilterComponent.InvertedRangeKept`).

## Model

| member | source | states |
|---|---|---|
| Types.KeyCount | src/pages/properties/PropertiesPage.tsx:28 | `Object.keys(filter).length` is at most 4 and is 0 exactly for the empty filter |
| Numerals.Parse | src/components/properties/PropertyFilter.tsx:39-40 | parsing yields a number exactly when the text is an integer numeral, NaN otherwise |
| Numerals.IntToString | src/pages/user/Profile.tsx:42 | `toString()` of an integer is a numeral that parses back to the same number |
| ApiService.PostLogin | src/contexts/AuthContext.tsx:51 | POST of the username and password to "/auth/login" |
| ApiService.PostRegister | src/contexts/AuthContext.tsx:72 | POST of the submitted user data to "/auth/register" |
| ApiService.GetAllProperties | src/services/apiService.ts:59 | GET "/api/properties/all" |
| ApiService.CreateProperty | src/services/apiService.ts:61 | POST of the draft to "/api/properties/create" |
| ApiService.GetUserProperties | src/services/apiService.ts:64 | GET "/api/properties/user" |
| ApiService.GetAllUsers | src/services/apiService.ts:70 | GET "/api/users/all" |
| ApiService.GetPropertyById | src/services/apiService.ts:60 | GET of "/api/properties/" followed by the id, which is recoverable from the path |
| ApiService.UpdateProperty | src/services/apiService.ts:62 | PUT of the draft to "/api/properties/update/" + id |
| ApiService.DeleteProperty | src/services/apiService.ts:63 | DELETE of "/api/properties/delete/" + id, no body |
| ApiService.FilterProperties | src/services/apiService.ts:67 | always GET "/api/properties/filter/advanced" with the filter as query parameters |
| ApiService.GetUserByUsername | src/services/apiService.ts:71 | GET of "/api/users/" + username |
| ApiService.UpdateUser | src/services/apiService.ts:72 | PUT of the patch to "/api/users/" + username |
| ApiService.DeleteUser | src/services/apiService.ts:73 | DELETE of "/api/users/" + username |
| ApiService.FixedSegmentsCollide | src/services/apiService.ts:59-73 | the user "all" and the properties "all" and "user" are addressed by the listing endpoints' own paths |
| ApiService.PathsDetermineIdentifiers | src/services/apiService.ts:60-73 | distinct identifiers give distinct user, property and delete paths |
| ApiService.CredentialHeaders | src/services/apiService.ts:14-19 | an Authorization header exists iff the persisted token is non-empty, and it reads "Bearer " + token |
| ApiService.RequestConfig.AttachCredentials | src/services/apiService.ts:14-19 | a truthy persisted token adds `Authorization: Bearer <token>`; every other header and the call are unchanged |
| ApiService.Send | src/services/apiService.ts:13-22 | the sent request is the call with exactly the credential headers of the current storage |
| ApiService.IsUnauthorized | src/services/apiService.ts:28-30 | a 401 always carries a response, so it is rejected with the response body; without a response a failure is never a 401 |
| ApiService.Rejected | src/services/apiService.ts:28-46 | the rejection is the response body exactly when there is a response; with no response but a request it is "Network error occurred" |
| ApiService.ItemsAfterFault | src/services/apiService.ts:28-34 | a 401 removes both the token and the username; any other failure leaves storage as it was |
| ApiService.RejectionShapes | src/services/apiService.ts:28-46 | a failure with a response rejects with its body (401 included); with no response but a request, with "Network error occurred"; else with its message |
| ApiService.OnFailure | src/services/apiService.ts:27-47 | the failure handler rejects with the shape above and updates storage as above |
| ApiService.Receive | src/services/apiService.ts:25-48 | successes pass through unchanged with storage untouched; failures are shaped by the failure handler |
| ApiService.Exchange | src/services/apiService.ts:13-48 | a round trip: request with the credentials of the storage before the call, then the response handling |
| AuthContext.Spread | src/contexts/AuthContext.tsx:79-85 | every key present in the patch overrides the base record, every absent key keeps it |
| AuthContext.SeedUser | src/contexts/AuthContext.tsx:79-85 | the seeded user has id "", role "USER" unless the data carries one, and every other field from the submitted data |
| AuthContext.AuthProvider.constructor | src/contexts/AuthContext.tsx:23-25 | the token starts as the persisted one, with no user and loading true |
| AuthContext.AuthProvider.IsAuthenticated | src/contexts/AuthContext.tsx:107-109 | true iff the token is present and non-empty |
| AuthContext.AuthProvider.IsAdmin | src/contexts/AuthContext.tsx:111-113 | true iff a user is present with role "ADMIN"; false without a user |
| AuthContext.AuthProvider.Logout | src/contexts/AuthContext.tsx:99-105 | removes only the persisted token (the username stays), clears token and user, goes to "/login" |
| AuthContext.AuthProvider.FetchUserProfile | src/contexts/AuthContext.tsx:115-131 | a no-op without a token; otherwise one GET addressed by the persisted username ("null" if none); on success user is the record, on failure it is rethrown with user unchanged |
| AuthContext.AuthProvider.CheckAuth | src/contexts/AuthContext.tsx:29-46 | with a token, fetch the profile and log out if it throws; without, nothing; loading is false on every path |
| AuthContext.AuthProvider.Login | src/contexts/AuthContext.tsx:48-67 | refused credentials rethrow with token, user and navigation unchanged and storage as after any failure (a 401 clears token and username); a reply without a token changes nothing and does not throw; a token is persisted and adopted, then exactly one profile fetch; a failed fetch rethrows, keeping the token unless it was a 401; loading ends false |
| AuthContext.AuthProvider.Register | src/contexts/AuthContext.tsx:69-97 | on a token: persisted, adopted, user seeded with `SeedUser`, no profile fetch, go to "/dashboard"; failures rethrow with token, user and navigation unchanged and storage as after any failure (a 401 clears token and username) |
| AuthContext.AuthProvider.UpdateUserProfile | src/contexts/AuthContext.tsx:133-148 | silent return without user or token; otherwise PUT to the user's path, user becomes the server record, or stays and the error is rethrown |
| AuthContext.LogoutIsIdempotent | src/contexts/AuthContext.tsx:99-105 | logging out twice equals logging out once and keeps the persisted username |
| ProtectedRoute.Decide | src/components/auth/ProtectedRoute.tsx:10-31 | the protected route is rendered only for a settled, authenticated session that meets the admin requirement; a redirect goes only to `redirectPath` or "/dashboard", and "/dashboard" (when not the caller's own `redirectPath`) only for an authenticated non-admin on an admin route |
| ProtectedRoute.LoadingShowsSpinner | src/components/auth/ProtectedRoute.tsx:15-21 | while loading, the spinner whatever the other inputs |
| ProtectedRoute.AnonymousIsRedirected | src/components/auth/ProtectedRoute.tsx:10-25 | not loading and not authenticated: redirect to `redirectPath` (default "/login"); the admin flag is not consulted |
| ProtectedRoute.DecisionTable | src/components/auth/ProtectedRoute.tsx:15-31 | each outcome and exactly when it occurs: spinner iff loading, protected route iff authenticated and (not requireAdmin or admin), "/dashboard" for the authenticated non-admin on an admin route |
| ProtectedRoute.NoFallbackWithoutRequireAdmin | src/components/auth/ProtectedRoute.tsx:11-29 | with the default `requireAdmin`, the "/dashboard" fallback is never produced |
| ProtectedRoute.GateFor | src/App.tsx:54-66 | the five protected paths get the default gate, "/admin" the admin gate, every other path none |
| Helpers.TruncateString | src/utils/helpers.ts:23-26 | a string that fits is returned unchanged; otherwise its prefix of `length` characters followed by "...", of length `length + 3` (a negative length counts from the end) |
| Helpers.ToTitleCase | src/utils/helpers.ts:33-38 | title-casing keeps the length of the text |
| Helpers.TitleCaseKeepsSpaces | src/utils/helpers.ts:33-38 | whitespace stays exactly where it was and every other character stays non-space |
| Helpers.TitleCaseReference | src/utils/helpers.ts:33-38 | at each position: outside a `\w\S*` match the character is kept, the first character of a match is upper-cased, the rest lower-cased |
| Helpers.ExtractUsernameFromEmail | src/utils/helpers.ts:45-47 | the longest prefix without '@', followed in the address by '@' when shorter than it |
| Helpers.ExtractsLocalPart | src/utils/helpers.ts:45-47 | for `name@domain` with no '@' in name, the name comes back |
| Helpers.IsEmpty | src/utils/helpers.ts:54-62 | a string is empty iff it is "", an array or object iff it has no elements or keys; numbers, booleans and functions never are |
| Helpers.IsEmptyCases | src/utils/helpers.ts:54-62 | exactly null, undefined, "", [] and {} are empty; numbers (0 too), booleans and functions never are |
| PropertyFilterComponent.SparseFilter | src/components/properties/PropertyFilter.tsx:36-41 | each key is present iff its input is non-empty, budgets parsed, no key when all four are empty |
| PropertyFilterComponent.InvertedRangeKept | src/components/properties/PropertyFilter.tsx:39-40 | a minimum above the maximum is passed through as typed |
| PropertyFilterComponent.FilterPanel.constructor | src/components/properties/PropertyFilter.tsx:28-33 | four empty inputs, filter inactive, sheet closed |
| PropertyFilterComponent.FilterPanel.SetLocation | src/components/properties/PropertyFilter.tsx:67 | the location input takes the typed value |
| PropertyFilterComponent.FilterPanel.SetMinBudget | src/components/properties/PropertyFilter.tsx:107 | the minimum-budget input takes the typed value |
| PropertyFilterComponent.FilterPanel.SetMaxBudget | src/components/properties/PropertyFilter.tsx:117 | the maximum-budget input takes the typed value |
| PropertyFilterComponent.FilterPanel.SetPreferredGender | src/components/properties/PropertyFilter.tsx:126 | the gender select takes the chosen value |
| PropertyFilterComponent.FilterPanel.SetSheetOpen | src/components/properties/PropertyFilter.tsx:73 | the sheet opens or closes as asked |
| PropertyFilterComponent.FilterPanel.ApplyFilter | src/components/properties/PropertyFilter.tsx:35-46 | emits `SparseFilter` of the inputs, marks the filter active and closes the sheet |
| PropertyFilterComponent.FilterPanel.ResetFilter | src/components/properties/PropertyFilter.tsx:48-55 | clears the four inputs, emits `{}`, marks the filter inactive |
| PropertyFilterComponent.ResetThenApply | src/components/properties/PropertyFilter.tsx:36-55 | reset then apply emits `{}` yet leaves the filter marked active |
| PropertiesPage.ListingCall | src/pages/properties/PropertiesPage.tsx:28-32 | a filter with keys selects the advanced filter with that filter, the empty one the full listing |
| PropertiesPage.Render | src/pages/properties/PropertiesPage.tsx:62-89 | spinner iff loading; cards iff loaded and non-empty; the "match your current filters" text iff a filter key is set |
| PropertiesPage.Page.constructor | src/pages/properties/PropertiesPage.tsx:13-15 | no properties, loading, empty filter |
| PropertiesPage.Page.BeginFetch | src/pages/properties/PropertiesPage.tsx:22-32 | loading is raised and the call chosen by the current filter is sent |
| PropertiesPage.Page.CompleteFetch | src/pages/properties/PropertiesPage.tsx:34-39 | success replaces the list, failure keeps it; loading drops either way |
| PropertiesPage.Page.HandleFilterChange | src/pages/properties/PropertiesPage.tsx:18-44 | the filter is replaced wholesale and a fetch for it starts |
| PropertiesPage.StaleAnswerOverwrites | src/pages/properties/PropertiesPage.tsx:18-40 | answers arriving in reverse order leave the older filter's results on show under the newer filter, and loading drops while a request is outstanding |
| UseProperties.CallFor | src/hooks/useProperties.tsx:15-43 | the full listing, the caller's listing, or the advanced filter (even for `{}`) |
| UseProperties.FailureMessage | src/hooks/useProperties.tsx:19-47 | each fetch's own failure text |
| UseProperties.FailureMessagesDistinct | src/hooks/useProperties.tsx:19-47 | the three texts tell the fetches apart |
| UseProperties.PropertiesHook.constructor | src/hooks/useProperties.tsx:7-9 | no properties, loading, no error |
| UseProperties.PropertiesHook.Begin | src/hooks/useProperties.tsx:12-43 | loading raised and error cleared before the call |
| UseProperties.PropertiesHook.Complete | src/hooks/useProperties.tsx:16-50 | success stores the data, failure keeps the list and sets that fetch's message; loading false |
| UseProperties.Fetch | src/hooks/useProperties.tsx:11-51 | a whole fetch: success leaves no error; failure leaves its own message and the old list |
| UseUser.UserHook.constructor | src/hooks/useUser.tsx:9-10 | not loading, no error |
| UseUser.UserHook.UpdateProfile | src/hooks/useUser.tsx:12-24 | delegates to `updateUserProfile`; a throw sets "Failed to update profile" and is rethrown; success leaves no error; loading false |
| AdminDashboard.UserMatches | src/pages/admin/AdminDashboard.tsx:104-107 | a user row matches when its username or its email contains the search, both lower-cased |
| AdminDashboard.PropertyMatches | src/pages/admin/AdminDashboard.tsx:109-112 | a property row matches when its title or its location contains the search, both lower-cased |
| AdminDashboard.HasRole | src/pages/admin/AdminDashboard.tsx:140 | `u.role === 'ADMIN'`: the role is compared exactly, case included |
| AdminDashboard.FilteredUsers | src/pages/admin/AdminDashboard.tsx:104-107 | exactly the users whose lower-cased username or email contains the lower-cased search |
| AdminDashboard.FilteredProperties | src/pages/admin/AdminDashboard.tsx:109-112 | exactly the properties whose title or location contains the search, ignoring case |
| AdminDashboard.FilteredUsersAppend | src/pages/admin/AdminDashboard.tsx:104-107 | filtering a concatenation concatenates the filtered parts, so order is preserved |
| AdminDashboard.FilteredPropertiesAppend | src/pages/admin/AdminDashboard.tsx:109-112 | the same for properties |
| AdminDashboard.EmptySearchKeepsAll | src/pages/admin/AdminDashboard.tsx:104-112 | an empty search keeps every user and property |
| AdminDashboard.SearchIgnoresCase | src/pages/admin/AdminDashboard.tsx:104-112 | a search and its lower-cased form select the same rows |
| AdminDashboard.AdminCount | src/pages/admin/AdminDashboard.tsx:140 | the admin figure is at most the number of users, and equals it iff every user is an admin |
| AdminDashboard.AdminCountAdds | src/pages/admin/AdminDashboard.tsx:140 | the count is additive over concatenation, one admin more counts once more |
| AdminDashboard.Dashboard.constructor | src/pages/admin/AdminDashboard.tsx:35-40 | empty lists, both loading, empty searches |
| AdminDashboard.Dashboard.ShownUsers | src/pages/admin/AdminDashboard.tsx:104-107 | with no search, every user is shown |
| AdminDashboard.Dashboard.StartUsers | src/pages/admin/AdminDashboard.tsx:58-59 | loading raised, GET "/api/users/all" sent |
| AdminDashboard.Dashboard.FinishUsers | src/pages/admin/AdminDashboard.tsx:60-66 | success replaces the users, failure keeps them; loading false |
| AdminDashboard.Dashboard.StartProperties | src/pages/admin/AdminDashboard.tsx:71-72 | loading raised, GET "/api/properties/all" sent |
| AdminDashboard.Dashboard.FinishProperties | src/pages/admin/AdminDashboard.tsx:73-79 | success replaces the properties, failure keeps them; loading false |
| AdminDashboard.Dashboard.FetchUsers | src/pages/admin/AdminDashboard.tsx:56-67 | a failure leaves the list unchanged and its loading flag false |
| AdminDashboard.Dashboard.FetchProperties | src/pages/admin/AdminDashboard.tsx:69-80 | a failure leaves the list unchanged and its loading flag false |
| AdminDashboard.Dashboard.Mount | src/pages/admin/AdminDashboard.tsx:44-54 | a non-admin goes to "/dashboard" with nothing fetched; an admin gets both fetches |
| AdminDashboard.Dashboard.HandleDeleteUser | src/pages/admin/AdminDashboard.tsx:82-91 | a successful delete refetches the users, replacing the list and leaving storage alone on success, keeping the list and clearing token and username on a 401; a failed delete sends nothing more, keeps the list and leaves storage as after any failure |
| AdminDashboard.Dashboard.HandleDeleteProperty | src/pages/admin/AdminDashboard.tsx:93-102 | a successful delete refetches the properties, replacing the list and leaving storage alone on success, keeping the list and clearing token and username on a 401; a failed delete sends nothing more, keeps the list and leaves storage as after any failure |
| AdminDashboard.Dashboard.SetUserSearch | src/pages/admin/AdminDashboard.tsx:174 | the user search takes the typed value |
| AdminDashboard.Dashboard.SetPropertySearch | src/pages/admin/AdminDashboard.tsx:266 | the property search takes the typed value |
| EditProperty.RedirectsAway | src/pages/properties/EditProperty.tsx:26 | only a known user who is not the property's owner is sent away; an anonymous viewer is not |
| EditProperty.Render | src/pages/properties/EditProperty.tsx:42-59 | spinner iff loading; the edit form iff loaded with a property |
| EditProperty.EditPage.constructor | src/pages/properties/EditProperty.tsx:11-12 | no property, loading |
| EditProperty.EditPage.FetchProperty | src/pages/properties/EditProperty.tsx:16-40 | no id: nothing and the spinner stays; success stores the property and sends a known non-owner to "/my-properties"; failure sends anyone there; loading ends false |
| EditProperty.LoadedPageShowsForm | src/pages/properties/EditProperty.tsx:16-59 | a loaded property shows the form, and a redirect happened iff a known user is not its owner |
| PropertyDetailPage.IsOwner | src/pages/properties/PropertyDetail.tsx:73 | true iff both a user and a property are present and the username equals the property's `userId` |
| PropertyDetailPage.GenderLabel | src/pages/properties/PropertyDetail.tsx:158 | "any" reads "Any gender", anything else is shown as stored, so the label "Any gender" comes from exactly "any" and "Any gender" |
| PropertyDetailPage.Render | src/pages/properties/PropertyDetail.tsx:73-113 | spinner iff loading; "not found" iff loaded without a property; the owner controls iff the viewer owns it |
| PropertyDetailPage.DetailPage.constructor | src/pages/properties/PropertyDetail.tsx:25-27 | no property, no owner, loading |
| PropertyDetailPage.DetailPage.FetchDetails | src/pages/properties/PropertyDetail.tsx:31-58 | no id: nothing; else the property, then its owner only when it names one; an owner failure is swallowed |
| PropertyDetailPage.DetailPage.HandleDelete | src/pages/properties/PropertyDetail.tsx:60-71 | no property: nothing; else delete it and go to "/my-properties" only on success |
| PropertyDetailComponent.Controls | src/components/properties/PropertyDetail.tsx:105-125 | an owner sees the delete button, or confirm and cancel when confirmation is pending; others see nothing |
| PropertyDetailComponent.DetailComponent.constructor | src/components/properties/PropertyDetail.tsx:18-21 | no property, no owner, loading, no pending confirmation |
| PropertyDetailComponent.DetailComponent.FetchDetails | src/components/properties/PropertyDetail.tsx:25-50 | as on the page, but the id prop is fetched unchecked |
| PropertyDetailComponent.DetailComponent.RequestDelete | src/components/properties/PropertyDetail.tsx:113 | confirmation becomes pending |
| PropertyDetailComponent.DetailComponent.CancelDelete | src/components/properties/PropertyDetail.tsx:122 | confirmation is withdrawn |
| PropertyDetailComponent.DetailComponent.HandleDelete | src/components/properties/PropertyDetail.tsx:52-63 | no property: nothing; else delete and go to "/my-properties" only on success |
| PropertyDetailComponent.AskThenCancel | src/components/properties/PropertyDetail.tsx:112-124 | asking then cancelling restores the controls |
| Login.LoginPage.constructor | src/pages/auth/Login.tsx:12-14 | empty fields, not loading |
| Login.LoginPage.SetUsername | src/pages/auth/Login.tsx:57 | the username field takes the typed value |
| Login.LoginPage.SetPassword | src/pages/auth/Login.tsx:74 | the password field takes the typed value |
| Login.LoginPage.HandleSubmit | src/pages/auth/Login.tsx:18-40 | an empty field sends nothing and changes nothing; otherwise `login`, then the username is persisted iff login resolved (a reply without a token included); only a token and a successful profile fetch set the user and go to "/dashboard", a refused, tokenless or unprofiled login leaves user and navigation as they were; both loading flags end false |
| Register.WithField | src/pages/auth/Register.tsx:31-34 | the named input takes the value, every other input keeps its own |
| Register.NonEmpty | src/pages/auth/Register.tsx:55-58 | `x \|\| undefined`: present iff non-empty |
| Register.RegisterPayload | src/pages/auth/Register.tsx:51-59 | username, email and password as typed; optional fields only when non-empty; budget parsed when non-empty; no id, role or confirmation |
| Register.RegisteredUser | src/pages/auth/Register.tsx:51-61 | the seeded user has the typed username and email, role "USER", id "" and the typed budget's value |
| Register.RegisterPage.constructor | src/pages/auth/Register.tsx:18-28 | empty form, not loading |
| Register.RegisterPage.HandleChange | src/pages/auth/Register.tsx:31-34 | updates exactly the named input |
| Register.RegisterPage.HandleSelectChange | src/pages/auth/Register.tsx:36-38 | updates only the preferred gender |
| Register.RegisterPage.HandleSubmit | src/pages/auth/Register.tsx:40-71 | a mismatched confirmation sends nothing and changes nothing; otherwise `register` with the payload, and the username is persisted iff it resolved; only a reply with a token seeds the user and goes to "/dashboard", a refused or tokenless registration leaves user and navigation as they were; both loading flags end false |
| Profile.OrEmpty | src/pages/user/Profile.tsx:40-43 | `x \|\| ''` for optional text |
| Profile.BudgetText | src/pages/user/Profile.tsx:42 | empty iff the budget is absent, 0 or NaN; otherwise a numeral that parses back to it |
| Profile.PrefillFrom | src/pages/user/Profile.tsx:35-44 | password inputs empty, everything else from the user record |
| Profile.PasswordsAgree | src/pages/user/Profile.tsx:60 | the check passes when no new password is typed, or when it equals its confirmation |
| Profile.ProfilePayload | src/pages/user/Profile.tsx:68-78 | email, phone, location and gender always; budget when non-empty; `password` iff a new one was typed; never username, id, role or current password |
| Profile.CurrentPasswordIgnored | src/pages/user/Profile.tsx:68-78 | the current-password input never changes the payload |
| Profile.PrefillRoundTrip | src/pages/user/Profile.tsx:33-78 | the unchanged prefilled form sends the user's email, a truthy budget as the same number, no budget for 0, no password |
| Profile.WithField | src/pages/user/Profile.tsx:48-51 | the named input takes the value, every other input keeps its own |
| Profile.ProfilePage.constructor | src/pages/user/Profile.tsx:19-31 | empty form, not editing, not loading |
| Profile.ProfilePage.Prefill | src/pages/user/Profile.tsx:33-46 | with a user, the form is refilled from it; without, unchanged |
| Profile.ProfilePage.StartEditing | src/pages/user/Profile.tsx:154 | editing begins |
| Profile.ProfilePage.CancelEditing | src/pages/user/Profile.tsx:159 | editing ends and the typed values are kept |
| Profile.ProfilePage.HandleChange | src/pages/user/Profile.tsx:48-51 | updates exactly the named input |
| Profile.ProfilePage.HandleSelectChange | src/pages/user/Profile.tsx:53-55 | updates only the preferred gender |
| Profile.ProfilePage.HandleSubmit | src/pages/user/Profile.tsx:57-87 | a typed new password that differs from its confirmation sends nothing and changes nothing; otherwise `updateUserProfile`: on its silent return editing ends with user, storage and the store's loading flag untouched; with a session the current credentials are sent, the store's loading ends false, a reply replaces the user and ends editing with storage untouched, and a failure keeps editing and the user and leaves storage as after any failure (a 401 clears token and username) |
| PropertyForm.OrElse | src/components/properties/PropertyForm.tsx:26-30 | `x \|\| fallback` for a string |
| PropertyForm.InitialDraft | src/components/properties/PropertyForm.tsx:25-31 | the property's fields, each falsy one replaced by its default ("", 0, "any"); without a property all defaults |
| PropertyForm.UntouchedEditSendsProperty | src/components/properties/PropertyForm.tsx:25-31 | an untouched edit draft holds the property's own values |
| PropertyForm.WithField | src/components/properties/PropertyForm.tsx:35-41 | text inputs take the text; the budget input takes its parsed value |
| PropertyForm.ClearedBudgetIsNaN | src/components/properties/PropertyForm.tsx:39 | clearing the budget input leaves NaN |
| PropertyForm.SaveCall | src/components/properties/PropertyForm.tsx:55-60 | an update to the property's id iff editing a property with an id, otherwise a create |
| PropertyForm.PropertyFormState.constructor | src/components/properties/PropertyForm.tsx:24-33 | the initial draft, `isEditing` default false, not loading |
| PropertyForm.PropertyFormState.HandleChange | src/components/properties/PropertyForm.tsx:35-41 | the draft after the change |
| PropertyForm.PropertyFormState.HandleSelectChange | src/components/properties/PropertyForm.tsx:43-48 | updates only the preferred gender |
| PropertyForm.PropertyFormState.HandleSubmit | src/components/properties/PropertyForm.tsx:50-69 | sends `SaveCall`; goes to "/my-properties" only on success; loading ends false |
| Scenarios.AliceSignsIn | src/contexts/AuthContext.tsx:48-67 | alice signs in: one login call, one profile fetch, token "tok123" persisted; the gate admits her to ordinary routes and redirects her from the admin route |
| Scenarios.UnauthorizedThenReload | src/services/apiService.ts:30-34 | a 401 clears persisted token and username; the in-memory session still passes the gate until the reload, after which the gate redirects to "/login" |

## Left out

- Transport: axios itself, the base URL, the timeout and the `Content-Type` header. The backend is replaced by the answers each handler receives.
- `window.location.href = '/login'` after a 401: a full page reload, modelled only as a fresh `AuthProvider` in `Scenarios.UnauthorizedThenReload`.
- Toasts, `console` output and JSX markup beyond the view choices modelled by the `Render` functions.
- React scheduling:
  - Effects, re-renders and batched state updates are left out. Each handler runs as one sequential step; the listing fetches are the exception, split in two.
  - Stale closures are not modelled. In the running app, `fetchUserProfile` inside `login` reads the `token` of the render that created `login`.
  - The `checkAuth` effect is keyed on `[token]`, so it runs again after every `setToken`, including the ones in `login` and `register`. This re-run is not modelled. As a result, the model has no profile fetch after a registration, and no logout when the profile fetch that follows a login or a registration fails.
  - Intermediate `loading == true` states inside single-step handlers are not observable.
- AuthContext.AuthProvider.Login: the model runs the profile fetch with the new token and the previously persisted username. The stale-closure early return is left out.
- The dangling-update hazard after a component unmounts: nothing is modelled after unmount.
- `formatCurrency`, which relies on `Intl.NumberFormat`.
- `src/hooks/useAuth` is not part of this model. Both `src/hooks/useUser.tsx` and `src/components/properties/PropertyDetail.tsx` import `useAuth` from it. The model takes that hook to return the same `AuthProvider` state as the `useAuth` of `src/contexts/AuthContext.tsx`, so `UseUser` and `PropertyDetailComponent` work on an `AuthContext.AuthProvider`.
- Numbers:
  - `parseInt`/`parseFloat` are modelled on integer numerals only. Any other text, decimals and leading/trailing junk included, parses to NaN, whereas JavaScript would return a prefix's value.
  - Budgets are integers; floating point is left out.
- Text:
  - Case mapping, `\s` and `\w` are ASCII-only; Unicode case folding is left out.
  - `isEmpty` is modelled on a finite set of value shapes, without prototypes or symbol keys.
- The pages `Home`, `Dashboard`, `MyProperties`, `CreateProperty`, `NotFound` and the layout components are not part of this model. `CreateProperty` is just `PropertyForm` with no props.
- Browser form validation (`required`, `type="email"`, `type="number"`) is not modelled; handlers see whatever text the inputs hold.
