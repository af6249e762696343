# Vehicle-repair shop front end: route guard, session and form logic

This project is a Dafny model of the decision logic in a Next.js admin front end for a vehicle-repair shop. The model covers:

- **Route guard.** The edge middleware that sends visitors to `/login` or `/dashboard`.
- **Session store.** It holds the signed-in user and the token, together with the two persisted copies of the token: one in `localStorage` and one in the `auth_token` cookie.
- **Shared HTTP client.** Its route builders, the request interceptor that adds the `Bearer` header, and the response interceptor that ends the session on a 401.
- **List pages.** Services, products, customers and vehicles, each with an order-preserving search. The products page also edits its list in place.
- **Dialog forms.** Each form has a validation schema, default values, create-or-update dispatch, and an error message taken from the server or a fallback.
- **Other components.** The plate search page, the vehicle detail panel (brand and model reconciliation, and the record merge on save), the sidebar and the API debug panel.

Network results are never fetched. Each request's outcome is a parameter of type `Common.Outcome<T>`:

- `Ok(data)`;
- `HttpError(status, serverMessage, message)` for a reply with an error status;
- `NoResponse(message)` when the request went out but no reply came;
- `SetupError(message)` when the call failed on the client before any reply could come. For a helper that does not exist, no request is built at all. For a request the request interceptor has already stamped, it is logged in `Api.BrowserState.sent`, but it never reaches the server.

A component whose state changes step by step is a `class`. Its fields mirror the component's `useState` hooks, and `State()` packs them into a value. Each method ensures `State() == Spec(old(State()), inputs)` for a pure function `Spec`, and the lemmas state the component's promises about `Spec`.

The shared parts live in `common.dfy`. They cover the JavaScript string operations the source relies on:

- truthiness;
- `trim`, with the full ECMAScript white-space set;
- ASCII case mapping;
- `includes` and `startsWith`;
- UTF-16 length;
- `toString`, `parseInt` and `Number` on decimal integers, where `None` stands for NaN;
- `filter` and `find`.

`api.dfy` models `lib/api.ts`, and there is one further module per core source file.

## Model

| member | source | states |
|---|---|---|
| Middleware.CookieToken | middleware.ts:6 | the token is present exactly when the cookie is, and is the cookie's value |
| Middleware.Decide | middleware.ts:5-20 | `/login` with a truthy token goes to `/dashboard`; any other path without a truthy token (absent or empty) goes to `/login`; the request passes exactly when "is `/login`" and "has a truthy token" differ |
| Middleware.NoRedirectLoop | middleware.ts:10-19 | following a redirect with the same cookie always passes |
| Middleware.OnlyExactLoginIsAuthPage | middleware.ts:7 | `/login/` and `/loginx` are guarded like any page; an empty cookie is no token |
| Middleware.Guard | middleware.ts:23-25 | a path the matcher skips always passes; a matched non-login path without a token is sent to `/login`; only matched paths are ever redirected |
| Middleware.ExcludedPrefixesSkipped | middleware.ts:23-25 | a path whose text after `/` starts with `api`, `_next/static`, `_next/image` or `favicon` plus any character plus `ico` is never guarded (the unescaped dot in the pattern matches any character) |
| Middleware.PlainPagesGuarded | middleware.ts:23-25 | a page path without a dot, and not starting with `a`, `_` or `f`, is matched by the guard |
| Middleware.SvgNeverGuarded | middleware.ts:23-25 | a path ending in `.svg` always passes, whatever the cookie |
| Api.SearchIsGetById | lib/api.ts:70-72 | `vehicles.search(p)` and `vehicles.getById(p)` request the same route `GET /vehicles/` + p |
| Api.AddItemPath | lib/api.ts:109-112 | `services.addItem` posts to `/vehicles/{plate}/services/{id}/items`, the collection `services.getItems` reads |
| Api.ItemsPathLacksSlash | lib/api.ts:116-133 | `items.getAll(c)` requests `/companies/{c}items`, with no slash, and so differs from `companies.getItems(c)`, which requests `/companies/{c}/items` |
| Api.CallAsWritten | lib/api.ts:55-155 | a call to a helper that `apiService` defines settles as the request does; a call to an undefined helper throws before any request is sent |
| Api.Authorize | lib/api.ts:13-28 | with a truthy stored token the Authorization header becomes `Bearer ` + token; otherwise the request is unchanged; route and retry marker are never touched |
| Api.BearerRoundTrip | lib/api.ts:19-21 | stripping `Bearer ` from the header gives back exactly the stored token |
| Api.Marked | lib/api.ts:36-38 | `_retry` is set after the interceptor exactly when it was already set or the reply was a 401 on an unmarked request |
| Api.ExpiryClearsSession | lib/api.ts:37-47 | a 401 on an unmarked request removes the stored token and the cookie and sets the location to `/login`; later requests carry no header |
| Api.OtherRepliesKeepSession | lib/api.ts:32-50 | every other settlement (success, any other status, no response, a request already marked) leaves storage, cookie and location as they were |
| Api.ExpiryIdempotent | lib/api.ts:37-47 | a second expiry after the first changes nothing beyond recording the request |
| Api.DispatchKeepsInStep | lib/api.ts:32-50 | the interceptors keep the stored token and the `auth_token` cookie in lockstep: both absent, or both present with the same token |
| Api.Browser.constructor | lib/api.ts:13-52 | a browser with the given storage, cookie and location, and no requests sent |
| Api.Browser.Send | lib/api.ts:13-52 | sending runs both interceptors: the new state is `Dispatch` of the old, the reply reaches the caller unchanged, and the request comes back marked as `Marked` says |
| Session.CompanyId | components/product-form.tsx:56 | `user?.company?.id` is usable exactly when a user with a non-zero company id is signed in |
| Session.Context | hooks/use-auth.tsx:102-111 | `isAuthenticated` holds exactly when a user is set; user, token and loading flag are handed out as stored |
| Session.UseAuth | hooks/use-auth.tsx:118-124 | outside a provider the hook fails with the provider message; inside it returns the provider's value |
| Session.AuthProvider.constructor | hooks/use-auth.tsx:27-29 | a new provider has no user, no token, and is loading |
| Session.AuthProvider.Logout | hooks/use-auth.tsx:91-100 | the new state is `LoggedOut` of the old: user and token cleared, both persisted copies removed, navigation to `/login` |
| Session.AuthProvider.FetchUserData | hooks/use-auth.tsx:44-58 | the new state is `Fetched` of the old: user on success, `logout` on any failure, loading ends either way |
| Session.AuthProvider.Init | hooks/use-auth.tsx:32-41 | the new state is `Initialized` of the old: the mount effect adopts a truthy stored token and fetches the profile with it |
| Session.AuthProvider.Login | hooks/use-auth.tsx:61-89 | the new state is `LoggedIn` of the old, and the caller receives the post's outcome unchanged (a failure is rethrown) |
| Session.InitWithoutToken | hooks/use-auth.tsx:35-40 | without a truthy stored token the mount effect only stops loading: no user, no token, no request |
| Session.InitWithToken | hooks/use-auth.tsx:35-37 | with a truthy stored token the mount effect sends one profile request carrying that token; on success the provider adopts that token and the user; loading ends false |
| Session.FetchOutcome | hooks/use-auth.tsx:44-58 | the profile fetch sets the user on success; on failure the session is logged out; loading ends false |
| Session.LogoutIdempotent | hooks/use-auth.tsx:91-100 | logging out twice equals logging out once, and logging out sends no request |
| Session.AuthenticatedIgnoresToken | hooks/use-auth.tsx:109 | `isAuthenticated` depends on the user alone, never on the token |
| Session.LoginFailureWritesNothing | hooks/use-auth.tsx:61-88 | a rejected post keeps user and token and ends with loading false; a 401 lets the interceptor clear storage and cookie and force a reload, any other failure leaves storage, cookie and location as they were |
| Session.LoginPersistsToken | hooks/use-auth.tsx:52-81 | a successful post writes the token to storage and to a 604800-second cookie on `/`, even when the profile fetch failed and logged out |
| Session.LoginThenRequestsCarryToken | hooks/use-auth.tsx:74 | after a login with a non-empty token, every later request carries `Bearer ` + that token |
| Session.ProfileHeaderFollowsStorage | hooks/use-auth.tsx:46-50 | during login the request interceptor replaces the header `fetchUserData` sets with the previously stored token |
| Session.FailedProfileStillPassesGuard | hooks/use-auth.tsx:52-80 | after a failed profile fetch, the cookie written by login lets the guard pass protected pages with no user signed in |
| Session.RejectedProfileSurvivesReload | hooks/use-auth.tsx:71-80 | a 401 on the profile during login forces a reload, yet the token is written back, so the next mount adopts it again |
| Session.ExpiredSessionNextInitSeesNoToken | lib/api.ts:41-47 | after the response interceptor ends a session, the next mount finds no token and the guard sends protected pages to `/login` |
| Session.TransitionsKeepInStep | hooks/use-auth.tsx:32-100 | logout, the profile fetch, the mount effect and login each keep the stored token and the cookie in lockstep |
| LoginPage.LoginFormErrors | app/login/page.tsx:17-24 | the form is valid exactly when the email passes and the password has six or more characters; each message appears exactly when its rule fails |
| LoginPage.ShortPasswordsRejected | app/login/page.tsx:19-21 | a password of fewer than six characters gets the length message, when they are all in the BMP or there are fewer than three |
| LoginPage.LoginErrorMessage | app/login/page.tsx:58-76 | 401 gives the credentials message, 404 the endpoint message, another status the server message or `Sunucu hatası: ` + status, no reply the connectivity message, a setup failure the generic one; never empty |
| LoginPage.UnauthorizedIgnoresBody | app/login/page.tsx:58-62 | two 401 replies show the same text whatever their bodies |
| LoginPage.StatusTextDistinguishes | app/login/page.tsx:65-69 | without a server message, equal texts for other statuses mean equal statuses |
| LoginPage.RedirectTarget | app/login/page.tsx:33-37 | the page redirects exactly when the session is authenticated and not loading, and only to `/dashboard` |
| LoginPage.SignedInVisitorRedirected | app/login/page.tsx:33-37 | a stored token whose profile loads on mount sends the visitor to `/dashboard` |
| LoginPage.ExpiredCookieBounces | app/login/page.tsx:33-37 | with the token stored but the cookie gone, the login page sends a session whose profile loads to `/dashboard`, while the middleware sends `/dashboard` without the cookie back to `/login` and lets `/login` through |
| LoginPage.ResolvedLoginLandsOnDashboard | app/login/page.tsx:52-53 | a resolved login with a non-empty token lands on `/dashboard`, which the guard lets through, with no error shown, whatever the profile fetch did |
| LoginPage.RejectedCredentialsReload | app/login/page.tsx:58-62 | a 401 on the login post sets the message, but the interceptor has already sent the browser to `/login` and cleared storage |
| LoginPage.LoginForm.constructor | app/login/page.tsx:29-30 | no error, not loading |
| LoginPage.LoginForm.OnSubmit | app/login/page.tsx:47-80 | the session evolves as `Submitted`, the error is `SubmitError` of the post, and loading ends false |
| ListSearch.SearchResult | app/services/page.tsx:102-117 | a blank query shows the whole list; no query shows more rows than the list has |
| ListSearch.SearchMembership | app/services/page.tsx:105-115 | with a non-blank query a row is shown exactly when it is in the list and matches the lower-cased query |
| ListSearch.SearchIsSubsequence | app/services/page.tsx:107-115 | the rows shown keep the list's order, and no row is added or repeated |
| ListSearch.SearchIgnoresQueryCase | app/services/page.tsx:106 | queries that differ only in letter case show the same rows |
| ListSearch.EmptyStateText | app/services/page.tsx:210-213 | an empty table shows a text, and only an empty one; the text is the search message exactly when the query box is non-empty or the page's own empty text is that message |
| ListSearch.BlankQueryOnEmptyList | app/services/page.tsx:103 | a query of spaces over an empty list shows the search message, though no search was applied |
| ListSearch.ListPage.constructor | app/services/page.tsx:61-66 | a mounted list page: nothing loaded, loading, no error, empty query, filter invariant holds |
| ListSearch.ListPage.Fetch | app/services/page.tsx:69-81 | a success replaces the list and reruns the filter; a failure sets the page's error and keeps the list; loading ends false |
| ListSearch.ListPage.Search | app/services/page.tsx:102-117 | typing sets the query and reruns the filter, nothing else changes |
| ServicesPage.Shown | app/services/page.tsx:102-117 | a blank query shows every service; every row shown is a fetched service |
| ServicesPage.ShownIff | app/services/page.tsx:107-115 | a non-blank query keeps a service exactly when the query, lower-cased, occurs in its id, lower-cased plate, brand, model or user name, or literally in its status name |
| ServicesPage.StatusNameIsCaseSensitive | app/services/page.tsx:113 | a status name without lower-case letters is never matched by a query holding a capital |
| ServicesPage.QueryIsNotTrimmed | app/services/page.tsx:103-106 | a query containing a space finds no service none of whose fields has a space |
| ServicesPage.EmptyState | app/services/page.tsx:210-213 | the empty table says "no search results" exactly when the query is non-empty |
| ServicesPage.NewServicesPage | app/services/page.tsx:60-81 | the page is mounted with the service predicate and its load error |
| ServicesPage.FetchStatuses | app/services/page.tsx:86-95 | the loading flag is raised and never lowered; a success yields the statuses and keeps the error; a failure sets the statuses error; list and query unchanged |
| ServicesPage.Mount | app/services/page.tsx:69-98 | with both helpers defined, the page ends loaded with no error exactly when both requests succeed; a failed service fetch shows its own error, a failed status fetch alone shows the statuses error |
| ServicesPage.MountAsWritten | app/services/page.tsx:89 | as written, no statuses are ever loaded and every mount ends with an error shown; when the services load, it is the statuses error, above the fetched list |
| ProductsPage.ShownIff | app/products/page.tsx:64-75 | a non-blank query keeps an item exactly when its lower-cased name, or its non-null lower-cased description, contains the lower-cased query |
| ProductsPage.ReplacedKeepsOthers | app/products/page.tsx:91-92 | replacing by id keeps every position's id, puts the update at positions of its id and leaves the others |
| ProductsPage.ReplacedIdempotent | app/products/page.tsx:91-92 | replacing twice equals replacing once |
| ProductsPage.ReplacedAbsentIsNoop | app/products/page.tsx:91-92 | an update for an id the list lacks changes nothing |
| ProductsPage.RemovedExactly | app/products/page.tsx:103 | after removal no item has the id; every other item keeps its count and order |
| ProductsPage.RemoveUndoesAdd | app/products/page.tsx:81-103 | removing the id of an appended item with a new id restores the list |
| ProductsPage.UpdateThenRemove | app/products/page.tsx:91-103 | removing an id after replacing it equals removing it directly |
| ProductsPage.CallbackFor | app/products/page.tsx:141 | the dialog calls `handleUpdateItem` exactly when an item is selected |
| ProductsPage.Page.constructor | app/products/page.tsx:34-42 | empty lists, loading, no error, no selection, dialog closed |
| ProductsPage.Page.FetchItems | app/products/page.tsx:45-59 | without a company id the list, loading flag and error stay as they were; otherwise the list is replaced or the error set, and loading ends false |
| ProductsPage.Page.Search | app/products/page.tsx:64-75 | typing sets the query and reruns the filter |
| ProductsPage.Page.HandleAddItem | app/products/page.tsx:81-84 | the item is appended at the end and the dialog closes |
| ProductsPage.Page.HandleEditItem | app/products/page.tsx:86-89 | the item is selected and the dialog opens; lists unchanged |
| ProductsPage.Page.HandleUpdateItem | app/products/page.tsx:91-95 | the list becomes `Replaced(old, updated)`; selection cleared, dialog closed |
| ProductsPage.Page.HandleDeleteItem | app/products/page.tsx:97-109 | nothing without a company id or confirmation; after success exactly the id's items are removed; on failure the list is kept and the error set |
| ProductsPage.Page.DeleteThroughClient | app/products/page.tsx:97-109 | the delete sent through the shared client: nothing without a company id or confirmation; otherwise the browser state is the interceptors' `Dispatch` of the delete, and a 401 both sets the page's delete error and logs the browser out to `/login` |
| ProductsPage.Page.OnFormSuccess | app/products/page.tsx:141 | with a selection the item replaces by id, otherwise it is appended; selection cleared, dialog closed |
| ProductsPage.EmptyState | app/products/page.tsx:180-184 | the empty table says "no search results" exactly when the query is non-empty |
| CustomersPage.ShownIff | app/customers/page.tsx:48-60 | a non-blank query keeps a customer exactly when the id or lower-cased name contains it; the phone is never searched |
| CustomersPage.DigitQueryFindsIdsOnly | app/customers/page.tsx:54-56 | a query with a digit matches a customer whose name has no digits only through the id |
| CustomersPage.EmptyState | app/customers/page.tsx:135-139 | the empty table says "no search results" exactly when the query is non-empty |
| CustomersPage.NewCustomersPage | app/customers/page.tsx:22-46 | the page is mounted with the customer predicate and its load error |
| VehiclesPage.ShownIff | app/vehicles/page.tsx:59-71 | a non-blank query keeps a vehicle exactly when its id or lower-cased plate contains it; brand, model and owner are not searched |
| VehiclesPage.ShownIsSubsequence | app/vehicles/page.tsx:64-70 | the filter keeps order and never adds a vehicle |
| VehiclesPage.LoadVehicles | app/vehicles/page.tsx:37-53 | both lists become the fixed two vehicles and loading ends false |
| VehiclesPage.NewVehiclesPage | app/vehicles/page.tsx:29-34 | the page is mounted with the vehicle predicate and its load error |
| SearchPage.Typed | app/search/page.tsx:72 | the plate box holds the upper-cased input, with no lower-case ASCII letter; nothing else changes |
| SearchPage.Lookup | app/search/page.tsx:26-32 | a blank plate makes no request; otherwise `GET /vehicles/` + the plate as typed |
| SearchPage.BlankPlate | app/search/page.tsx:26-29 | a blank plate only sets the prompt |
| SearchPage.Found | app/search/page.tsx:35-37 | a found vehicle is shown on the results tab with no error, and loading ends false |
| SearchPage.Failed | app/search/page.tsx:38-49 | a 404 offers registration; any other failure keeps the tab; either way results are cleared and loading ends false |
| SearchPage.RegisterThenFound | app/search/page.tsx:35-42 | a later successful lookup after a 404 returns to the results tab |
| SearchPage.Page.constructor | app/search/page.tsx:17-21 | the page starts in `Initial` |
| SearchPage.Page.OnChange | app/search/page.tsx:72 | the new state is `Typed` of the old |
| SearchPage.Page.HandleSearch | app/search/page.tsx:23-50 | the new state is `Searched` of the old, and the lookup made is `Lookup` of the plate |
| AddServiceForm.IdText | components/add-service-form.tsx:88 | a text id is shown as is; every numeric id, negative ones included, reads back through `Number` as itself |
| AddServiceForm.ExtractStatusData | components/add-service-form.tsx:154-165 | the first array among `response.data`, `response.data.data`, `response` is returned, else `[]` |
| AddServiceForm.ExtractUnwrapsEveryEnvelope | components/add-service-form.tsx:154-165 | an array wrapped in none, one or two `data` envelopes is found |
| AddServiceForm.Capped | components/add-service-form.tsx:142 | at most the first seven statuses are kept, in order |
| AddServiceForm.StatusesAfter | components/add-service-form.tsx:137-177 | a success shows the capped extracted statuses; any failure shows exactly the seven defaults in order |
| AddServiceForm.StatusesAsWritten | components/add-service-form.tsx:140 | as written the status fetch calls an undefined helper, so the form always shows the defaults |
| AddServiceForm.StatusesFromServer | components/add-service-form.tsx:140-142 | a server list of seven or fewer statuses is shown unchanged |
| AddServiceForm.PickerAfter | components/add-service-form.tsx:219-234 | the picker shows the search reply's list, or `[]` when the reply is empty, short or failed |
| AddServiceForm.PlateSearchCall | components/add-service-form.tsx:220-223 | a request is made exactly when the search has three or more UTF-16 units, and it is `GET /vehicles/` + search |
| AddServiceForm.SelectedVehicle | components/add-service-form.tsx:92 | the first picker entry whose id text is the chosen value, or none when no entry has it |
| AddServiceForm.Submit | components/add-service-form.tsx:81-120 | a vehicle not in the picker gives the "vehicle not found" toast and no request; otherwise the service is posted under its plate and the toast is success or the error's message (fallback when empty); the payload is the values through `Number` |
| AddServiceForm.PostedVehicleMatchesPayload | components/add-service-form.tsx:84-97 | the payload's `vehicle_id` is the id of the vehicle whose plate is posted to, for every integer id |
| AddServiceForm.DefaultStatusIsNaN | components/add-service-form.tsx:88 | with the default status "pending" the payload's `status_id` is NaN |
| AddServiceForm.EmptyPickerRefuses | components/add-service-form.tsx:92-95 | with an empty picker every submission is refused without a request |
| AddServiceForm.ColorClass | components/add-service-form.tsx:365-370 | a selected status uses its colour's class or the gray fallback; an unselected one the white class |
| AddServiceForm.DefaultsHaveColors | components/add-service-form.tsx:61-67 | every default status's colour has an entry in the colour map |
| AddServiceForm.Form.constructor | components/add-service-form.tsx:70-79 | no statuses, empty picker, not loading, default values |
| AddServiceForm.Form.FetchStatuses | components/add-service-form.tsx:137-149 | statuses become `StatusesAfter` of the settlement and loading ends false |
| AddServiceForm.Form.OnSearchChange | components/add-service-form.tsx:219-234 | the request is `PlateSearchCall` and the picker `PickerAfter`; loading ends false when a request ran |
| AddServiceForm.Form.HandleCreateService | components/add-service-form.tsx:81-120 | the result is `Submit` on the picker; the form resets after a success; loading ends false |
| AddServiceItemForm.DefaultsNeedAPrice | components/add-service-item-form.tsx:15-53 | the default values fail the schema until a price is given |
| AddServiceItemForm.Fetched | components/add-service-item-form.tsx:56-70 | without a company id nothing changes; otherwise the items are set or the load error shown |
| AddServiceItemForm.FetchCall | components/add-service-item-form.tsx:58-62 | items are requested exactly when the user has a company id, from that company |
| AddServiceItemForm.ItemFor | components/add-service-item-form.tsx:79-82 | the first item whose id text equals the value, or none when no item has it |
| AddServiceItemForm.Picked | components/add-service-item-form.tsx:73-82 | picking selects `ItemFor`; the price takes the item's default price exactly when the selection changed to an item |
| AddServiceItemForm.PickingShowsPrice | components/add-service-item-form.tsx:73-77 | picking a listed item that was not selected shows its default price |
| AddServiceItemForm.Submitted | components/add-service-item-form.tsx:84-116 | success clears the error and resets the fields; failure shows the server message or the fallback; loading ends false; the selection is kept |
| AddServiceItemForm.Reported | components/add-service-item-form.tsx:97-107 | `onSuccess` is called exactly after a success with a callback and a selection, with the selected item's id, name, description and the submitted quantity and price |
| AddServiceItemForm.ResetKeepsStaleSelection | components/add-service-item-form.tsx:97-109 | after a reset, a second submission with a price typed again passes validation, posts a NaN item id and reports the previously selected item |
| AddServiceItemForm.SamePickAfterResetKeepsEmptyPrice | components/add-service-item-form.tsx:73-109 | after a reset, picking the same item again leaves the price empty |
| AddServiceItemForm.Form.constructor | components/add-service-item-form.tsx:40-53 | the initial state, for the given plate and service |
| AddServiceItemForm.Form.FetchItems | components/add-service-item-form.tsx:56-70 | the new state is `Fetched` of the old and the request is `FetchCall` |
| AddServiceItemForm.Form.OnItemChange | components/add-service-item-form.tsx:73-82 | the new state is `Picked` of the old |
| AddServiceItemForm.Form.OnSubmit | components/add-service-item-form.tsx:84-116 | the new state is `Submitted`, the report `Reported`, the request `services.addItem` of the form's service, and the body the values through `parseInt` |
| ProductForm.Defaults | components/product-form.tsx:45-53 | edited values come from the item (absent description reads ""), the type is "service" exactly when the description contains "Hizmet"; a new item starts empty |
| ProductForm.NewFormIsIncomplete | components/product-form.tsx:16-53 | a new item's form fails the schema |
| ProductForm.BodyOf | components/product-form.tsx:65-70 | the body carries the company and name; an empty or absent description is sent as null, any other as typed |
| ProductForm.KindIsNeverSent | components/product-form.tsx:65-70 | the chosen type never reaches the body |
| ProductForm.UntouchedEditRoundTrip | components/product-form.tsx:45-70 | saving an untouched edit sends the item's name and description back, an empty description as null |
| ProductForm.SaveCall | components/product-form.tsx:74-80 | with an edited item the form updates it by id, otherwise it creates |
| ProductForm.SaveCallPaths | components/product-form.tsx:74-80 | create posts to `/companies/{c}/items`; update puts to `/companies/{c}/items/{id}` |
| ProductForm.Submitted | components/product-form.tsx:55-91 | without a company the "no company" error is set and nothing else changes; otherwise the error is cleared or set to the server message or the fallback, and loading ends false |
| ProductForm.SubmissionOf | components/product-form.tsx:55-91 | without a company no request; otherwise `SaveCall` with `BodyOf`; `onSuccess` receives the reply's item exactly after a success with a callback |
| ProductForm.Form.constructor | components/product-form.tsx:40-53 | values are `Defaults` of the edited item; no error, not loading |
| ProductForm.Form.OnSubmit | components/product-form.tsx:55-91 | the new state is `Submitted` and the result `SubmissionOf` |
| AddVehicleForm.OwnerOptions | components/add-vehicle-form.tsx:49 | owners are projected to id and name, one for one, in order |
| AddVehicleForm.OptionsComeFromOwners | components/add-vehicle-form.tsx:49 | an option is offered exactly when some fetched owner has its id and name |
| AddVehicleForm.Defaults | components/add-vehicle-form.tsx:60-68 | edited values come from the vehicle, the owner id as its decimal text (0 reads ""); a new vehicle starts empty |
| AddVehicleForm.UntouchedEditRoundTrip | components/add-vehicle-form.tsx:62-96 | saving an untouched edit sends the vehicle back with its owner id; an owner id of 0 must be chosen again |
| AddVehicleForm.SaveFor | components/add-vehicle-form.tsx:80-96 | with an edited vehicle the form updates it by id, otherwise it creates |
| AddVehicleForm.OwnersFetched | components/add-vehicle-form.tsx:45-57 | a success shows the projected owners; a failure shows the owners load error |
| AddVehicleForm.Submitted | components/add-vehicle-form.tsx:70-107 | without a company the "no company" error is set; otherwise the error is cleared or set to the server message or the fallback, and loading ends false |
| AddVehicleForm.SubmissionOf | components/add-vehicle-form.tsx:70-107 | without a company no request; otherwise `SaveFor` with the body; `onSuccess` receives the reply exactly after a success with a callback |
| AddVehicleForm.SaveAsWrittenAlwaysFails | components/add-vehicle-form.tsx:80-96 | as written every save with a company calls an undefined helper, shows the fallback message and never reaches `onSuccess` |
| AddVehicleForm.Form.constructor | components/add-vehicle-form.tsx:39-68 | values are `Defaults` of the edited vehicle; no owners, no error, not loading |
| AddVehicleForm.Form.FetchOwners | components/add-vehicle-form.tsx:45-57 | the new state is `OwnersFetched` of the old |
| AddVehicleForm.Form.OnSubmit | components/add-vehicle-form.tsx:70-107 | the new state is `Submitted` and the result `SubmissionOf` |
| VehicleRegistrationForm.EmptyEmailAccepted | components/vehicle-registration-form.tsx:56-62 | an empty or absent email never blocks the form |
| VehicleRegistrationForm.ModelsFor | components/vehicle-registration-form.tsx:102-109 | no brand selected gives no models; any models offered are those of a brand whose id text is the selection |
| VehicleRegistrationForm.PickedBrandOffersItsModels | components/vehicle-registration-form.tsx:102-109 | with distinct brand ids, picking a brand offers exactly its models |
| VehicleRegistrationForm.UnknownBrandOffersNothing | components/vehicle-registration-form.tsx:104-107 | a selection no brand carries offers no models |
| VehicleRegistrationForm.OwnerBodyOf | components/vehicle-registration-form.tsx:118-122 | name and phone as typed; an empty or absent email is sent as null |
| VehicleRegistrationForm.Submitted | components/vehicle-registration-form.tsx:111-143 | success sets the success message; failure the server message or the fallback; loading ends false; brands and models are kept |
| VehicleRegistrationForm.SubmissionOf | components/vehicle-registration-form.tsx:118-136 | the owner is created; the page redirects exactly after a success, to `/vehicles/` + plate |
| VehicleRegistrationForm.RedirectMatchesLookup | components/vehicle-registration-form.tsx:131-136 | the redirect path is the path the vehicle lookup requests for the same plate |
| VehicleRegistrationForm.Form.constructor | components/vehicle-registration-form.tsx:65-87 | no brands, no selection, no models, no messages, not loading |
| VehicleRegistrationForm.Form.FetchBrands | components/vehicle-registration-form.tsx:89-100 | a success sets the brands and re-derives the models; a failure changes nothing |
| VehicleRegistrationForm.Form.SelectBrand | components/vehicle-registration-form.tsx:102-109 | the selection is set and the models re-derived |
| VehicleRegistrationForm.Form.OnSubmit | components/vehicle-registration-form.tsx:111-143 | the new state is `Submitted` and the result `SubmissionOf` |
| VehicleDetails.FieldInit | components/vehicle-details.tsx:23-29 | a truthy value is kept; null, undefined, 0 and "" become "" |
| VehicleDetails.FieldInitIdempotent | components/vehicle-details.tsx:38-50 | initialising a value twice gives the same as once, and null, undefined, 0 and "" all show as an empty box |
| VehicleDetails.Initial | components/vehicle-details.tsx:23-36 | each editable field is `FieldInit` of the vehicle's field; lists empty; nothing selected; not loading |
| VehicleDetails.BrandById | components/vehicle-details.tsx:91 | the first brand whose id text is the selection, or none |
| VehicleDetails.ModelById | components/vehicle-details.tsx:94 | the first model whose id text is the selection, or none |
| VehicleDetails.Reconciled | components/vehicle-details.tsx:89-104 | no brand gives no models and no model; an unknown brand gives no models and keeps the model selection; a found brand gives its models and clears a model it lacks when it has models |
| VehicleDetails.ReconciledIdempotent | components/vehicle-details.tsx:89-104 | reconciling twice equals reconciling once |
| VehicleDetails.KeptModelBelongsToBrand | components/vehicle-details.tsx:92-99 | a model kept after reconciling belongs to the selected brand's models |
| VehicleDetails.Preselected | components/vehicle-details.tsx:57-64 | only the brand selection, the model list and the model selection change |
| VehicleDetails.BrandsFetched | components/vehicle-details.tsx:52-71 | a failure changes nothing; a success sets the brands |
| VehicleDetails.VehicleBrandAndModelSelected | components/vehicle-details.tsx:57-64 | with distinct brand ids, the vehicle's brand and model (first name matches) end selected with the brand's models |
| VehicleDetails.FuelTypesFetched | components/vehicle-details.tsx:73-87 | a failure changes nothing; a success sets the fuel types and selects a fuel only when one has the vehicle's fuel name |
| VehicleDetails.FuelTypesAsWritten | components/vehicle-details.tsx:76 | as written the fuel fetch calls an undefined helper: no fuel types are ever loaded and none is selected |
| VehicleDetails.ModelName | components/vehicle-details.tsx:121-124 | the selected model's non-empty name, else the vehicle's old model |
| VehicleDetails.BrandName | components/vehicle-details.tsx:125-127 | the selected brand's non-empty name, else the vehicle's old brand |
| VehicleDetails.Merged | components/vehicle-details.tsx:118-128 | the response data overrides the vehicle; `fuel_type`, `vehicle_model` and `brand` are then overridden by the selections; every other key keeps the later source's value |
| VehicleDetails.NoSelectionKeepsNames | components/vehicle-details.tsx:118-128 | with nothing selected, the old model and brand names survive and the fuel type becomes "" |
| VehicleDetails.Saved | components/vehicle-details.tsx:106-143 | a success passes the merged record on; a failure shows the error and passes nothing on |
| VehicleDetails.SaveAsWrittenAlwaysFails | components/vehicle-details.tsx:109 | as written the save calls an undefined helper, so it always fails and never updates the vehicle |
| VehicleDetails.Refilled | components/vehicle-details.tsx:38-50 | the field effect: the five boxes show the record's values as on the first render, whatever was typed; every other part of the panel is kept |
| VehicleDetails.PropChangeDiscardsTyping | components/vehicle-details.tsx:38-50 | when the vehicle prop changes any of mileage, vin, year, engine capacity or weight, all five boxes show the new record's values, and what was typed is lost |
| VehicleDetails.OtherPropChangesKeepTyping | components/vehicle-details.tsx:38-87 | a prop change that leaves the five editable fields alone keeps the typed values; one that also keeps brand, model and fuel type changes nothing |
| VehicleDetails.Panel.constructor | components/vehicle-details.tsx:23-50 | the panel starts as `Reconciled(Initial(vehicle))` |
| VehicleDetails.Panel.Refill | components/vehicle-details.tsx:38-50 | the new state is `Refilled` of the old for the current record; the record is kept |
| VehicleDetails.Panel.VehicleChanged | components/vehicle-details.tsx:38-87 | the prop becomes the new record, and the state is `PropChanged`: each of the field, brand and fuel effects re-runs exactly when one of its keys changed |
| VehicleDetails.Panel.Reconcile | components/vehicle-details.tsx:89-104 | the new state is `Reconciled` of the old |
| VehicleDetails.Panel.FetchBrands | components/vehicle-details.tsx:52-71 | the new state is `BrandsFetched` of the old |
| VehicleDetails.Panel.FetchFuelTypes | components/vehicle-details.tsx:73-87 | the new state is `FuelTypesFetched` of the old |
| VehicleDetails.Panel.SelectBrand | components/vehicle-details.tsx:151 | the brand is set and the state reconciled |
| VehicleDetails.Panel.SelectModel | components/vehicle-details.tsx:166 | only the model selection changes |
| VehicleDetails.Panel.SelectFuelType | components/vehicle-details.tsx:181 | only the fuel selection changes |
| VehicleDetails.Panel.Edit | components/vehicle-details.tsx:199-239 | typing into a field sets exactly that field |
| VehicleDetails.Panel.HandleSave | components/vehicle-details.tsx:106-143 | the result is `Saved` of the state, and only loading changes (to false) |
| NewServiceForm.Submitted | components/new-service-form.tsx:28-48 | the error is cleared exactly on a 201; another status sets the fixed message; a failure sets the server message or the fallback; loading ends false |
| NewServiceForm.OnlyCreatedSucceeds | components/new-service-form.tsx:37-44 | any non-201 status reads like a failure without a server message |
| NewServiceForm.Form.constructor | components/new-service-form.tsx:22-25 | a date is set, the description empty, no error, not loading |
| NewServiceForm.Form.SetDate | components/new-service-form.tsx:69 | picking a day sets the date, clicking it again clears it; nothing else changes |
| NewServiceForm.Form.SetDescription | components/new-service-form.tsx:75 | the description becomes the typed text; nothing else changes |
| NewServiceForm.Form.HandleSubmit | components/new-service-form.tsx:28-48 | the new state is `Submitted`; the service is posted under the plate with exactly the date flag and description; `onSuccess` runs exactly on a 201 |
| AppSidebar.Render | components/app-sidebar.tsx:25-105 | nothing is rendered exactly on `/login`; the five entries come in fixed order, each active by prefix; logout is shown exactly when authenticated; the user block exactly when authenticated with a user |
| AppSidebar.ActiveBelowSection | components/app-sidebar.tsx:29 | a section stays active on every path below it |
| AppSidebar.ActiveRoutesNest | components/app-sidebar.tsx:29 | two active routes are prefixes of one another |
| AppSidebar.AtMostOneActive | components/app-sidebar.tsx:29-85 | no path makes two menu entries active |
| AppSidebar.SignedOutFooter | components/app-sidebar.tsx:91-105 | signed out, the footer shows neither logout nor user |
| ApiDebug.ResultOf | components/api-debug.tsx:25-49 | success is exactly an `Ok` reply; the failure text is the base plus the status, the no-reply part or the error message, by that precedence |
| ApiDebug.FailuresStartWithBase | components/api-debug.tsx:33-44 | every failure text starts with the base message |
| ApiDebug.StatusIsRecoverable | components/api-debug.tsx:35-37 | equal texts for two status failures mean equal statuses |
| ApiDebug.Panel.constructor | components/api-debug.tsx:9-12 | hidden, no URL, no result, not loading |
| ApiDebug.Panel.ReadApiUrl | components/api-debug.tsx:14-17 | the configured URL when truthy, else the default |
| ApiDebug.Panel.Show | components/api-debug.tsx:58 | the panel becomes visible; nothing else changes |
| ApiDebug.Panel.Hide | components/api-debug.tsx:80 | the panel becomes hidden; nothing else changes |
| ApiDebug.Panel.TestConnection | components/api-debug.tsx:19-53 | `GET /` is requested, the result is `ResultOf` the reply, loading ends false |
| Common.ServerMessageOr | components/add-service-item-form.tsx:112 | the server's non-empty message when the reply carries one, else the fallback |
| Common.TrimStartShape | app/services/page.tsx:103 | what `trimStart` removes is blank and what remains starts with a non-space |
| Common.TrimEndShape | app/services/page.tsx:103 | what `trimEnd` removes is blank and what remains ends with a non-space |
| Common.TrimEmptyIffBlank | app/services/page.tsx:103 | `trim()` is "" exactly when every character is white space |
| Common.IncludesAt | app/services/page.tsx:109-114 | `includes` holds exactly when the needle occurs at some index |
| Common.ToLowerIdempotent | app/services/page.tsx:106 | lower-casing twice equals lower-casing once |
| Common.CaseKeepsBlankness | app/services/page.tsx:103-106 | case mapping neither creates nor removes blankness |
| Common.JsLengthBounds | app/login/page.tsx:17-24 | the UTF-16 length lies between the code-point count and twice it |
| Common.IntToStringInjective | components/add-service-item-form.tsx:80 | different ids have different decimal texts |
| Common.ParseInt | components/add-service-item-form.tsx:89-93 | `parseInt` yields a number exactly when a digit follows the leading white space and optional sign |
| Common.ParseIntOfIntToString | components/add-vehicle-form.tsx:66-93 | `parseInt(String(n))` gives `n` back |
| Common.NumberValueOfNatToString | components/add-service-form.tsx:85 | `Number(String(n))` gives `n` back for natural numbers |
| Common.NumberValueOfIntToString | components/add-service-form.tsx:85 | `Number(String(n))` gives `n` back for every integer, negative ones included |
| Common.NonNumericStartIsNaN | components/add-service-form.tsx:88 | text starting with anything but white space, a sign or a digit is NaN |
| Common.FilterMembership | app/services/page.tsx:107-115 | `filter` keeps an element exactly when it is in the input and satisfies the predicate |
| Common.FilterCount | app/services/page.tsx:107-115 | each value is kept as often as it occurs, or not at all |
| Common.FilterIsSubsequence | app/services/page.tsx:107-115 | `filter` keeps the input's order |
| Common.FindIsFirst | components/add-service-form.tsx:92 | `find` returns the first satisfying element, and none exactly when no element satisfies |

## Left out

- Rendering: JSX, styling classes other than the status toggle colours, icons, dialogs, toasts, and the reports page's chart and figures. These are presentation only.
- Transport: axios, the base URL from the environment (taken as a parameter in `ApiDebug.Panel.ReadApiUrl`), `setTimeout`, `router.refresh`, and the scheduling of React effects. Each effect is modelled as running to completion when its trigger changes. Interleavings of concurrent fetches are not modelled.
- Request bodies: the `/login` credentials body is not part of `Api.Request`. The model keeps only the route, the Authorization header and the `_retry` marker.
- Lower- and upper-casing: ASCII only (`A`–`Z` ↔ `a`–`z`). Other characters are left unchanged; Unicode case mapping is not modelled.
- Number parsing: `Number` and `parseInt` are modelled on decimal integers only. `None` stands for NaN and also for forms not modelled: fractions, exponents and `Infinity`. For `parseInt`, a `0x` prefix reads as its leading `0`, so hexadecimal text reads as 0. Integers are exact at any size: the loss of precision above 2^53, and `toString`'s switch to exponent form from 1e21, are not modelled. `parseFloat` prices are not modelled, so they are absent from the bodies.
- Date formatting: dayjs and date-fns are not modelled. A date is only present or absent.
- Email validation: the validation library's email check is a parameter (`isEmail`).
- The middleware matcher: a regular expression. It is modelled as a predicate over the path's first characters and its `.svg` occurrence. Line terminators inside a path are not modelled.
- `Api.Browser.Send`: the thrown `TypeError`'s text for an undefined helper is not modelled. Only the fact that the call fails before any request is kept.
- `VehicleDetails.Merged`: states the keys and values of the merged record, not their order.
- `AddServiceForm.ColorClass`: keys inherited from `Object.prototype` are not considered.
- The add-service form's `fetchCustomers`: it is never called, so it is not modelled.
- `ServicesPage.Mount`: the two mount requests settle in a fixed order, statuses first. When both fail, the services error is the one shown; the other order is not modelled.
- `ListSearch.ListPage.Fetch`, `ProductsPage.Page.FetchItems`, `ProductsPage.Page.HandleDeleteItem`, each form's `OnSubmit`/`HandleSubmit` and `ApiDebug.Panel.TestConnection` take the settled reply only. Their requests are not passed through `Api.Dispatch`, so what a 401 does to the stored token, the cookie and the location is stated for `ProductsPage.Page.DeleteThroughClient` and the session store only.
- Cookie expiry: there is no clock, so the cookie's 604800-second max-age never elapses in the model. Every modelled transition keeps storage and cookie in lockstep (`Api.InStep`). A stored token whose cookie has expired is outside it, and `LoginPage.ExpiredCookieBounces` states the redirect loop that state leads to.
- `VehicleRegistrationForm.Submitted`: a resolved reply that lacks `data.data` is not a case of `Outcome<int>`. In the source it throws on `.id` and shows `RegisterFailed`; a caller passes it as a `SetupError`, which gives the same state.
- `AddServiceItemForm.Picked`: the price effect compares the selection by value, while React compares the selected object by identity. After a refetch, picking the same id again re-runs the effect in the source but not in the model.
- The dashboard and the reports page: figures and floating-point arithmetic, not modelled.
- The thin wrappers (owner forms, the new-vehicle page, the layout and the error pages) and the constant display tables are not part of this model.

## Findings

| source | as written | input that shows it | evidently intended | confidence | as-written member | corrected member |
|---|---|---|---|---|---|---|
| components/add-service-form.tsx:140 | `apiService.servicesStatuses.getAll()` is called, but `apiService` has no `servicesStatuses` member, so the call throws before any request | any mount of the form | fetch the service statuses and show up to seven of them | not executed | AddServiceForm.StatusesAsWritten | AddServiceForm.Form.FetchStatuses |
| components/add-vehicle-form.tsx:80-96 | `apiService.vehicles.update` and `apiService.vehicles.create` are called, but neither is defined, so every save fails with the fallback message | any submission by a user with a company | create or update the vehicle and report it through `onSuccess` | not executed | AddVehicleForm.SaveAsWrittenAlwaysFails | AddVehicleForm.Form.OnSubmit |
| components/vehicle-details.tsx:76 | `apiService.fuelTypes.getAll()` is called, but `fuelTypes` is not defined, so no fuel type is ever loaded or preselected | any vehicle whose `fuel_type` names an existing fuel type | load the fuel types and preselect the vehicle's | not executed | VehicleDetails.FuelTypesAsWritten | VehicleDetails.Panel.FetchFuelTypes |
| components/vehicle-details.tsx:109 | `apiService.vehicles.update` is called, but it is not defined, so every save shows the error toast | any press of the save button | save the vehicle and pass the merged record to `onVehicleUpdate` | not executed | VehicleDetails.SaveAsWrittenAlwaysFails | VehicleDetails.Panel.HandleSave |
| app/services/page.tsx:89 | `apiService.servicesStatuses.getAll()` is called, but `servicesStatuses` is not defined, so the status fetch throws on every mount and sets the statuses error; the alert shows above a list that loaded fine | any mount of the services page | fetch the statuses for the status badges and show no error when both requests succeed | not executed | ServicesPage.MountAsWritten | ServicesPage.Mount |
