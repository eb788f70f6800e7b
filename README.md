# MarketStud client core, in Dafny

MarketStud is an iOS marketplace client: users sign in, browse and filter
items page by page, look at their own items, and create or edit items with
a photo. This project models the logic under the screens:

- **Credential state** (`AppState`): the bearer token, its expiry, the login
  credentials and the user id of `UserDefaultAppState`, cached in memory and
  mirrored into a key-value store. The token expires lazily, when it is read.
- **The API client** (`ApiClient`): how `MIAPIClient` decides whether a
  request needs the token, which headers and body it carries, when an
  `AuthResponse` is committed, how a 401 leads to a fresh login and a retry,
  and the separate paths of `downloadData` and `uploadPhoto`. The transport
  is a finite script of replies and a log of the requests sent, and a fetch
  whose script runs out is left pending. Retries are modelled in the
  corrected lock order: as written, the client blocks on its own lock at
  the first retry after a successful re-login (see Findings), so the
  unbounded retry lemmas describe the evidently intended behaviour.
- **The lock order** (`ClientLock`): the sequence of `NSLock` operations
  of a request that is retried, as written and corrected.
- **The endpoint catalogue** (`Endpoints`) and **query building**
  (`FilterModel`, `Decimal`): URLs, methods, headers and token needs of
  every endpoint, `SearchFilter.toQuery()`, and the decimal text of ids,
  with read-back lemmas.
- **Value rules** (`Statuses`, `Locations`, `Categories`, `Items`,
  `ItemLookup`): identity by id, the database record mapping both ways, and
  the DTO-to-item mapping the presenters perform by id look-ups.
- **Screens**: the pagination of the main page (`MainPage`) and the profile
  (`Profile`), sharing one pager state machine (`Paging`); the filter screen
  (`FilterScreen`); the create-item presenter (`CreateItemScreen`), its
  service (`CreateItemService`) and its form (`CreateItemView`); the
  cache-first look-up lists of `MainPageService`.

Each class mirrors the fields of its Swift counterpart. Where the source
changes state in place, the model is a class whose methods are proved to
take its state, read as a datatype, to what a pure step function gives;
the step functions carry the lemmas. Calls a presenter makes on its view are
appended to an `events` field, and requests it asks of its service to a
`requests` field. An asynchronous completion handler is a method of its
own, called when the reply arrives.

The clock (`Date.now`) is an integer field advanced by `Tick`. The replies
of the server, the image data a photo yields, and the values the user types
are parameters.

## Model

| member | source | states |
|---|---|---|
| Decimal.IntToString | MarketStud/MainPage/Classes/Core/Structs/FilterModel.swift:17-19 | the decimal text of an id is non-empty, signed exactly when the id is negative, and otherwise all digits |
| Decimal.ParseInt | MarketStud/MainPage/Classes/Core/Structs/FilterModel.swift:17-19 | reads an optional sign and digits back to an id; the inverse of the decimal text, see ParseIntToString |
| Decimal.ParseIntToString | MarketStud/Common/Classes/APIClient/APIEndpoint.swift:121 | the decimal text of any id reads back as that id |
| Decimal.IntToStringInjective | MarketStud/Common/Classes/APIClient/APIEndpoint.swift:148-150 | two ids have the same decimal text exactly when they are equal |
| Decimal.IntToStringHasNoAmpersand | MarketStud/MainPage/Classes/Core/Structs/FilterModel.swift:17-19 | an id's text never contains the query separator `&` |
| Http.Add | MarketStud/Common/Classes/APIClient/APIClient.swift:43-46 | adding a header puts it in the list, replaces a header of the same name, keeps every other header, and appends when the name is new |
| Http.Bearer | MarketStud/Common/Classes/APIClient/APIClient.swift:45 | the Authorization header with the bearer token; see BearerIffRequiredAndPresent |
| Lists.SortBy | MarketStud/MainPage/Classes/Core/Services/MainPageService.swift:42-58 | the sorted list is ordered by key and holds the same elements (a permutation) |
| Lists.FirstWith | MarketStud/MainPage/Classes/UserStories/MainPageModule/MainPagePresenter.swift:37 | a hit is the first element of the list with the key asked for; a miss means no element has it |
| Lists.FirstWithFindsMember | MarketStud/MainPage/Classes/UserStories/MainPageModule/MainPagePresenter.swift:37-41 | with distinct keys, looking up an element's key finds that element |
| Lists.RemoveAll | MarketStud/CreateItem/Classes/UserStories/CreateItemModule/CreateItemView.swift:370 | the result holds exactly the elements that are not the one removed, in order |
| Lists.RemoveAllDistinct | MarketStud/CreateItem/Classes/UserStories/CreateItemModule/CreateItemView.swift:367-377 | removing keeps a duplicate-free selection duplicate-free |
| Lists.RemoveAllAbsent | MarketStud/CreateItem/Classes/UserStories/CreateItemModule/CreateItemView.swift:375 | removing an absent element changes nothing |
| Lists.KeepKeys | MarketStud/CreateItem/Classes/UserStories/CreateItemModule/CreateItemView.swift:245-247 | `filter` keeps exactly the elements whose key is selected, and is no longer than the list |
| Lists.KeepKeysCounts | MarketStud/CreateItem/Classes/UserStories/CreateItemModule/CreateItemView.swift:245-247 | the filter keeps each selected element as often as the list holds it, and no other |
| Lists.KeepKeysAppend | MarketStud/CreateItem/Classes/UserStories/CreateItemModule/CreateItemView.swift:245-247 | filtering a concatenation filters each part and keeps their order |
| Lists.KeepAllKeys | MarketStud/CreateItem/Classes/UserStories/CreateItemModule/CreateItemView.swift:245-247 | selecting every key keeps the list whole and in order |
| Lists.KeysAppend | MarketStud/CreateItem/Classes/UserStories/CreateItemModule/CreateItemView.swift:293-296 | `map(\.id)` of a concatenation is the concatenation of the keys; one key per element |
| Lists.WithSentinel | MarketStud/CreateItem/Classes/UserStories/CreateItemModule/CreateItemPresenter.swift:59-61 | the list plus the "not chosen" entry, ordered by key, one longer, the same elements plus the entry |
| Statuses.AsQueryItem | MarketStud/MainPage/Classes/Core/Structs/Status.swift:15-18 | no query item exactly for id -1; otherwise `status=` and the decimal id |
| Statuses.EqualIgnoresDescription | MarketStud/MainPage/Classes/Core/Structs/Status.swift:20-22 | `==` compares ids only: equal exactly when the values differ at most in their description |
| Statuses.EqualConsistentWithHash | MarketStud/MainPage/Classes/Core/Structs/Status.swift:20-26 | `==` is an equivalence and equal values hash alike, as `Hashable` requires |
| Statuses.DBRoundTrip | MarketStud/MainPage/Classes/Core/Structs/Status.swift:38-47 | storing a status and reading it back gives the status |
| Statuses.DBRoundTripBack | MarketStud/MainPage/Classes/Core/Structs/Status.swift:38-47 | reading a record and storing it back gives the record exactly when its description was set |
| Locations.AsQueryItem | MarketStud/MainPage/Classes/Core/Structs/Location.swift:15-18 | no query item exactly for id -1; otherwise `locationId=` and the decimal id |
| Locations.EqualIgnoresDescription | MarketStud/MainPage/Classes/Core/Structs/Location.swift:20-22 | equal exactly when the values differ at most in their description |
| Locations.EqualConsistentWithHash | MarketStud/MainPage/Classes/Core/Structs/Location.swift:20-26 | `==` is an equivalence and equal values hash alike |
| Locations.DBRoundTrip | MarketStud/MainPage/Classes/Core/Structs/Location.swift:38-47 | storing a location and reading it back gives the location |
| Locations.DBRoundTripBack | MarketStud/MainPage/Classes/Core/Structs/Location.swift:38-47 | reading a record and storing it back gives the record exactly when its description was set |
| Categories.AsQueryItem | MarketStud/MainPage/Classes/Core/Structs/Category.swift:15-18 | no query item exactly for id -1; otherwise `categoryId=` and the decimal id |
| Categories.EqualIgnoresDescription | MarketStud/MainPage/Classes/Core/Structs/Category.swift:20-22 | equal exactly when the values differ at most in their description |
| Categories.EqualConsistentWithHash | MarketStud/MainPage/Classes/Core/Structs/Category.swift:20-26 | `==` is an equivalence and equal values hash alike |
| Categories.DBRoundTrip | MarketStud/MainPage/Classes/Core/Structs/Category.swift:38-48 | storing a category and reading it back gives the category |
| Categories.DBRoundTripBack | MarketStud/MainPage/Classes/Core/Structs/Category.swift:38-48 | reading a record and storing it back gives the record exactly when its description was set |
| Items.EqualIsIdentity | MarketStud/MainPage/Classes/Core/Structs/Item.swift:36-42 | `==` compares ids only: items are equal exactly when they differ at most in their other fields; equal items hash alike |
| Items.DBRoundTrip | MarketStud/MainPage/Classes/Core/Structs/Item.swift:59-82 | storing an item and reading it back gives the item without its categories |
| FilterModel.ToQuery | MarketStud/MainPage/Classes/Core/Structs/FilterModel.swift:14-21 | the four conditional `+=` steps build exactly the query: the name part, then one `&key=id` part per chosen category, location and seller |
| FilterModel.QuerySplits | MarketStud/MainPage/Classes/Core/Structs/FilterModel.swift:14-21 | the query is the name part followed by the id parts |
| FilterModel.EmptyFilterQuery | MarketStud/MainPage/Classes/Core/Structs/FilterModel.swift:14-21 | an empty filter gives an empty query |
| FilterModel.QueryStartsWithName | MarketStud/MainPage/Classes/Core/Structs/FilterModel.swift:16 | with a name, the query starts with `itemName=` and the name |
| FilterModel.ReadFieldBack | MarketStud/MainPage/Classes/Core/Structs/FilterModel.swift:17-19 | an `&key=id` part reads back as the id, leaving the rest of the query |
| FilterModel.IdPartsRoundTrip | MarketStud/MainPage/Classes/Core/Structs/FilterModel.swift:17-19 | the id parts read back as the category, location and seller of the filter |
| FilterModel.QueryDeterminesIds | MarketStud/MainPage/Classes/Core/Structs/FilterModel.swift:14-21 | two filters with the same name and the same query choose the same category, location and seller |
| FilterModel.NameIsNotEscaped | MarketStud/MainPage/Classes/Core/Structs/FilterModel.swift:16 | the name is inserted unescaped: a name holding `&sellerId=1` yields a query that also reads as seller 1 |
| Endpoints.MakeBareUrl | MarketStud/Common/Classes/APIClient/APIEndpoint.swift:41-56 | the default arguments give a bare endpoint |
| Endpoints.GetEndpoint | MarketStud/Common/Classes/APIClient/APIEndpoint.swift:54-194 | the path of every case: auth, look-ups, profile, item operations, search, image download, chat; properties in UrlIsBasePlusPath and the lemmas below |
| Endpoints.UrlString | MarketStud/Common/Classes/APIClient/APIEndpoint.swift:20 | the stored URL of a bare endpoint, otherwise base plus path; see UrlIsBasePlusPath |
| Endpoints.Method | MarketStud/Common/Classes/APIClient/APIEndpoint.swift:21 | GET by default, overridden by auth, item and chat cases; see ItemMethods and AuthEndpointsArePublic |
| Endpoints.AuthRequired | MarketStud/Common/Classes/APIClient/APIEndpoint.swift:22 | true by default, false for auth endpoints; see Describe |
| Endpoints.Headers | MarketStud/Common/Classes/APIClient/APIEndpoint.swift:23 | JSON accept by default, overridden by item cases; see ItemHeaders |
| Endpoints.ChatName | MarketStud/Common/Classes/APIClient/APIEndpoint.swift:183-194 | the four chat path names; see ChatEndpointsArePosts |
| Endpoints.Describe | MarketStud/Common/Classes/APIClient/APIEndpoint.swift:19-24 | a bare endpoint reports what it stores; any other has the server base followed by its path as URL, needs a token exactly when it is not an auth endpoint, and is a GET exactly for the look-ups, the profile, the search and the image download, a POST otherwise |
| Endpoints.LoginTargetDescribesLogin | MarketStud/Common/Classes/APIClient/APIEndpoint.swift:58-81 | the login target used by the client is the login endpoint's description |
| Endpoints.BareUrlDefaults | MarketStud/Common/Classes/APIClient/APIEndpoint.swift:41-56 | a bare endpoint uses its URL verbatim, GET, a token, and the default headers |
| Endpoints.UrlIsBasePlusPath | MarketStud/Common/Classes/APIClient/APIEndpoint.swift:19-24 | every other endpoint's URL is the server base followed by its path |
| Endpoints.LookupEndpointsUseDefaults | MarketStud/Common/Classes/APIClient/APIEndpoint.swift:83-127 | the category, location, status and profile endpoints are token-guarded GETs with the default headers |
| Endpoints.AuthEndpointsArePublic | MarketStud/Common/Classes/APIClient/APIEndpoint.swift:58-81 | login and register are POSTs to `api/v1/auth/login` and `api/v1/auth/register` that need no token |
| Endpoints.ItemMethods | MarketStud/Common/Classes/APIClient/APIEndpoint.swift:154-161 | an item endpoint is a GET exactly for the search and the image download, a POST otherwise, and always needs a token |
| Endpoints.ItemHeaders | MarketStud/Common/Classes/APIClient/APIEndpoint.swift:163-172 | the image download sends no headers, the uploads announce multipart, save, update and search ask for JSON |
| Endpoints.ChatEndpointsArePosts | MarketStud/Common/Classes/APIClient/APIEndpoint.swift:177-206 | every chat endpoint is a token-guarded POST whose path is `chat/` followed by its name, and no two share a path |
| Endpoints.ProfileAndImageIdsReadBack | MarketStud/Common/Classes/APIClient/APIEndpoint.swift:121 | the profile path and the image path end in the decimal id, which reads back as the id |
| Endpoints.SearchPageReadsBack | MarketStud/Common/Classes/APIClient/APIEndpoint.swift:137-152 | the page of a search reads back from the end of its path, whatever the filter's name holds |
| Endpoints.SearchPathHoldsQuery | MarketStud/Common/Classes/APIClient/APIEndpoint.swift:137-152 | the search path is the search base, the filter's query, then the page component |
| AppState.DecodeCredentials | MarketStud/Common/Classes/APIClient/AuthModel.swift:24-27 | a decoded value has both members present in the JSON |
| AppState.CredentialsRoundTrip | MarketStud/Common/Classes/APIClient/AuthModel.swift:24-27 | encoding credentials and decoding them gives them back |
| AppState.LoadCredentials | MarketStud/StateService/AppState.swift:89-96 | credentials load only from a data value under the credentials key |
| AppState.Load | MarketStud/StateService/AppState.swift:82-87 | initialization reads every field from the store and takes the clock as given |
| AppState.LoadToken | MarketStud/StateService/AppState.swift:98-99 | a token is loaded exactly when a string is stored under its key, and it is that string |
| AppState.LoadExpiration | MarketStud/StateService/AppState.swift:100 | an expiry is loaded exactly when a date is stored under its key, and it is that date |
| AppState.LoadUserId | MarketStud/StateService/AppState.swift:103-105 | a user id is loaded exactly when an integer is stored under its key, and it is that integer |
| AppState.EncodeCredentials | MarketStud/Common/Classes/APIClient/AuthModel.swift:24-27 | the JSON members of credentials; see CredentialsRoundTrip |
| AppState.ReadToken | MarketStud/StateService/AppState.swift:67-77 | the lazily-expiring getter; see ReadTokenExpired, ReadTokenLive and ReadTokenIdempotent |
| AppState.AfterSetUserId | MarketStud/StateService/AppState.swift:107-110 | the user id and its stored entry change; see SetUserIdChangesOnlyUserId |
| AppState.AfterSetToken | MarketStud/StateService/AppState.swift:121-129 | `setToken` changes only the token, the expiry (when a lifetime is given) and their stored entries |
| AppState.AfterSetCredentials | MarketStud/StateService/AppState.swift:112-119 | `setCredentials` changes only the credentials and their stored entry |
| AppState.ReadTokenExpired | MarketStud/StateService/AppState.swift:67-77 | once the expiry has passed the getter gives nil and clears the cached token |
| AppState.ReadTokenLive | MarketStud/StateService/AppState.swift:67-77 | before that it gives the cached token and changes nothing |
| AppState.ReadTokenIdempotent | MarketStud/StateService/AppState.swift:67-77 | reading twice reads the same |
| AppState.SetTokenThenRead | MarketStud/StateService/AppState.swift:121-129 | after `setToken(t, e)` the token reads as `t` exactly when the lifetime `e` is positive |
| AppState.InvalidateToken | MarketStud/Common/Classes/APIClient/APIClient.swift:99 | `setToken("", -1)` makes the next read nil |
| AppState.SetTokenKeepsExpiry | MarketStud/StateService/AppState.swift:121-129 | without a lifetime the expiry is left as it was |
| AppState.SetCredentialsStores | MarketStud/StateService/AppState.swift:112-119 | nil removes the stored credentials; any other value is stored and reads back |
| AppState.SetUserIdChangesOnlyUserId | MarketStud/StateService/AppState.swift:107-110 | `setUserId` changes the user id and its stored entry and nothing else |
| AppState.UndecodableCredentials | MarketStud/StateService/AppState.swift:89-96 | a value of another type under the credentials key loads as no credentials |
| AppState.LoadPersisted | MarketStud/StateService/AppState.swift:82-87 | a freshly loaded state agrees with the store |
| AppState.ReadTokenPersisted | MarketStud/StateService/AppState.swift:67-77 | reading the token keeps the state in agreement with the store |
| AppState.SetTokenPersisted | MarketStud/StateService/AppState.swift:121-129 | `setToken` keeps the state in agreement with the store |
| AppState.SetCredentialsPersisted | MarketStud/StateService/AppState.swift:112-119 | `setCredentials` keeps the state in agreement with the store |
| AppState.SetUserIdPersisted | MarketStud/StateService/AppState.swift:107-110 | `setUserId` keeps the state in agreement with the store |
| AppState.ReloadAgrees | MarketStud/StateService/AppState.swift:82-105 | a new instance over the same store reads back the token the getter gives, the expiry, the credentials and the user id |
| AppState.UserDefaultAppState.constructor | MarketStud/StateService/AppState.swift:82-87 | the new object's state is the loaded one, in agreement with the store |
| AppState.UserDefaultAppState.Token | MarketStud/StateService/AppState.swift:67-77 | the getter does what ReadToken says |
| AppState.UserDefaultAppState.SetToken | MarketStud/StateService/AppState.swift:121-129 | the new state is AfterSetToken of the old one |
| AppState.UserDefaultAppState.SetCredentials | MarketStud/StateService/AppState.swift:112-119 | the new state is AfterSetCredentials of the old one |
| AppState.UserDefaultAppState.SetUserId | MarketStud/StateService/AppState.swift:107-110 | the new state is AfterSetUserId of the old one |
| ApiClient.Exchange | MarketStud/Common/Classes/APIClient/APIClient.swift:35-62 | sending a request appends it to the log and consumes one scripted reply, if any |
| ApiClient.RequestHeaders | MarketStud/Common/Classes/APIClient/APIClient.swift:43-46 | static headers plus the bearer when required and present; see BearerIffRequiredAndPresent |
| ApiClient.EndpointRequest | MarketStud/Common/Classes/APIClient/APIClient.swift:48-61 | the request `fetch` sends; see BodyOnlyBeyondGet |
| ApiClient.LoginRequest | MarketStud/Common/Classes/APIClient/APIClient.swift:101-104 | the login request with the stored credentials; see LoginCarriesNoBearer |
| ApiClient.UploadHeaders | MarketStud/Common/Classes/APIClient/APIClient.swift:162-169 | the upload headers; see UploadHeadersShape |
| ApiClient.UploadResult | MarketStud/Common/Classes/APIClient/APIClient.swift:179-190 | the mapping of an upload reply; see UploadResultCases |
| ApiClient.Commit | MarketStud/Common/Classes/APIClient/APIClient.swift:78-86 | the store of an auth response; see CommitEffect and CommitPersisted |
| ApiClient.FetchRun | MarketStud/Common/Classes/APIClient/APIClient.swift:35-62 | a fetch only ever adds to the request log |
| ApiClient.HandleRun | MarketStud/Common/Classes/APIClient/APIClient.swift:75-95 | handling a reply only ever adds to the request log |
| ApiClient.RefreshRun | MarketStud/Common/Classes/APIClient/APIClient.swift:64-73 | a refresh only ever adds to the request log |
| ApiClient.TryAuthRun | MarketStud/Common/Classes/APIClient/APIClient.swift:97-121 | a login attempt only ever adds to the request log |
| ApiClient.DownloadRun | MarketStud/Common/Classes/APIClient/APIClient.swift:125-152 | a download only ever adds to the request log |
| ApiClient.UploadRun | MarketStud/Common/Classes/APIClient/APIClient.swift:154-192 | an upload only ever adds to the request log |
| ApiClient.CommitEffect | MarketStud/Common/Classes/APIClient/APIClient.swift:78-86 | committing an auth response stores its token with its lifetime (or the default) and its user id, and nothing else |
| ApiClient.CommitPersisted | MarketStud/Common/Classes/APIClient/APIClient.swift:78-86 | committing keeps the state in agreement with the store |
| ApiClient.BearerIffRequiredAndPresent | MarketStud/Common/Classes/APIClient/APIClient.swift:43-46 | the bearer header is present exactly when the endpoint needs a token and one was read; static headers are kept |
| ApiClient.CatalogueHasNoAuthorization | MarketStud/Common/Classes/APIClient/APIEndpoint.swift:19-206 | no catalogued endpoint carries an Authorization header of its own |
| ApiClient.BodyOnlyBeyondGet | MarketStud/Common/Classes/APIClient/APIClient.swift:48-61 | a GET goes without a body; other methods carry the parameters |
| ApiClient.RefreshSendsLoginFirst | MarketStud/Common/Classes/APIClient/APIClient.swift:64-73 | the first request a refresh sends is the login with the stored credentials |
| ApiClient.FetchWithoutTokenLogsInFirst | MarketStud/Common/Classes/APIClient/APIClient.swift:37-41 | an auth-required fetch without a live token sends the login first and nothing to the endpoint |
| ApiClient.FetchWithTokenSendsRequest | MarketStud/Common/Classes/APIClient/APIClient.swift:43-61 | otherwise the first request is the endpoint's own, with the token read |
| ApiClient.AuthPayloadCommitted | MarketStud/Common/Classes/APIClient/APIClient.swift:78-86 | an auth response payload is committed and delivered; nothing more is sent |
| ApiClient.OtherPayloadDelivered | MarketStud/Common/Classes/APIClient/APIClient.swift:87-88 | any other payload is delivered unchanged with no state change |
| ApiClient.OtherFailureDeliveredOnce | MarketStud/Common/Classes/APIClient/APIClient.swift:92 | a failure other than 401 is delivered once as `.network`, with no request and no state change |
| ApiClient.UnauthorizedLogsIn | MarketStud/Common/Classes/APIClient/APIClient.swift:89-90 | a 401 leads to a login with the stored credentials |
| ApiClient.LoginCarriesNoBearer | MarketStud/Common/Classes/APIClient/APIClient.swift:99-104 | the login carries the stored credentials and no bearer header, since the token was invalidated first |
| ApiClient.LoginSuccessRetries | MarketStud/Common/Classes/APIClient/APIClient.swift:108-114 | a successful login commits its response and re-issues the original fetch |
| ApiClient.LoginFailureGivesUp | MarketStud/Common/Classes/APIClient/APIClient.swift:115-117 | a failed login forgets the credentials and delivers the error without retrying |
| ApiClient.DownloadNeedsGet | MarketStud/Common/Classes/APIClient/APIClient.swift:126-128 | a download from a non-GET endpoint fails with `.download` and sends nothing |
| ApiClient.DownloadReplies | MarketStud/Common/Classes/APIClient/APIClient.swift:129-150 | a GET download sends one request and maps the reply without refreshing: no body is `.download`, any failure is `.network` |
| ApiClient.UploadWithoutToken | MarketStud/Common/Classes/APIClient/APIClient.swift:156-160 | an upload needing a token without one fails with `.auth` and sends nothing |
| ApiClient.UploadHeadersShape | MarketStud/Common/Classes/APIClient/APIClient.swift:162-169 | the upload sends the bearer token when present and a Content-Length of the data length plus the id's decimal length, and no static header |
| ApiClient.UploadSends | MarketStud/Common/Classes/APIClient/APIClient.swift:171-190 | an allowed upload sends one POST with those headers, and its result is the mapped reply |
| ApiClient.UploadResultCases | MarketStud/Common/Classes/APIClient/APIClient.swift:179-190 | an upload succeeds exactly on a decoded photo response; every failure is `.dataCorrupted` |
| ApiClient.RetriesAreUnbounded | MarketStud/Common/Classes/APIClient/APIClient.swift:64-121 | whatever n, a fetch answered by n rounds of 401-then-login and then a payload delivers the payload after 2n + 1 requests |
| ApiClient.FinalAnswer | MarketStud/Common/Classes/APIClient/APIClient.swift:75-88 | a fetch answered by a payload delivers it after one request |
| ApiClient.OneRetryRound | MarketStud/Common/Classes/APIClient/APIClient.swift:89-114 | one round of 401-then-login starts the fetch again two requests later with a live token |
| ApiClient.TryAuthPersisted | MarketStud/Common/Classes/APIClient/APIClient.swift:97-121 | a login attempt keeps the state in agreement with the store |
| ApiClient.FetchPersisted | MarketStud/Common/Classes/APIClient/APIClient.swift:35-62 | a fetch keeps the state in agreement with the store |
| ApiClient.HandlePersisted | MarketStud/Common/Classes/APIClient/APIClient.swift:75-95 | handling a reply keeps the state in agreement with the store |
| ApiClient.RefreshPersisted | MarketStud/Common/Classes/APIClient/APIClient.swift:64-73 | a refresh keeps the state in agreement with the store |
| ApiClient.MIAPIClient.Send | MarketStud/Common/Classes/APIClient/APIClient.swift:48-61 | the transport appends the request and returns the next scripted reply |
| ApiClient.MIAPIClient.Fetch | MarketStud/Common/Classes/APIClient/APIClient.swift:35-62 | the method does what FetchRun says, on the object's state and wire |
| ApiClient.MIAPIClient.HandleResponse | MarketStud/Common/Classes/APIClient/APIClient.swift:75-95 | the method does what HandleRun says |
| ApiClient.MIAPIClient.RefreshAuthAndRetry | MarketStud/Common/Classes/APIClient/APIClient.swift:64-73 | the method does what RefreshRun says |
| ApiClient.MIAPIClient.WithTryAuth | MarketStud/Common/Classes/APIClient/APIClient.swift:97-121 | the method does what TryAuthRun says |
| ApiClient.MIAPIClient.DownloadData | MarketStud/Common/Classes/APIClient/APIClient.swift:125-152 | the method does what DownloadRun says |
| ApiClient.MIAPIClient.UploadPhoto | MarketStud/Common/Classes/APIClient/APIClient.swift:154-192 | the method does what UploadRun says |
| MainPageService.FetchItemsRequest | MarketStud/MainPage/Classes/Core/Services/MainPageService.swift:13-20 | with a live token the search is one GET without a body, to the search URL for the page and filter, with the bearer header |
| MainPageService.FetchItemsRun | MarketStud/MainPage/Classes/Core/Services/MainPageService.swift:13-20 | `fetchItems`; see FetchItemsRequest |
| MainPageService.FetchImageRun | MarketStud/MainPage/Classes/Core/Services/MainPageService.swift:22-40 | `fetchImage`; see FetchImagePassesThrough |
| MainPageService.Refill | MarketStud/MainPage/Classes/Core/Services/MainPageService.swift:42-58 | what storage holds after a look-up completion; see RefillStoresSorted |
| MainPageService.FetchImagePassesThrough | MarketStud/MainPage/Classes/Core/Services/MainPageService.swift:22-40 | the image download sends one GET to the image URL and passes the bytes or the error through |
| MainPageService.RefillStoresSorted | MarketStud/MainPage/Classes/Core/Services/MainPageService.swift:42-58 | against a storage that reads back what was stored, a successful fetch stores the reply sorted by id, a permutation of it; a failure leaves storage alone; storage is non-empty exactly when the reply was |
| MainPageService.MainPageService.FetchStatuses | MarketStud/MainPage/Classes/Core/Services/MainPageService.swift:42-47 | stored statuses are served with no request; otherwise one status request is made; storage is unchanged |
| MainPageService.MainPageService.StatusesFetched | MarketStud/MainPage/Classes/Core/Services/MainPageService.swift:48-57 | the reply is handed on as received and storage refilled from it |
| MainPageService.MainPageService.FetchLocations | MarketStud/MainPage/Classes/Core/Services/MainPageService.swift:60-65 | stored locations are served with no request; otherwise one location request is made |
| MainPageService.MainPageService.LocationsFetched | MarketStud/MainPage/Classes/Core/Services/MainPageService.swift:66-75 | the reply is handed on as received and storage refilled from it |
| MainPageService.MainPageService.FetchCategories | MarketStud/MainPage/Classes/Core/Services/MainPageService.swift:78-83 | stored categories are served with no request; otherwise one category request is made |
| MainPageService.MainPageService.CategoriesFetched | MarketStud/MainPage/Classes/Core/Services/MainPageService.swift:84-93 | the reply is handed on as received and storage refilled from it |
| CreateItemService.SaveEndpointChoice | MarketStud/CreateItem/Classes/Core/Services/CreateItemService.swift:39-52 | a new item is created at `item/create`, an existing one saved at `item/update`, both by token-guarded POST |
| CreateItemService.SaveEndpoint | MarketStud/CreateItem/Classes/Core/Services/CreateItemService.swift:40 | save or update by `isNew`; see SaveEndpointChoice |
| CreateItemService.ImageEndpoint | MarketStud/CreateItem/Classes/Core/Services/CreateItemService.swift:24 | load or update image by `isNew`; see ImageEndpointChoice |
| CreateItemService.CreateItemRun | MarketStud/CreateItem/Classes/Core/Services/CreateItemService.swift:39-52 | `createItem`; see CreateItemSendsDTO and DTORoundTrip |
| CreateItemService.UploadImageRun | MarketStud/CreateItem/Classes/Core/Services/CreateItemService.swift:18-37 | `uploadImage`; see NoJpegSendsNothing and UploadImageReports |
| CreateItemService.ImageEndpointChoice | MarketStud/CreateItem/Classes/Core/Services/CreateItemService.swift:18-37 | a new item's image goes to `api/v1/objects`, an existing one's to `api/v1/objects/update` |
| CreateItemService.CreateItemSendsDTO | MarketStud/CreateItem/Classes/Core/Services/CreateItemService.swift:39-52 | with a live token, saving sends one POST to the chosen endpoint with the DTO as its body |
| CreateItemService.NoJpegSendsNothing | MarketStud/CreateItem/Classes/Core/Services/CreateItemService.swift:19-22 | image data that cannot be produced fails with `.dataCorrupted` and sends nothing |
| CreateItemService.UploadImageReports | MarketStud/CreateItem/Classes/Core/Services/CreateItemService.swift:23-36 | otherwise the file name is reported on success and the error passed on |
| ItemLookup.LookupAll | MarketStud/MainPage/Classes/UserStories/MainPageModule/MainPagePresenter.swift:40-42 | every id is found exactly when the list has each one; the hits are list elements with those ids, in order |
| ItemLookup.FromDTO | MarketStud/MainPage/Classes/UserStories/MainPageModule/MainPagePresenter.swift:35-44 | the item built from one DTO by id look-ups; see FromDTOWhen and FromDTOFields |
| ItemLookup.MapItems | MarketStud/MainPage/Classes/UserStories/MainPageModule/MainPagePresenter.swift:34-45 | a mapping maps every DTO in order; a trap means some DTO could not be mapped |
| ItemLookup.FromDTOWhen | MarketStud/MainPage/Classes/UserStories/MainPageModule/MainPagePresenter.swift:34-45 | a DTO maps exactly when the lists hold its status, its location and all its categories |
| ItemLookup.FromDTOFields | MarketStud/Profile/Classes/UserStories/ProfileModule/ProfilePresenter.swift:53-64 | the item copies the DTO's fields and carries the loaded values with the DTO's ids, in order |
| ItemLookup.LookupKeys | MarketStud/MainPage/Classes/UserStories/MainPageModule/MainPagePresenter.swift:40-42 | with distinct ids, looking up the ids of chosen categories gives them back |
| ItemLookup.DTORoundTrip | MarketStud/CreateItem/Classes/Core/Services/CreateItemService.swift:39-48 | the DTO a service sends maps back to the item with the service's user as seller, when the lists hold its choices |
| Paging.BeginStartsOnlyWhenIdle | MarketStud/MainPage/Classes/UserStories/MainPageModule/MainPagePresenter.swift:23-25 | a load starts exactly when neither loading nor at the end, and then only the loading flag changes |
| Paging.Begin | MarketStud/MainPage/Classes/UserStories/MainPageModule/MainPagePresenter.swift:23-25 | the guard at the start of a load; see BeginStartsOnlyWhenIdle |
| Paging.Finish | MarketStud/MainPage/Classes/UserStories/MainPageModule/MainPagePresenter.swift:31-50 | the pager after a completion; see FinishMovesPageOnSuccess |
| Paging.Restart | MarketStud/Profile/Classes/UserStories/ProfileModule/ProfilePresenter.swift:33-37 | back to page 0 with the end flag cleared; see RestartLoadsFirstPage |
| Paging.Rewind | MarketStud/MainPage/Classes/UserStories/MainPageModule/MainPagePresenter.swift:59-63 | back to page 0 only; see RewindKeepsEnd |
| Paging.Loads | MarketStud/Profile/Classes/UserStories/ProfileModule/ProfilePresenter.swift:39-73 | successive successful loads; see LoadsCountPages |
| Paging.FinishMovesPageOnSuccess | MarketStud/MainPage/Classes/UserStories/MainPageModule/MainPagePresenter.swift:31-50 | a completion clears the loading flag; only a success moves the page, by one, and an empty page marks the end |
| Paging.LoadsCountPages | MarketStud/Profile/Classes/UserStories/ProfileModule/ProfilePresenter.swift:39-73 | n non-empty pages in a row move the page by n and leave the list open |
| Paging.EmptyPageEnds | MarketStud/Profile/Classes/UserStories/ProfileModule/ProfilePresenter.swift:52 | after an empty page no load starts until a restart |
| Paging.RewindKeepsEnd | MarketStud/MainPage/Classes/UserStories/MainPageModule/MainPagePresenter.swift:59-63 | as written, rewinding keeps the end flag, so after the end a reload never starts a load |
| Paging.RewindAfterEndExample | MarketStud/MainPage/Classes/UserStories/MainPageModule/MainPagePresenter.swift:59-63 | a list ended on page 3 is back at page 0 but still ended after a reload |
| Paging.RestartLoadsFirstPage | MarketStud/Profile/Classes/UserStories/ProfileModule/ProfilePresenter.swift:33-37 | a restart from any state not in flight starts a load of page 0 |
| MainPage.FetchItemsAsksCurrentPage | MarketStud/MainPage/Classes/UserStories/MainPageModule/MainPagePresenter.swift:22-26 | a request goes out exactly when idle, for the current page and filter, and marks loading |
| MainPage.FetchItemsStep | MarketStud/MainPage/Classes/UserStories/MainPageModule/MainPagePresenter.swift:22-26 | `fetchItems` up to its request; see FetchItemsAsksCurrentPage |
| MainPage.ItemsArrivedStep | MarketStud/MainPage/Classes/UserStories/MainPageModule/MainPagePresenter.swift:26-52 | the completion of `fetchItems`; see ItemsArrivedMovesPage |
| MainPage.ReloadStep | MarketStud/MainPage/Classes/UserStories/MainPageModule/MainPagePresenter.swift:59-63 | `reloadItems`; see ReloadAsksFirstPage and ReloadAfterEndAsksNothing |
| MainPage.ItemsArrivedMovesPage | MarketStud/MainPage/Classes/UserStories/MainPageModule/MainPagePresenter.swift:26-52 | a reply hides the spinner; a success moves the page and marks the end exactly on an empty page and shows the items; a failure keeps page and end flag and shows the error |
| MainPage.ReloadAfterEndAsksNothing | MarketStud/MainPage/Classes/UserStories/MainPageModule/MainPagePresenter.swift:59-63 | as written, after the end was reached, reloading with any filter sends no request |
| MainPage.ReloadAsksFirstPage | MarketStud/MainPage/Classes/UserStories/MainPageModule/MainPagePresenter.swift:59-63 | a reload of an open list asks for page 0 with the current filter |
| MainPage.MainPagePresenter.FetchItems | MarketStud/MainPage/Classes/UserStories/MainPageModule/MainPagePresenter.swift:22-26 | the new state is FetchItemsStep of the old one |
| MainPage.MainPagePresenter.ItemsArrived | MarketStud/MainPage/Classes/UserStories/MainPageModule/MainPagePresenter.swift:26-52 | the new state is ItemsArrivedStep of the old one and the reply |
| MainPage.MainPagePresenter.ReloadItems | MarketStud/MainPage/Classes/UserStories/MainPageModule/MainPagePresenter.swift:59-63 | the new state is ReloadStep of the old one |
| MainPage.MainPagePresenter.StatusesArrived | MarketStud/MainPage/Classes/UserStories/MainPageModule/MainPagePresenter.swift:71-79 | a success stores the statuses; a failure changes nothing |
| MainPage.MainPagePresenter.LocationsArrived | MarketStud/MainPage/Classes/UserStories/MainPageModule/MainPagePresenter.swift:82-90 | a success stores the locations; a failure changes nothing |
| MainPage.MainPagePresenter.CategoriesArrived | MarketStud/MainPage/Classes/UserStories/MainPageModule/MainPagePresenter.swift:93-101 | a success stores the categories; a failure changes nothing |
| MainPage.MainPagePresenter.FiltersSettled | MarketStud/MainPage/Classes/UserStories/MainPageModule/MainPagePresenter.swift:103-106 | the spinner is hidden and then items are fetched |
| MainPage.MainPagePresenter.constructor | MarketStud/MainPage/Classes/UserStories/MainPageModule/MainPagePresenter.swift:16-20 | page 0, idle, empty filter and lists, the spinner shown by the filter fetch |
| FilterScreen.LocationsArrivedStores | MarketStud/MainPage/Classes/UserStories/FilterModule/FilterPresenter.swift:20-42 | stored locations are the reply plus "not chosen", sorted, a permutation, one longer; shown twice when categories are there; a failure shows the error |
| FilterScreen.LocationsArrivedStep | MarketStud/MainPage/Classes/UserStories/FilterModule/FilterPresenter.swift:20-31 | the location completion; see LocationsArrivedStores |
| FilterScreen.CategoriesArrivedStep | MarketStud/MainPage/Classes/UserStories/FilterModule/FilterPresenter.swift:32-42 | the category completion; see CategoriesArrivedStores |
| FilterScreen.FilterPresenter.SelectedFilter | MarketStud/MainPage/Classes/UserStories/FilterModule/FilterPresenter.swift:6-8 | the main page presenter's current filter; see ApplyFilter |
| FilterScreen.CategoriesArrivedStores | MarketStud/MainPage/Classes/UserStories/FilterModule/FilterPresenter.swift:20-42 | the same for categories |
| FilterScreen.LocationsKeepShown | MarketStud/MainPage/Classes/UserStories/FilterModule/FilterPresenter.swift:56-61 | every update the view received came from two arrived lists that both hold their "not chosen" entry, and that stays so |
| FilterScreen.CategoriesKeepShown | MarketStud/MainPage/Classes/UserStories/FilterModule/FilterPresenter.swift:56-61 | the same after the category completion |
| FilterScreen.FilterPresenter.constructor | MarketStud/MainPage/Classes/UserStories/FilterModule/FilterPresenter.swift:10-18 | no lists, no events, the given main page presenter |
| FilterScreen.FilterPresenter.Show | MarketStud/MainPage/Classes/UserStories/FilterModule/FilterPresenter.swift:44-48 | the new state is UpdateView of the old one |
| FilterScreen.FilterPresenter.LocationsArrived | MarketStud/MainPage/Classes/UserStories/FilterModule/FilterPresenter.swift:20-31 | the new state is LocationsArrivedStep of the old one |
| FilterScreen.FilterPresenter.CategoriesArrived | MarketStud/MainPage/Classes/UserStories/FilterModule/FilterPresenter.swift:32-42 | the new state is CategoriesArrivedStep of the old one |
| FilterScreen.FilterPresenter.ApplyFilter | MarketStud/MainPage/Classes/UserStories/FilterModule/FilterPresenter.swift:50-54 | the selected filter becomes the one applied, the main page reloads with it, the screen is dismissed |
| Profile.LoadOnlyWhenIdle | MarketStud/Profile/Classes/UserStories/ProfileModule/ProfilePresenter.swift:39-43 | a load starts only when idle, and then only marks loading |
| Profile.LoadStep | MarketStud/Profile/Classes/UserStories/ProfileModule/ProfilePresenter.swift:39-44 | `loadUserItems` up to its filter fetch; see LoadOnlyWhenIdle |
| Profile.ReloadViewStep | MarketStud/Profile/Classes/UserStories/ProfileModule/ProfilePresenter.swift:33-37 | `reloadView`; see ReloadAsksFirstPage |
| Profile.FiltersSettledStep | MarketStud/Profile/Classes/UserStories/ProfileModule/ProfilePresenter.swift:44-46 | the page request after the filters settle; see RoundAdvances |
| Profile.ItemsArrivedStep | MarketStud/Profile/Classes/UserStories/ProfileModule/ProfilePresenter.swift:46-70 | the completion of the page request; see ItemsArrivedMovesPage |
| Profile.ReloadAsksFirstPage | MarketStud/Profile/Classes/UserStories/ProfileModule/ProfilePresenter.swift:33-46 | a reload with nothing in flight loads, and the request that follows asks for page 0 |
| Profile.ItemsArrivedMovesPage | MarketStud/Profile/Classes/UserStories/ProfileModule/ProfilePresenter.swift:46-70 | a success moves the page and marks the end exactly on an empty page and shows the items; a failure keeps both and shows the error |
| Profile.RoundAdvances | MarketStud/Profile/Classes/UserStories/ProfileModule/ProfilePresenter.swift:39-73 | one whole round from idle asks for the current page once and ends on the next page, idle, ended exactly on an empty page |
| Profile.ProfilePresenter.constructor | MarketStud/Profile/Classes/UserStories/ProfileModule/ProfilePresenter.swift:16-20 | page 0, idle, nothing loaded |
| Profile.ProfilePresenter.ReloadView | MarketStud/Profile/Classes/UserStories/ProfileModule/ProfilePresenter.swift:33-37 | the new state is ReloadViewStep of the old one |
| Profile.ProfilePresenter.LoadUserItems | MarketStud/Profile/Classes/UserStories/ProfileModule/ProfilePresenter.swift:39-44 | the new state is LoadStep of the old one |
| Profile.ProfilePresenter.StatusesArrived | MarketStud/Profile/Classes/UserStories/ProfileModule/ProfilePresenter.swift:87-95 | a success stores the statuses; a failure changes nothing |
| Profile.ProfilePresenter.LocationsArrived | MarketStud/Profile/Classes/UserStories/ProfileModule/ProfilePresenter.swift:98-106 | a success stores the locations; a failure changes nothing |
| Profile.ProfilePresenter.CategoriesArrived | MarketStud/Profile/Classes/UserStories/ProfileModule/ProfilePresenter.swift:109-117 | a success stores the categories; a failure changes nothing |
| Profile.ProfilePresenter.FiltersSettled | MarketStud/Profile/Classes/UserStories/ProfileModule/ProfilePresenter.swift:44-46 | once the lists settled, the current page is requested |
| Profile.ProfilePresenter.ItemsArrived | MarketStud/Profile/Classes/UserStories/ProfileModule/ProfilePresenter.swift:46-70 | the new state is ItemsArrivedStep of the old one and the reply |
| CreateItemScreen.UploadNeedsItemId | MarketStud/CreateItem/Classes/UserStories/CreateItemModule/CreateItemPresenter.swift:21-24 | no upload happens before an item id is recorded; with one, the upload is for that id |
| CreateItemScreen.UploadStep | MarketStud/CreateItem/Classes/UserStories/CreateItemModule/CreateItemPresenter.swift:21-24 | `uploadImage` up to the service call; see UploadNeedsItemId |
| CreateItemScreen.UploadDoneStep | MarketStud/CreateItem/Classes/UserStories/CreateItemModule/CreateItemPresenter.swift:24-32 | the upload completion; see UploadFollowsSave |
| CreateItemScreen.SaveStep | MarketStud/CreateItem/Classes/UserStories/CreateItemModule/CreateItemPresenter.swift:35-37 | `createItem` up to the service call; see UploadFollowsSave |
| CreateItemScreen.SaveDoneStep | MarketStud/CreateItem/Classes/UserStories/CreateItemModule/CreateItemPresenter.swift:37-46 | the save completion; see SaveDoneRecordsId |
| CreateItemScreen.FetchStep | MarketStud/CreateItem/Classes/UserStories/CreateItemModule/CreateItemPresenter.swift:49-54 | `fetchFilters` up to its three fetches; see FetchedHolds |
| CreateItemScreen.StatusesStep | MarketStud/CreateItem/Classes/UserStories/CreateItemModule/CreateItemPresenter.swift:57-66 | the status completion; see StatusesStored |
| CreateItemScreen.LocationsStep | MarketStud/CreateItem/Classes/UserStories/CreateItemModule/CreateItemPresenter.swift:69-78 | the location completion; see LocationsStored |
| CreateItemScreen.CategoriesStep | MarketStud/CreateItem/Classes/UserStories/CreateItemModule/CreateItemPresenter.swift:81-90 | the category completion; see CategoriesStored |
| CreateItemScreen.SettledStep | MarketStud/CreateItem/Classes/UserStories/CreateItemModule/CreateItemPresenter.swift:92-100 | the group notification; see AllFetchedShown and FailedFetchShowsError |
| CreateItemScreen.Fetched | MarketStud/CreateItem/Classes/UserStories/CreateItemModule/CreateItemPresenter.swift:54-90 | the three completions in one order; see FetchedHolds |
| CreateItemScreen.SaveDoneRecordsId | MarketStud/CreateItem/Classes/UserStories/CreateItemModule/CreateItemPresenter.swift:37-46 | a successful save records the returned id and reports success; a failed one shows the error and keeps the id |
| CreateItemScreen.UploadFollowsSave | MarketStud/CreateItem/Classes/UserStories/CreateItemModule/CreateItemPresenter.swift:21-47 | after a successful save the next upload is for the id the server returned |
| CreateItemScreen.StatusesStored | MarketStud/CreateItem/Classes/UserStories/CreateItemModule/CreateItemPresenter.swift:57-66 | a success stores the reply plus "Статус не выбран", sorted, one longer; a failure records the error and keeps the list |
| CreateItemScreen.LocationsStored | MarketStud/CreateItem/Classes/UserStories/CreateItemModule/CreateItemPresenter.swift:69-78 | the same for locations with "Место не выбрано" |
| CreateItemScreen.CategoriesStored | MarketStud/CreateItem/Classes/UserStories/CreateItemModule/CreateItemPresenter.swift:81-90 | the same for categories with "Категорий не выбрано" |
| CreateItemScreen.FetchedHolds | MarketStud/CreateItem/Classes/UserStories/CreateItemModule/CreateItemPresenter.swift:54-90 | after the fetches the error is that of the last failure, and each list is new exactly when its fetch succeeded |
| CreateItemScreen.AllFetchedShown | MarketStud/CreateItem/Classes/UserStories/CreateItemModule/CreateItemPresenter.swift:92-99 | when every fetch succeeded the view is given the three new lists after the spinner hides |
| CreateItemScreen.FailedFetchShowsError | MarketStud/CreateItem/Classes/UserStories/CreateItemModule/CreateItemPresenter.swift:92-96 | when any fetch failed the view is shown the last failure's error and not the lists |
| CreateItemScreen.StatusesLocationsSwap | MarketStud/CreateItem/Classes/UserStories/CreateItemModule/CreateItemPresenter.swift:54-90 | the status and location completions in either order keep the same lists and agree on whether an error was recorded; with at most one failure the states are equal |
| CreateItemScreen.StatusesCategoriesSwap | MarketStud/CreateItem/Classes/UserStories/CreateItemModule/CreateItemPresenter.swift:54-90 | the same for the status and category completions |
| CreateItemScreen.LocationsCategoriesSwap | MarketStud/CreateItem/Classes/UserStories/CreateItemModule/CreateItemPresenter.swift:54-90 | the same for the location and category completions |
| CreateItemScreen.CreateItemPresenter.constructor | MarketStud/CreateItem/Classes/UserStories/CreateItemModule/CreateItemPresenter.swift:15-19 | no lists, no id, no events |
| CreateItemScreen.CreateItemPresenter.UploadImage | MarketStud/CreateItem/Classes/UserStories/CreateItemModule/CreateItemPresenter.swift:21-24 | the new state is UploadStep of the old one |
| CreateItemScreen.CreateItemPresenter.UploadImageDone | MarketStud/CreateItem/Classes/UserStories/CreateItemModule/CreateItemPresenter.swift:24-32 | the new state is UploadDoneStep of the old one |
| CreateItemScreen.CreateItemPresenter.CreateItem | MarketStud/CreateItem/Classes/UserStories/CreateItemModule/CreateItemPresenter.swift:35-37 | the new state is SaveStep of the old one |
| CreateItemScreen.CreateItemPresenter.CreateItemDone | MarketStud/CreateItem/Classes/UserStories/CreateItemModule/CreateItemPresenter.swift:37-46 | the new state is SaveDoneStep of the old one |
| CreateItemScreen.CreateItemPresenter.FetchFilters | MarketStud/CreateItem/Classes/UserStories/CreateItemModule/CreateItemPresenter.swift:49-54 | the new state is FetchStep of the old one |
| CreateItemScreen.CreateItemPresenter.StatusesArrived | MarketStud/CreateItem/Classes/UserStories/CreateItemModule/CreateItemPresenter.swift:57-66 | the new state is StatusesStep of the old one |
| CreateItemScreen.CreateItemPresenter.LocationsArrived | MarketStud/CreateItem/Classes/UserStories/CreateItemModule/CreateItemPresenter.swift:69-78 | the new state is LocationsStep of the old one |
| CreateItemScreen.CreateItemPresenter.CategoriesArrived | MarketStud/CreateItem/Classes/UserStories/CreateItemModule/CreateItemPresenter.swift:81-90 | the new state is CategoriesStep of the old one |
| CreateItemScreen.CreateItemPresenter.FiltersSettled | MarketStud/CreateItem/Classes/UserStories/CreateItemModule/CreateItemPresenter.swift:92-100 | the new state is SettledStep of the old one |
| CreateItemView.Toggle | MarketStud/CreateItem/Classes/UserStories/CreateItemModule/CreateItemView.swift:366-377 | the category selection after a tap; see ToggleDeselects, ToggleNoneClears, ToggleOtherAppends, ToggleKeepsDistinct and ToggleTwice |
| CreateItemView.Complete | MarketStud/CreateItem/Classes/UserStories/CreateItemModule/CreateItemView.swift:225-236 | the guard of the create button; see SubmitRefusesIncomplete |
| CreateItemView.Submit | MarketStud/CreateItem/Classes/UserStories/CreateItemModule/CreateItemView.swift:224-251 | what the create button yields: refused, trapped or an item; see SubmitRefusesIncomplete and SubmittedItem |
| CreateItemView.ToggleDeselects | MarketStud/CreateItem/Classes/UserStories/CreateItemModule/CreateItemView.swift:367-369 | tapping a selected category removes every occurrence of it and nothing else |
| CreateItemView.ToggleNoneClears | MarketStud/CreateItem/Classes/UserStories/CreateItemModule/CreateItemView.swift:370-372 | tapping the unselected "none" category leaves only it selected |
| CreateItemView.ToggleOtherAppends | MarketStud/CreateItem/Classes/UserStories/CreateItemModule/CreateItemView.swift:373-376 | tapping another unselected category drops "none" and appends it |
| CreateItemView.ToggleKeepsDistinct | MarketStud/CreateItem/Classes/UserStories/CreateItemModule/CreateItemView.swift:366-377 | a selection without repeats stays without repeats |
| CreateItemView.ToggleTwice | MarketStud/CreateItem/Classes/UserStories/CreateItemModule/CreateItemView.swift:366-377 | tapping a real category twice restores the selection when "none" was not selected |
| CreateItemView.SubmitRefusesIncomplete | MarketStud/CreateItem/Classes/UserStories/CreateItemModule/CreateItemView.swift:225-236 | the form is refused exactly when a field is missing or a picker is on "none"; it traps exactly when a selected id is not loaded |
| CreateItemView.SubmittedItem | MarketStud/CreateItem/Classes/UserStories/CreateItemModule/CreateItemView.swift:237-250 | the item keeps the edited item's id (0 when new), seller 0, the selected status and location, and the selected loaded categories in loaded order |
| CreateItemView.Seed | MarketStud/CreateItem/Classes/UserStories/CreateItemModule/CreateItemView.swift:283-305 | the lists are replaced; without an item under edit nothing else changes |
| CreateItemView.SeededFormResubmits | MarketStud/CreateItem/Classes/UserStories/CreateItemModule/CreateItemView.swift:283-305 | once lists arrive for an edited item, submitting its own text gives back the item with seller 0 and the loaded categories sharing its ids |
| CreateItemView.CreateItemForm.constructor | MarketStud/CreateItem/Classes/UserStories/CreateItemModule/CreateItemView.swift:120-127 | nothing loaded or selected, no item under edit |
| CreateItemView.CreateItemForm.SetupWithGivenItem | MarketStud/CreateItem/Classes/UserStories/CreateItemModule/CreateItemView.swift:120-127 | the item under edit is set and nothing else changes |
| CreateItemView.CreateItemForm.SelectLocationRow | MarketStud/CreateItem/Classes/UserStories/CreateItemModule/CreateItemView.swift:361-362 | the selected location is the one of the tapped row |
| CreateItemView.CreateItemForm.SelectStatusRow | MarketStud/CreateItem/Classes/UserStories/CreateItemModule/CreateItemView.swift:364-365 | the selected status is the one of the tapped row |
| CreateItemView.CreateItemForm.SelectCategoryRow | MarketStud/CreateItem/Classes/UserStories/CreateItemModule/CreateItemView.swift:366-377 | the category selection is toggled by the tapped row's id |
| CreateItemView.CreateItemForm.UpdateFilters | MarketStud/CreateItem/Classes/UserStories/CreateItemModule/CreateItemView.swift:283-305 | the new form is Seed of the old one and the lists |
| CreateItemView.CreateItemForm.CreateButtonTapped | MarketStud/CreateItem/Classes/UserStories/CreateItemModule/CreateItemView.swift:224-251 | the submission is Submit of the form; a complete one is sent, an incomplete one shows the error message, and the form is unchanged |
| ClientLock.Run | MarketStud/Common/Classes/APIClient/APIClient.swift:18 | a non-recursive `NSLock` driven from one chain of calls; see RunAppend |
| ClientLock.RunAppend | MarketStud/Common/Classes/APIClient/APIClient.swift:18 | running two stretches of lock operations is running the first, then the second from the lock state it left |
| ClientLock.FetchOpsRun | MarketStud/Common/Classes/APIClient/APIClient.swift:36-47 | one `fetch` takes the lock and gives it back on both branches; it blocks when it finds the lock held |
| ClientLock.TryAuthAsWritten | MarketStud/Common/Classes/APIClient/APIClient.swift:98-119 | `withTryAuth` as written: the lock is released after the handler; see AsWrittenRetryBlocks |
| ClientLock.TryAuthCorrected | MarketStud/Common/Classes/APIClient/APIClient.swift:98-119 | the corrected order: the lock is released before the handler; see CorrectedLeavesLockFree |
| ClientLock.Trace | MarketStud/Common/Classes/APIClient/APIClient.swift:35-119 | the lock operations of a request turned away n times while every re-login succeeds |
| ClientLock.AsWrittenRetryBlocks | MarketStud/Common/Classes/APIClient/APIClient.swift:64-119 | as written, a request that needs a re-login blocks for ever once the login succeeds, since the retried `fetch` waits for the lock `withTryAuth` still holds; without a re-login it completes |
| ClientLock.AsWrittenFailedLoginReleases | MarketStud/Common/Classes/APIClient/APIClient.swift:115-119 | as written, a failed re-login releases the lock |
| ClientLock.CorrectedLeavesLockFree | MarketStud/Common/Classes/APIClient/APIClient.swift:64-119 | in the corrected order, any number of re-login rounds leaves the lock free |

## Left out

- Concurrency: the `NSLock` of `MIAPIClient` is modelled only for its order of operations along one chain of calls (`ClientLock`), with no other thread. The DispatchGroup fan-out and main-queue hops of the presenters are not modelled. The client is sequential, and the three look-up completions arrive one at a time, in the order given (for `CreateItemScreen.Fetched`: statuses, locations, categories); `CreateItemScreen.StatusesLocationsSwap` and its two companions show that another order changes at most which error is shown.
- Alamofire, `.validate()`, multipart body construction and JSON encoding and decoding. A reply arrives already decoded as a payload kind (an `AuthResponse`, a photo response, anything else) or as a failure with an optional status code.
- Error texts: a serialization failure is a failure without a status code, and `localizedDescription` is carried as the `APIError` itself. `APIError.map` (runtime casts) is not modelled.
- `Endpoint + AdditionalQuery` (APIEndpoint.swift:30-39) relies on `URLComponents` percent-encoding, and `SearchFilter.jsonRepresentation` on `JSONSerialization`; both are not modelled.
- UserDefaults is a map from key to a typed value. The CoreData storage of `MainPageService` is modelled as the abstract `IStorage`: one list per kind that reads back what was stored. `MainPageService.RefillStoresSorted` holds only for that abstraction. The concrete `Storage` class is not part of this model, and it behaves differently: its `replaceAll` only deletes and stores nothing new, and its `fetch` reads the entity "DBStatus" whatever the type asked for.
- Prices are integers in cents. The `Double` parsing and formatting in CreateItemView.swift (`setupWithGivenItem`, `createButtonTapped`) are left out, so the form receives the price already parsed.
- Integers are unbounded; Int64 wrap-around is not modelled. The `Int32` lifetime of `setToken` is a bounded newtype.
- Swift's `sorted(by:)` is modelled as a stable insertion sort; the properties proved (ordered by id, same elements) hold of any sort.
- Image resizing and JPEG compression: the presenter and the service receive the image data as an optional byte sequence, absent when compression fails.
- `CreateItemView.CreateItemForm.UpdateFilters`: requires the three lists to be non-empty, because the source shows their first rows and would trap otherwise.
- The thin pass-throughs are not modelled as members of their own: `fetchStatuses`, `fetchLocations` and `fetchCategories` of CreateItemService.swift (lines 54-68), `fetchImage` of MainPagePresenter.swift (lines 55-57) and ProfilePresenter.swift (lines 79-81), `loadProfile` and `logout` of ProfilePresenter.swift, the `fetchUserItems` request of the profile service (only its page number is recorded), and the navigation calls.
- The force unwraps that trap when a DTO names an id the loaded lists lack are modelled as a `Trap` event after which the completion does nothing more; the text built for the category field after a tap (CreateItemView.swift:378) is not modelled.
- UIKit presentation: views, cells, alerts, layout, routers and the chat screens. The chat endpoints are modelled; the chat module's logic is not.

## Findings

| source | as written | input that shows it | evidently intended | confidence | as-written member | corrected member |
|---|---|---|---|---|---|---|
| MarketStud/MainPage/Classes/UserStories/MainPageModule/MainPagePresenter.swift:59-63 | `reloadItems` resets the page to 0 but keeps `endData`, so once a listing has reached its end no reload loads again | browse until a page comes back empty, then apply any filter: the collection view is cleared and no request is made | reset the end-of-data flag as well, as `reloadView` of ProfilePresenter.swift:33-37 does, so a reload loads page 0 | not executed | Paging.RewindAfterEndExample | Paging.RestartLoadsFirstPage |
| MarketStud/Common/Classes/APIClient/APIClient.swift:98-119 | `withTryAuth` takes the lock at the start and releases it only after calling the handler, whose success branch calls `fetch`, which takes the same non-recursive lock first | a request arriving with no live token (or answered by a 401) while the stored credentials log in successfully: the retried `fetch` waits at its `lock.lock()` for a release that comes only after it returns, so the request is never re-sent | release the lock once the new token is stored and before the handler runs, so the retry can take it | not executed | ClientLock.AsWrittenRetryBlocks | ClientLock.CorrectedLeavesLockFree |

`MainPage` keeps the behaviour as written (`MainPage.ReloadAfterEndAsksNothing`
states its consequence for the filter screen's `applyFilter`), because the
model follows the code. The corrected pager step, `Paging.Restart`, is the
one `Profile.ReloadViewStep` uses, and `Profile.ReloadAsksFirstPage` proves
the intended property on it.

The API client model (`ApiClient.RefreshRun`, `ApiClient.RetriesAreUnbounded`)
re-sends the request after a successful login, which is the corrected
order; `ClientLock.TryAuthCorrected` states that order and
`ClientLock.CorrectedLeavesLockFree` proves that it never blocks.
