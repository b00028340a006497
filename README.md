# ACC hub browser (Project6) in Dafny

A model of Project6 of the APS training repository, an Autodesk Construction Cloud hub browser. It has three parts:

- **Server configuration** (`server/config.js`): the API base URL with its default, the Data Management endpoint templates and their placeholders, and the bearer headers.
- **Server routes** (`routes/aps.js`):
  - The two-legged access-token cache with its single in-flight request. Late callers join that request instead of sending a second one.
  - The handlers for hubs, projects, top folders, folder contents, item versions and version details. Each one fills a URL template, makes an upstream GET, and either reshapes the JSON:API body or turns the error into a status code.
- **Browser logic** (`public/app.js`):
  - The `apiCall` success check.
  - The navigator's icon, label and folder-or-file choice.
  - The "load a folder once" guard and the listing it builds.
  - The one-time viewer initialisation.
  - The order in which a version's model URN is looked up.

Files (modules):

| file | module | models |
|---|---|---|
| wrappers.dfy | `Wrappers` | `Option` and `Result` |
| js_values.dfy | `JsValues` | parsed JSON and JavaScript truthiness, `\|\|` and `?.` |
| js_strings.dfy | `JsStrings` | `indexOf` and `String.prototype.replace` with a string pattern, including the `$` replacement patterns of ECMA-262 (GetSubstitution) |
| http.dfy | `Http` | requests, upstream outcomes, thrown errors, and the error-to-status rule |
| aps_config.dfy | `ApsConfig` | `server/config.js` |
| token_cache.dfy | `TokenCache` | `getAccessToken` in `routes/aps.js` |
| aps_routes.dfy | `ApsRoutes` | the route handlers in `routes/aps.js` |
| hub_browser.dfy | `HubBrowser` | `public/app.js` |

How the model treats the runtime:

- **Async calls.** An `await` on the network becomes a parameter:
  - the upstream API is a function from request to outcome;
  - the browser's `fetch` becomes an HTTP status and a parsed body, `None` when the body is not JSON;
  - `Date.now()` is a `nat` of milliseconds.
- **The token cache.** It is specified by two transition functions, `OnCall` (a call up to its first suspension) and `OnSettle` (the pending request settles). The pending promise is the `inFlight` flag plus the list of callers waiting on it. The ghost counters `issued` and `settled` count the requests sent to the authentication endpoint; they observe the cache and have no counterpart in the code. The class `AccessTokenCache` keeps the module variables as fields, and each of its methods is proved to take the step its transition function describes.
- **null and undefined.** Both are the one value `Null`. The operators `||`, `?.` and `!` do not tell the two apart. The code also reads members without `?.`: `response.data.data` in `routes/aps.js`, and `data.success`, `item.type`, `tokenData.access_token` and `versionData.relationships` in `public/app.js`. Those reads are applied only to values that are never `undefined`: a body axios or `response.json()` parsed, an element of a parsed array, or the result of `data.data || []`. So a read from `null` is the only failure they can meet, and its TypeError message is the one for `null`.

## Model

| member | source | states |
|---|---|---|
| ApsConfig.BaseUrl | Project6/server/config.js:19 | the base URL is the variable when it is set and non-empty, and the public API host otherwise; it is never empty, and any other value came from the variable |
| ApsConfig.EndpointsFor | Project6/server/config.js:25-41 | the endpoint table for a base URL; its properties are stated by `EndpointsExtendBase`, `TemplatePlaceholders` and `RelationshipsVariant` |
| ApsConfig.EndpointsExtendBase | Project6/server/config.js:27-40 | every endpoint begins with the base URL |
| ApsConfig.TemplatePlaceholders | Project6/server/config.js:31-40 | projects carries `{hubId}`; top folders carries `{hubId}` and `{projectId}`; both folder-contents templates carry `{projectId}` and `{folderId}`; item versions carries `{itemId}`; version details carries `{versionId}` (and `{projectId}` where present) |
| ApsConfig.RelationshipsVariant | Project6/server/config.js:37-38 | the two folder-contents templates share the stem up to the folder id; one ends in `/contents`, the other in `/relationships/contents` |
| ApsConfig.AuthHeaders | Project6/server/config.js:44-49 | exactly two headers, `Authorization` and `Content-Type`; the content type is `application/json`; the authorization value starts with `Bearer ` |
| ApsConfig.BearerRoundTrip | Project6/server/config.js:46 | reading the token back from the `Authorization` header gives exactly the token the headers were built from |
| JsStrings.IndexOf | Project6/routes/aps.js:119 | the index found is an occurrence with none before it; no index means the pattern occurs nowhere |
| JsStrings.Replace | Project6/routes/aps.js:119 | without an occurrence the string is returned unchanged; otherwise the text before the first occurrence and all text after it are kept, so only the first occurrence is replaced |
| JsStrings.Substitution | Project6/routes/aps.js:119 | the replacement text for one match; a replacement text without `$` is inserted as it is |
| JsStrings.DollarPatterns | Project6/routes/aps.js:119 | `$$` gives `$`, `$&` the matched text, `` $` `` the text before the match, `$'` the text after it, each followed by the substitution of the rest; a lone `$` is copied |
| JsStrings.DollarOther | Project6/routes/aps.js:119 | a `$` followed by any character other than `$`, `&`, `` ` `` and `'` is copied with that character, and the rest is substituted after it |
| JsStrings.ReplacePlaceholder | Project6/routes/aps.js:159-161 | a `{`-led placeholder after `{`-free text is swapped for a `$`-free value, and nothing else changes |
| JsStrings.DollarAmpersandKeepsPlaceholder | Project6/routes/aps.js:207-209 | a route parameter spelled `$&` puts the matched placeholder back, so that substitution leaves the template unchanged |
| JsStrings.ReplaceAbsent | Project6/routes/aps.js:119 | a pattern that does not occur leaves the string unchanged |
| ApsRoutes.SubstituteTwo | Project6/routes/aps.js:159-161 | two placeholders in order, replaced one after the other by clean values, end up in their places |
| ApsRoutes.ProjectsUrl | Project6/routes/aps.js:119 | the projects template with `{hubId}` replaced once; its closed form is `ProjectsUrlIs` |
| ApsRoutes.TopFoldersUrl | Project6/routes/aps.js:159-161 | the top-folders template with `{hubId}` and then `{projectId}` replaced once each; closed form in `TopFoldersUrlIs` |
| ApsRoutes.FolderContentsUrl | Project6/routes/aps.js:207-209 | the primary folder-contents template with `{projectId}` and then `{folderId}` replaced once each; closed form in `FolderContentsUrlIs` |
| ApsRoutes.FolderContentsRelUrl | Project6/routes/aps.js:223-225 | the `relationships/contents` template with the same two replacements; closed form in `FolderContentsUrlIs` |
| ApsRoutes.ItemVersionsUrl | Project6/routes/aps.js:265-267 | the item-versions template with `{projectId}` and then `{itemId}` replaced once each; closed form in `ItemVersionsUrlIs` |
| ApsRoutes.VersionDetailsUrl | Project6/routes/aps.js:307-312 | the version-details template with `{projectId}` and `{versionId}` replaced, then `?include=derivatives` appended; closed form in `VersionDetailsUrlIs` |
| ApsRoutes.ProjectsUrlIs | Project6/routes/aps.js:119 | with clean values and a base URL without `{`, the projects URL is the base, the fixed path and the hub id in the placeholder's place |
| ApsRoutes.TopFoldersUrlIs | Project6/routes/aps.js:159-161 | with clean values, the top-folders URL holds the hub id and then the project id in their places |
| ApsRoutes.FolderContentsUrlIs | Project6/routes/aps.js:207-209 | with clean values, both folder-contents URLs hold the project id and folder id in their places |
| ApsRoutes.ItemVersionsUrlIs | Project6/routes/aps.js:265-267 | with clean values, the item-versions URL holds the project id and item id in their places |
| ApsRoutes.VersionDetailsUrlIs | Project6/routes/aps.js:307-312 | with clean values, the version-details URL holds the project id and the version id, followed by `?include=derivatives` |
| Http.ErrorStatus | Project6/routes/aps.js:104 | the status is the upstream response's status when there is a response with a non-zero status, and 500 otherwise; it is never 0 |
| Http.ErrorDetails | Project6/routes/aps.js:107 | the details are `null` without a response; with one, they are its data when that is truthy and `null` otherwise |
| ApsRoutes.ErrorReply | Project6/routes/aps.js:104-108 | every catch block replies with a failure carrying the error's message and a non-zero status: 500 with `null` details when there is no upstream response, and the upstream status when it is non-zero |
| ApsRoutes.Wire | Project6/routes/aps.js:93-97 | a success is sent with status 200 and `success: true` with its `data` and `included`; a failure with its status and `success: false`, its message as `error` and its `details` |
| ApsRoutes.ShapeList | Project6/routes/aps.js:89-90 | a non-null body succeeds with `data` and `included`, each defaulting to `[]` and so always truthy; a `null` body fails the way reading its `data` throws |
| ApsRoutes.ShapeVersion | Project6/routes/aps.js:321-322 | a non-null body succeeds with `body.data` when truthy and the whole body otherwise, and with `included` defaulting to `[]`; a `null` body fails the way reading its `data` throws |
| ApsRoutes.Fetch | Project6/routes/aps.js:82-108 | a token failure sends nothing and becomes the error reply; otherwise exactly one request goes to the URL with the token's bearer headers, and the reply is the shaped body or the error reply for that request's outcome |
| ApsRoutes.Hubs | Project6/routes/aps.js:81-110 | at most one request, to the hubs endpoint; a success carries truthy `data` and `included` |
| ApsRoutes.Projects | Project6/routes/aps.js:115-147 | at most one request, to the projects URL for the hub; a success carries truthy lists |
| ApsRoutes.TopFolders | Project6/routes/aps.js:155-193 | at most one request, to the top-folders URL; a success carries truthy lists |
| ApsRoutes.ItemVersions | Project6/routes/aps.js:261-295 | at most one request, to the item-versions URL; a success carries truthy lists |
| ApsRoutes.VersionDetails | Project6/routes/aps.js:301-344 | at most one request, to the details URL with `?include=derivatives`; a non-null body succeeds with `body.data \|\| body` |
| ApsRoutes.FolderContents | Project6/routes/aps.js:201-256 | the primary URL is tried first; the `relationships/contents` URL is tried as well exactly when the primary fails with 404; the reply comes from the last request (any other primary failure is passed on as it is) |
| TokenCache.OnCall | Project6/routes/aps.js:20-41 | a call is served from the cache exactly when the token is present, the expiry is set and non-zero, and `now` is before it; otherwise it joins exactly when a request is in flight; otherwise, with missing credentials, it fails without a request and changes nothing; otherwise it starts exactly one request; a call never writes the cache and keeps the single-flight invariant |
| TokenCache.Expiry | Project6/routes/aps.js:59-60 | the expiry is `now + (expires_in - 60) * 1000`, with 3600 for a missing or zero `expires_in`; it is in the future when the lifetime exceeds the margin |
| TokenCache.OnSettle | Project6/routes/aps.js:43-72 | after settling, no request is in flight and nobody waits; every waiting caller gets the same answer; success stores the token and its expiry, failure leaves both untouched; the invariant is kept |
| TokenCache.RunPreservesInv | Project6/routes/aps.js:29-35 | the single-flight invariant holds after any sequence of calls and responses |
| TokenCache.SingleFlight | Project6/routes/aps.js:29-35 | from a fresh cache, at most one token request is ever unanswered |
| TokenCache.JoinersAddNoRequest | Project6/routes/aps.js:29-32 | while a request is in flight, any number of further callers join it in order, and no request is added and the cache is not touched |
| TokenCache.BurstSendsOneRequest | Project6/routes/aps.js:29-35 | simultaneous callers facing an unusable cache cause exactly one request, and all of them wait on it |
| TokenCache.GrantedTokenServedUntilExpiry | Project6/routes/aps.js:23-26 | a granted token is served from the cache, with no request, to calls before its expiry, and not to calls at or after it |
| TokenCache.DefaultLifetime | Project6/routes/aps.js:59-60 | without `expires_in`, a token is cached for 3540 seconds |
| TokenCache.FailureKeepsCache | Project6/routes/aps.js:43-72 | a failed request leaves the cache usable exactly when it was usable before |
| TokenCache.FailureIsolation | Project6/routes/aps.js:64-72 | a failed request's callers see its failure; a call after it starts a fresh request that only its own callers wait on, and they see its grant |
| TokenCache.CachedThenRefreshed | Project6/routes/aps.js:23-26 | a token granted at 0 with 3600 s lifetime is served at 100 s, and a call at 3600 s sends a new request |
| TokenCache.AccessTokenCache.GetAccessToken | Project6/routes/aps.js:20-41 | the fields after a call are the state `OnCall` gives, and the reply is `OnCall`'s reply; the cache invariant is kept |
| TokenCache.AccessTokenCache.Settle | Project6/routes/aps.js:43-72 | the fields after settling, the callers answered and the answer are what `OnSettle` gives; the cache invariant is kept |
| HubBrowser.ApiCall | Project6/public/app.js:23-43 | succeeds exactly when the status is ok and `success` is truthy, with `data` and `included` defaulting to `[]`; a non-JSON body fails as such, a `null` body throws a TypeError, and any other failure is thrown with the body's `error` or else the default message |
| HubBrowser.ClientReadsServerReply | Project6/public/app.js:28-38 | a success reply from the server reaches the caller with `data` and `included` defaulted to `[]`; a failure reply is thrown with the server's message, or a default when that message is empty |
| HubBrowser.ListRoundTrip | Project6/public/app.js:35-38 | for the list routes, the browser receives exactly the `data` and `included` the server sent |
| HubBrowser.Icon | Project6/public/app.js:74-82 | `hub`, `project` and `folder` each get their own icon exactly for that type; every other type gets the file icon |
| HubBrowser.Label | Project6/public/app.js:55 | the label is `attributes.name` when truthy, else `attributes.displayName` when truthy, else `id` |
| HubBrowser.IsFolder | Project6/public/app.js:201-202 | an item is a folder exactly when its type is `folders` or `folders:autodesk.bim360:Folder`; its consequences are stated by `Describe` and `EntryShows` |
| HubBrowser.Describe | Project6/public/app.js:201-205 | an entry is shown as a folder exactly when its item's type is `folders` or `folders:autodesk.bim360:Folder`, and as a file otherwise; it is built from the item itself |
| HubBrowser.EntryShows | Project6/public/app.js:201-205 | an entry shows the folder icon exactly for a folder and the file icon exactly for a file |
| HubBrowser.DescribeAll | Project6/public/app.js:199-213 | the listing fails exactly when some element is `null`; otherwise it holds one entry per element, in order |
| HubBrowser.Listing | Project6/public/app.js:186-218 | a failed request leaves the container not loaded and showing the error; otherwise it is marked loaded; empty contents show the empty-folder notice; entries appear only for an array without `null` elements, one per element |
| HubBrowser.FolderElement.Click | Project6/public/app.js:172-185 | clicking toggles expansion and marks the element active; it requests the contents exactly when there is no children container yet, so a loaded, pending or failed container is never requested again |
| HubBrowser.FolderElement.ContentsArrived | Project6/public/app.js:186-218 | the container becomes `Listing` of the result; the request counter stays at most one |
| HubBrowser.FindDerivative | Project6/public/app.js:365-368 | `find` from a position: a failure is always the TypeError of reading `type` of `null`, and an index found lies in the list; which result it gives is stated by `FindDerivativeFinds` and `DerivativeFound` |
| HubBrowser.FindDerivativeFinds | Project6/public/app.js:365-368 | `find` returns the first derivative, with only non-null non-derivatives before it; it returns none exactly when there is no derivative and no `null` element; it throws exactly when a `null` element comes before every derivative |
| HubBrowser.DerivativeFound | Project6/public/app.js:365-368 | a derivative with only non-null non-derivatives before it is the one `find` returns |
| HubBrowser.Urn | Project6/public/app.js:355-385 | the URN the lookup settles on; its precedence is stated by `UrnPrecedence` and `NoUrnMeansNoSource` |
| HubBrowser.UrnPrecedence | Project6/public/app.js:355-385 | reading a member of `null` version data throws; the relationships id wins when truthy; otherwise a missing `included` counts as `[]` and a non-array one throws; otherwise the first included derivative's URN is used when truthy, and when it is falsy (or no derivative exists) the attribute URN is used if `attributes` is truthy; a `null` element met before any derivative throws |
| HubBrowser.NoUrnMeansNoSource | Project6/public/app.js:355-385 | no URN means that every source that was consulted gave nothing |
| HubBrowser.ResolveUrn | Project6/public/app.js:355-385 | the reassignments of `urn` and the `find` loop give exactly `Urn` |
| HubBrowser.DocumentFor | Project6/public/app.js:387-397 | nothing is loaded exactly when the URN is falsy, and a truthy URN is always loaded, never alerted: a non-empty string loads the document `urn:` followed by that string, which can be read back after the scheme, and any other truthy value is loaded as that same value (`LoadCoerced`) |
| HubBrowser.ViewerHost.InitViewer | Project6/public/app.js:287-338 | an initialised viewer is returned unchanged; otherwise a not-ok token response, a non-JSON body or a `null` body fails and leaves the viewer and the stored token as they were, and an ok non-null JSON body always succeeds, stores its `access_token` and creates the only viewer ever made |
| HubBrowser.ViewerHost.LoadVersionInViewer | Project6/public/app.js:343-417 | an initialised viewer and its token are kept; an uninitialised one is initialised exactly when the token response is ok with a non-null JSON body, and otherwise the call alerts with that failure and changes nothing; a failed details call and a failed URN lookup each end in an alert; otherwise the action is `DocumentFor` of `Urn` |

## Left out

- **HTTP transport.**
  - Express routing, `res.json`, axios and the browser's `fetch` are not modelled.
  - Upstream calls are a function parameter from request to outcome.
  - The POST to the authentication endpoint is represented only by its grant or error.
  - Its form body (client id, secret, grant type, scope) is not modelled.
- **Asynchrony.**
  - Promises and the event loop are not modelled.
  - The token cache sees explicit call and settle events. Each event is atomic, which matches JavaScript's run-to-completion between `await`s.
  - The credentials check inside the request starter is synchronous in the source, and it is modelled as part of the call.
  - `initViewer` and each upstream request are single steps. `loadFolderContents` is split at its `await` into `FolderElement.Click` and `FolderElement.ContentsArrived`.
  - Two overlapping `initViewer` calls are not modelled: the initialisation flag is set only in the SDK callback.
- **`Date.now()`.** It is a time parameter in milliseconds.
- **Floating-point and non-number fields.** Numbers are integers, and `expires_in` is an integer in which 0 stands for "absent or zero". A non-numeric `expires_in` and `NaN` expiry arithmetic are not modelled.
- **A malformed authentication reply.** A non-string `access_token` is not modelled. A `null` body makes `response.data.access_token` throw, and it is modelled by passing a failed grant.
- **The DOM.**
  - Markup, `innerHTML`, event listeners, `alert` text and date formatting are not modelled.
  - A container is only its loaded flag, its entries and a notice.
  - `currentState` and the selection highlighting are not modelled: nothing in the modelled logic reads them.
- **Hub and project expansion in `loadHubs`.** It uses the same "request only when there is no children container" guard as `FolderElement.Click`. Their listings use a fixed kind instead of `IsFolder`, and they are not modelled separately.
- **`loadFileVersions`.** It is DOM rendering of a version list, and it is not modelled.
- **The viewer SDK.** `Autodesk.Viewing.Initializer`, `GuiViewer3D`, `Document.load`, the extensions and `loadDocumentNode` are outside calls. A viewer is a number, and loading is the `ViewerAction` returned.
- **The token route.** `/api/aps/token`, which `initViewer` fetches, is not defined in `routes/aps.js`; its answer is a parameter.
- **Prototype keys in `getIcon`.** JavaScript looks up `icons[type]` through the object prototype, so for example `constructor` yields a function, not an icon. The model treats the table as a plain map.
- **Error values.**
  - `HubBrowser.ApiCall`: the thrown message is kept as the JSON value of `error`; its conversion to a string is not modelled.
  - `HubBrowser.DocumentFor`: a URN that is truthy but not a string would be converted to a string by JavaScript; the model returns it unconverted as `LoadCoerced`.
- **`ApsRoutes.ProjectsUrlIs` and the other URL lemmas.** They state the URL only for parameters with no `{` and no `$`, and for a base URL with no `{`. With other parameters, first-occurrence replacement and `$` patterns give other URLs; `JsStrings.DollarAmpersandKeepsPlaceholder` shows one.
- **Logging.** The `log` helper and `dotenv` loading are not modelled.
