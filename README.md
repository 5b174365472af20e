# Embeddable widgets demo front end, modelled in Dafny

This project models the browser side of a demo front end for a shipping
platform's embeddable widgets (carrier accounts, billing, payment logs,
reports). It covers four pieces that sit under the HTTP and DOM glue:

- **State store** (`SessionState`, from `public/js/state.js`). The session
  record holds the active user, label, billing mode, per-page `allowed` flags
  and a dark flag. It is mirrored into session storage under the key
  `ep_demo_session_v1`. The pure transitions `Load`, `Save` and `Clear`
  work on a `Session` (the record plus the storage map). The class
  `SessionState.Store` carries the two module-level variables, and each of
  its methods is specified by one of those transitions. The store invariant
  is `allowed == ComputeAllowed(mode)`. The defaults establish it, and every
  write in the code base keeps it.
- **Widget binder** (`Embeddables`, from `public/js/embeddables.js`). The
  class `Binder` holds `embeddables` (an SDK instance or null) and
  `boundUserId`. The third-party SDK is the class `Sdk`, with a ghost `calls`
  trace that records every `init`, `open`, `destroy` and `update` call in
  order. The pure `InitDecision` and `OpenDecision` state what
  `initEmbeddables` and `openComponent` decide. The methods are proved to
  make exactly the SDK calls those decisions imply.
- **Router** (`Router`, from `public/js/router.js`). This part covers route
  gating (`ResolveRoute`), hash parsing (`HashKey`), the nav marks and the
  disabled flags. The class `Dashboard` holds the one-slot page lifecycle
  (`currentUnmount`). The class `PageRoot` stands for the `pageRoot`
  element. It keeps a ghost `events` log that its own `Clear` and `Mount`
  append to, and so does `Detach.Call`, the detach function a page's `mount`
  returns. Whether that function throws is an input of `Render`.
- **Sign-in page** (`Auth`, from `public/js/auth.js`). It infers the mode
  from the referral list, chooses the offered list and formats labels. It
  also trims the manual id (`Trim`, with ECMAScript's white-space set),
  looks up the selected user (`Find`) and builds the records that the
  manual and continue buttons save. The class `UserPicker` holds
  `usersCache` and a record of the widget properties the page writes.

Everything runs sequentially: each `await` is one step. The directory
response, the detach function a page returns and the SDK's behaviour are
parameters. Navigation by `window.location.href` is a `redirect` field, and
`history.replaceState` writes a `hash` field.

## Model

| member | source | states |
|---|---|---|
| `SessionState.ComputeAllowed` | public/js/state.js:55-63 | carriers is always enabled; billing, payment logs and reports are each enabled iff the mode is `decentralized` |
| `SessionState.ComputeAllowedSameIff` | public/js/state.js:55-63 | two modes give the same flags iff both or neither are `decentralized`, so a consistent record's flags tell its billing topology |
| `SessionState.DefaultsAreSignedOut` | public/js/state.js:3-14 | the initial record has empty user id and label, mode `centralized`, only carriers allowed and `dark` false, and it satisfies the store invariant |
| `SessionState.Merge` | public/js/state.js:28-29 | shallow merge: every key present in the patch takes the patch's value (a given `allowed` replaces all four flags); every other key keeps its value |
| `SessionState.MergeFullPatch` | public/js/state.js:16-22 | merging a whole serialised record over any record yields exactly that record |
| `SessionState.MergeEmptyPatch` | public/js/state.js:19-21 | merging a record with no keys changes nothing |
| `SessionState.MergeIdempotent` | public/js/state.js:28-29 | saving the same patch twice gives the same record as saving it once |
| `SessionState.Load` | public/js/state.js:16-26 | with no readable entry under the key the record is unchanged; otherwise the parsed record is merged over it; storage is untouched |
| `SessionState.Save` | public/js/state.js:28-32 | the new record is the merge, and the storage holds exactly that whole record under the key, with every other key untouched |
| `SessionState.Clear` | public/js/state.js:34-49 | the record returns to the defaults, the key is removed, and other keys are kept |
| `SessionState.SaveThenLoad` | public/js/state.js:16-32 | a load after a save changes nothing: it returns the record just saved |
| `SessionState.ClearIdempotent` | public/js/state.js:34-49 | clearing twice leaves the same record and storage as clearing once |
| `SessionState.ClearThenLoad` | public/js/state.js:16-49 | after a clear, a load finds no entry and the defaults stay |
| `SessionState.MergeKeepsConsistent` | public/js/state.js:28-29 | a patch that sets the mode together with its flags, or sets neither, keeps `allowed == computeAllowed(mode)` |
| `SessionState.FullPatchKeepsAllowed` | public/js/state.js:28-31 | the record written to storage keeps the invariant iff the in-memory record satisfies it |
| `SessionState.InitialInvariant` | public/js/state.js:3-14 | the defaults, next to storage whose entry keeps the invariant, satisfy the store invariant |
| `SessionState.SaveKeepsInvariant` | public/js/state.js:28-32 | a save with such a patch keeps the invariant in memory and in storage |
| `SessionState.LoadKeepsInvariant` | public/js/state.js:16-26 | a load keeps the invariant when storage only holds records that keep it |
| `SessionState.ClearEstablishesInvariant` | public/js/state.js:34-49 | a clear restores the invariant from any state |
| `SessionState.Store.constructor` | public/js/state.js:3-14 | module start: the record is the defaults and the storage is what the tab already holds |
| `SessionState.Store.LoadState` | public/js/state.js:16-26 | the new record and storage are `Load` of the old ones, and the copy returned equals the new record |
| `SessionState.Store.SaveState` | public/js/state.js:28-32 | the new record and storage are `Save` of the old ones with the patch, and the copy returned equals the new record |
| `SessionState.Store.ClearState` | public/js/state.js:34-49 | the new record and storage are `Clear` of the old ones, and the copy returned equals the defaults |
| `SessionState.Store.GetState` | public/js/state.js:51-53 | returns a value equal to the current record and changes nothing |
| `Embeddables.GetAppearance` | public/js/embeddables.js:15-30 | `modalZIndex` is always "123456" and the font family is fixed; the neutral-000 colour and the presence of neutral-900 depend only on `dark` |
| `Embeddables.ThemesDifferOnlyInColours` | public/js/embeddables.js:15-30 | the dark and light appearances share the z-index; the dark tokens are the light ones plus `color.neutral.900`, and the only shared token whose value differs is `color.neutral.000` |
| `Embeddables.MessagesDistinct` | public/js/embeddables.js:34-37 | the two init errors and the user-changed error of `openComponent` (line 91) have pairwise distinct messages, so the logged `e.message` identifies the error |
| `Embeddables.InitDecision` | public/js/embeddables.js:32-47 | init fails with "No active user selected" iff there is no active user, and with "EasyPostEmbeddables SDK not loaded yet" iff there is an active user but the SDK `init` is missing; it reuses the instance iff one is bound to the active user, and it destroys before creating iff the instance is bound to another user |
| `Embeddables.InitIdempotent` | public/js/embeddables.js:45-47 | after a successful init, a second init reuses the instance and leaves the binding as it is |
| `Embeddables.OpenDecision` | public/js/embeddables.js:83-95 | open succeeds iff there is an active user and the SDK is loaded; without an active user it fails with "No active user selected" (checked first); with one but no SDK it fails with "EasyPostEmbeddables SDK not loaded yet" |
| `Embeddables.OpenNeverReportsUserChanged` | public/js/embeddables.js:89-92 | in a sequential run the "Active user changed" guard never fires, because init binds the active user |
| `Embeddables.Binder.IsReady` | public/js/embeddables.js:7-9 | in a valid binder, ready iff a user is bound; ready means an instance is held |
| `Embeddables.Binder.GetBoundUserId` | public/js/embeddables.js:11-13 | in a valid binder the bound id is empty iff the binder is not ready; a non-empty one comes with an instance from this SDK |
| `Embeddables.Binder.constructor` | public/js/embeddables.js:4-5 | the binder starts with no instance and no bound user |
| `Embeddables.Binder.InitEmbeddables` | public/js/embeddables.js:32-68 | on failure nothing changes and no SDK call is made; when reusing, the existing instance is returned and no call is made; otherwise the old instance is destroyed first when bound to another user, then `init` is called once with the font and the current appearance, and the binder holds the new instance bound to the active user |
| `Embeddables.Binder.UpdateTheme` | public/js/embeddables.js:70-73 | no SDK call without an instance or without its `update`; otherwise exactly one `update` with the appearance for the current `dark` |
| `Embeddables.Binder.DestroyEmbeddables` | public/js/embeddables.js:75-81 | always ends with no instance, no bound user and not ready, even when `destroy` throws; the only SDK call is the old instance's `destroy`, if it has one, so a second call makes none |
| `Embeddables.Binder.OpenComponent` | public/js/embeddables.js:83-95 | on failure nothing changes and no SDK `open` is made; on success the init calls are followed by exactly one `open(type)` on the bound instance |
| `Embeddables.InitTwice` | public/js/embeddables.js:45-47 | two inits in a row return the same instance, bound to the active user, and the SDK sees only the calls the first init made |
| `Router.Title` | public/js/router.js:33-54 | each route's heading as in the table; no two routes share one |
| `Router.Component` | public/js/router.js:33-54 | each route's widget type as in the table; no two routes share one |
| `Router.AllowedFlag` | public/js/router.js:84 | `allowed[key]` is the flag of the route the key names, and false for any other key |
| `Router.RouteOf` | public/js/router.js:33-54 | the route table holds exactly the four keys, and each entry's key is its own name |
| `Router.RouteKeyRoundTrip` | public/js/router.js:33-54 | every route's key looks up that route |
| `Router.ResolveRoute` | public/js/router.js:79-88 | `carriers` resolves to itself; any other key whose flag is falsy, unknown keys included, resolves to carriers; an allowed known key resolves to itself |
| `Router.GatedPageRedirects` | public/js/router.js:83-86 | going directly to a page whose flag is false renders carriers |
| `Router.CentralizedAlwaysCarriers` | public/js/router.js:83-86 | with a consistent record in centralized mode every key resolves to carriers |
| `Router.DecentralizedReachesEveryPage` | public/js/router.js:83-88 | with a consistent record in decentralized mode every known key resolves to its own page |
| `Router.HashKey` | public/js/router.js:148 | an empty hash gives `carriers`; otherwise the key is the hash without its first character |
| `Router.HashRoundTrip` | public/js/router.js:116 | the hash `#key` written after a nav click parses back to `key` |
| `Router.ModeGating` | public/js/router.js:67-77 | each of the billing, payment-logs and reports buttons is disabled iff its flag is false; the mode text names the billing topology |
| `Router.NavEnabledIffReachable` | public/js/router.js:74-88 | a nav button is enabled iff navigating to its key is not redirected by the gate |
| `Router.MarkAll` | public/js/router.js:58-65 | a nav item is marked "page" iff its route is the resolved key, every other item is marked "false", and the routes are kept |
| `Router.ExactlyOneCurrent` | public/js/router.js:58-65 | with one button per route, exactly the resolved route's button is marked "page" |
| `Router.PageRoot.Clear` | public/js/router.js:98 | the root shows no page, and one clear is appended to its log |
| `Router.PageRoot.Mount` | public/js/router.js:101-108 | the root shows the route's page, and a new detach function for this root is returned and named in the one mount appended to the log |
| `Router.Detach.Call` | public/js/router.js:93-97 | the call is appended to the root's log whether or not it throws, and the page shown is unchanged |
| `Router.Dashboard.constructor` | public/js/router.js:56 | the lifecycle starts with no detach function |
| `Router.Dashboard.SetActiveNav` | public/js/router.js:58-65 | the nav items become `MarkAll` of the old items for the given key |
| `Router.Dashboard.ApplyModeGating` | public/js/router.js:67-77 | the mode text and the disabled buttons become `ModeGating` of the current record |
| `Router.Dashboard.Render` | public/js/router.js:79-109 | the title and nav marks are those of the resolved route; the root's own log shows the previous detach function, if any, called exactly once, then the root cleared, then the resolved page mounted, and a throw from the detach is swallowed; `currentUnmount` becomes the detach function the new mount returned, the one its `Mounted` event names, so the next render's `Unmounted` refers to it; label, gating, hash and redirect are unchanged |
| `Router.Dashboard.OpenFor` | public/js/router.js:101-107 | a page's `open` callback makes the init calls, then exactly one `open` with the route's component; the second init inside `openComponent` makes no call; on failure the binder's instance, bound user and SDK trace are unchanged, and when the instance is reused it is the old one |
| `Router.Dashboard.EnsureSession` | public/js/router.js:136-145 | loads the stored record and returns true iff it has an active user; without one it redirects to the sign-in page; with one it shows the label (or the id) and applies the gating |
| `Router.Dashboard.Start` | public/js/router.js:152-157 | the stored record is loaded; without an active user the browser goes to the sign-in page and title, nav marks, gating, label, detach function and root are unchanged; otherwise the label and gating are set and the route named by the hash is rendered as `Render` states |
| `Router.Dashboard.OnNavClick` | public/js/router.js:112-117 | renders the clicked key as `Render` states, then sets the hash to `#key`, which parses back to the key; gating, label and redirect are unchanged |
| `Router.Dashboard.OnHashChange` | public/js/router.js:147-150 | renders the route named by the current hash as `Render` states; the hash, gating, label and redirect are unchanged |
| `Router.Dashboard.OnSwitchUser` | public/js/router.js:120-124 | the binder is torn down (no instance, no bound user), the state is cleared, and the browser goes to the sign-in page; title, gating, label, detach function, hash, nav marks and root are unchanged |
| `Router.Dashboard.OnToggleTheme` | public/js/router.js:126-133 | saves the flipped `dark` flag and nothing else, then passes the matching appearance to the instance's `update`, if it has one |
| `Router.ThemePatchKeepsAllowed` | public/js/router.js:130 | the theme toggle's write keeps the store invariant |
| `Auth.AsList` | public/js/auth.js:62-67 | a field that is missing or not an array becomes the empty list |
| `Auth.Normalize` | public/js/auth.js:62-67 | each cached list is the response's list when it is an array, else empty |
| `Auth.InferMode` | public/js/auth.js:132 | the mode is `decentralized` iff the referral list is non-empty, else `centralized` |
| `Auth.OfferedList` | public/js/auth.js:29-30 | the referral list is offered when decentralized, the children list otherwise |
| `Auth.NoReferralsMeansCentralized` | public/js/auth.js:62-72 | a response without referral customers gives centralized mode, offers the children, and enables only carriers |
| `Auth.OptionLabel` | public/js/auth.js:41 | the option text is `name — id` when a name is present, else the id |
| `Auth.SavedLabel` | public/js/auth.js:138 | the saved label is `name (id)` for a found user with a name, else the id |
| `Auth.LabelsEndWithId` | public/js/auth.js:41 | the option label ends with the id; the saved label is the id when there is no name, and otherwise ends with the id followed by `)` |
| `Auth.Find` | public/js/auth.js:134 | finds nothing iff no user has the id; what it finds has that id and is in the list |
| `Auth.FindFirst` | public/js/auth.js:134 | what it finds is the first user with the id |
| `Auth.FindsSelectedUser` | public/js/auth.js:121-134 | with distinct ids, the value of the option built for a user finds that user |
| `Auth.TrimStart` | public/js/auth.js:98 | removes exactly the leading white space |
| `Auth.TrimEnd` | public/js/auth.js:98 | removes exactly the trailing white space |
| `Auth.LeadingSpace` | public/js/auth.js:98 | the length of the maximal leading white-space run |
| `Auth.Trim` | public/js/auth.js:98 | the trimmed id is the input's slice after its leading white space, and everything after the slice is white space; it is empty iff the input is all white space; otherwise it neither starts nor ends with white space |
| `Auth.TrimIdempotent` | public/js/auth.js:98 | trimming twice is trimming once |
| `Auth.ManualPatch` | public/js/auth.js:97-115 | an id that trims to empty saves nothing; otherwise the trimmed id is both id and label, the mode is the inferred one and the flags are `computeAllowed(mode)` |
| `Auth.ContinuePatch` | public/js/auth.js:120-141 | an empty selection saves nothing; otherwise the id, the saved label of the found user, the inferred mode and `computeAllowed(mode)` |
| `Auth.SelectionKeepsInvariant` | public/js/auth.js:110-141 | every state write of the sign-in page keeps the store invariant in memory and in storage |
| `Auth.Placeholder` | public/js/auth.js:33-35 | the first option has value "" and says "No users found" iff the list is empty |
| `Auth.ModeHelp` | public/js/auth.js:49-51 | the help text names decentralized billing iff there are referral customers, centralized billing iff there are none |
| `Auth.RenderOptions` | public/js/auth.js:32-44 | a placeholder with value "" comes first, then one option per user in list order, each with the user's id as value and its option label as text |
| `Auth.UserPicker.constructor` | public/js/auth.js:18 | the cache starts with both lists empty |
| `Auth.UserPicker.BuildUserOptions` | public/js/auth.js:20-52 | the select shows the rendered options for the offered list; it is disabled iff that list is empty; continue is disabled; the help text names the mode |
| `Auth.UserPicker.LoadUsers` | public/js/auth.js:54-87 | on failure the cache is kept and a disabled "Failed to load" select is shown; on success the cache holds the normalised lists and the options are rebuilt |
| `Auth.UserPicker.OnSelectChange` | public/js/auth.js:89-91 | the continue button is disabled iff the selected value is empty |
| `Auth.UserPicker.OnUseManual` | public/js/auth.js:97-118 | an input that trims to empty changes nothing; otherwise the manual patch is saved, the select is cleared and disabled, and the browser goes to the dashboard |
| `Auth.UserPicker.OnContinue` | public/js/auth.js:120-144 | an empty selection changes nothing; otherwise the continue patch is saved and the browser goes to the dashboard |
| `Auth.UserPicker.Start` | public/js/auth.js:146-148 | page load clears the stored session, then loads the directory: on failure the cache is kept and the "Failed to load" view shown, on success the cache is normalised and the options rebuilt; the page does not navigate |

## Left out

- The backend (`server.js`) and the fetch wrappers (`public/js/api.js`) are network I/O. The directory response reaches the model as a parameter of `LoadUsers`; `None` stands for a failed request.
- The page modules (`public/js/pages/*.js`) are DOM templates. A page's `mount` is `PageRoot.Mount`, and whether the detach function it returns throws is a parameter. No claim is made that detaching leaves no listener. The returned function removes `open`, but the listener that was registered is a different arrow function (`public/js/pages/carriers.js:11`, `:19`).
- The DOM itself, `innerHTML`, the log area and its `JSON.stringify` formatting, and the registration of event listeners (`wireNav`) are abstracted away. Each handler is a method of `Dashboard` or `UserPicker`.
- The "Loading…" option that `loadUsers` shows while the request is in flight is overwritten before any other step can observe it, because the model is sequential.
- Session storage and JSON are a map from key to `Stored`. A whole record is assumed to survive serialisation unchanged. An empty string and text that fails to parse are both `Unreadable`. A parsed value that is not an object (for example `null`) is a patch with no keys.
- Stored records are typed. A record with extra `allowed` keys or values of other types cannot be expressed.
- Route and flag lookups treat every key other than the four names as unknown. In JavaScript, prototype names such as `constructor` would read as truthy and make `render` throw; the model does not cover them.
- The SDK's session-fetch callback calls the session endpoint for the user who is active at call time. It is not modelled; `InitOptions` records only the fonts and the appearance. The SDK's `init` is assumed to return an instance with an `open` method, and `open` and `update` are assumed not to throw.
- Concurrency is left out: async handlers do not interleave. This is why the "Active user changed" guard in `openComponent` cannot fire in the model (`OpenNeverReportsUserChanged`).
- Embeddables.Binder.InitEmbeddables: requires the binder invariant `Valid` (an instance exists iff a user is bound, and it came from this SDK). It excludes three states. The first is an instance with an empty bound user, which no code path produces. The second is a bound user with no instance, which the JavaScript reaches only when the SDK's `init` returns a falsy value (`public/js/embeddables.js:55`, `:66`); the model assumes `init` returns an instance (see the session-fetch line above). The third is an instance from another SDK, which cannot arise because there is one SDK global. The constructor establishes `Valid` and every method keeps it. The same requirement holds for the binder's other methods and for `Router.Dashboard.OpenFor`, `OnSwitchUser` and `OnToggleTheme`.
- Router.Dashboard.Render: requires that the kept detach function belongs to the page's root (`OwnsDetach`). The constructor starts with none and only `PageRoot.Mount` of that root supplies one, so every reachable state meets it. `Start`, `OnNavClick` and `OnHashChange` require the dashboard invariant `Valid` for the same reason.
- Router.HashRoundTrip: the hash is the string written. A browser reports an empty fragment as `""` and percent-encodes characters such as spaces, so after `history.replaceState` the browser gives the round trip only for the four route names, which need no encoding.
- User names are strings, with an absent name as the empty string. Non-string names and ids are not modelled.
- The font URL and the colour token values are constants with no behaviour.
