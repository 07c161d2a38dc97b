# ActionSphere client core in Dafny

This project models the core of the ActionSphere React client. ActionSphere is a community forum where signed-in users post threads, react to them and follow categories. The part of the client modelled here covers:

- **The route table** (`Routes`). A path and the in-memory token decide which of the eleven routes renders and whether the guard redirects instead. `/login` is for visitors without a token. Every other route needs a token. Matching is case-insensitive on literal segments, as react-router's is by default. A path no route matches renders nothing.
- **The session** (`Session`). `Browser` models `localStorage` and the navigation history. `App` holds the `token` state, which is seeded from storage when the component mounts. Its `handleLogout` clears the stored copy and the in-memory copy.
- **The login page** (`Login`). `handleLogin` is modelled as the sequence of observable steps it takes: the page's `error` state set, a request, the token stored and handed to the app, a navigation. The two server answers are inputs.
  - `LoginSteps` is the specification of that sequence.
  - `Run` gives its effect on the page and session state.
  - `LoginPage.HandleLogin` performs the steps on the objects and is proved to match both.
- **The explore page** (`Explore`). It covers:
  - the fetched thread list;
  - the search filter on title and content;
  - the like and chill toggles, whose partial responses are merged into the thread with the same id;
  - the spinner, the error, the empty message and the mood colours.
- **The preferences page** (`Preferences`). It covers the category toggle, the category search, the rule that enables the save button, and the submit transitions.
- **The settings page** (`Settings`). It covers:
  - field edits;
  - normalisation of the fetched record;
  - the 401 branch;
  - the alert text of a save;
  - the effects of deleting the account.

  The handlers model the 401 and delete paths as written: only the stored token is removed. `...Corrected` copies of the same handlers clear both copies of the token; see "## Findings".

`Wrappers`, `Text` and `Seqs` hold the JavaScript primitives the pages rely on: `||` fallbacks on optional values, `toLowerCase`, `includes`, `trim`, `join` and `Array.prototype.filter`.

HTTP calls, timers and the DOM are not modelled. The outcome of each request is a parameter of the handler that awaits it: a success value or a failure. A handler that sends an authorised request returns it as a value: the bearer read from storage (`None` where the page would send the text `null`) and, where there is one, the body.

## Model

| member | source | states |
|---|---|---|
| Wrappers.Get | src/components/App.tsx:9-11 | `getItem` yields a value exactly when the key is stored, and then the stored value |
| Text.LowerChar | src/pages/ExplorePage.tsx:113 | an upper-case letter becomes its lower-case letter (code point plus 32), any other character is kept, and the result is never upper case |
| Text.Lower | src/pages/ExplorePage.tsx:113 | `toLowerCase` keeps the length and lowers each character |
| Text.LowerIdempotent | src/pages/ExplorePage.tsx:113 | lowering twice is lowering once |
| Text.Includes | src/pages/ExplorePage.tsx:113-114 | `includes` holds exactly when the query is a prefix of some suffix of the text |
| Text.IncludesEmpty | src/pages/Preferences.tsx:47-49 | every text includes the empty query |
| Text.TrimStart | src/pages/Login.tsx:16 | the result is a suffix of the input that does not start with white space |
| Text.TrimEnd | src/pages/Login.tsx:16 | the result is a prefix of the input that does not end with white space |
| Text.Trim | src/pages/Login.tsx:16 | `trim()` is no longer than the input and neither starts nor ends with white space |
| Text.TrimFactor | src/pages/Login.tsx:16 | `trim()` is the piece of the input between a white-space prefix and a white-space suffix |
| Text.TrimEmptyIffBlank | src/pages/Login.tsx:16 | `trim()` is empty exactly when every character is white space (`IsBlank`) |
| Text.Join | src/pages/Settings.tsx:93 | no parts give ""; one part gives that part; the first part starts the result; with two or more parts, the first part and the separator start it |
| Text.JoinSnoc | src/pages/Settings.tsx:93 | joining one more part appends the separator and that part, which, with the one-part case of `Join`, fixes the value of every join |
| Text.JoinPair | src/pages/Settings.tsx:93 | two parts are joined as `a + sep + b` |
| Text.JoinEmptyIff | src/pages/Settings.tsx:93 | with a non-empty separator, the join is "" exactly when there are no parts or one empty part |
| Seqs.Filter | src/pages/ExplorePage.tsx:111-115 | `filter` gives an ordered sub-list, keeps each element that satisfies the predicate as often as it occurs, and drops every other element |
| Seqs.FilterCountStep | src/pages/ExplorePage.tsx:111-115 | the multiplicities of a filtered list follow from those of its filtered tail |
| Seqs.FilterAll | src/pages/ExplorePage.tsx:111-115 | when every element satisfies the predicate, the whole list is kept |
| Seqs.FilterNoDuplicates | src/pages/Preferences.tsx:42 | a list without duplicates stays without them |
| Seqs.FilterAppend | src/pages/Preferences.tsx:42 | filtering a concatenation is concatenating the filtered parts |
| Routes.HasToken | src/routes/index.tsx:25-75 | a token is truthy when present and non-empty |
| Routes.SegmentMatches | src/routes/index.tsx:23-76 | a parameter matches any segment; a literal matches a segment equal to it after lower-casing |
| Routes.Matches | src/routes/index.tsx:23-76 | a pattern matches a path of its length, segment by segment |
| Routes.Decide | src/routes/index.tsx:23-76 | the guest-only route renders exactly when there is no token and otherwise redirects to `/`; the others render exactly with a token and otherwise redirect to `/login` |
| Routes.FirstMatch | src/routes/index.tsx:21-77 | the index of a route whose pattern matches, or none when no pattern matches |
| Routes.Table | src/routes/index.tsx:21-77 | the eleven routes in declaration order: `/login` for guests only, every other path for signed-in users, each with its page |
| Routes.Resolve | src/routes/index.tsx:21-77 | an element exactly when some route matches the path |
| Routes.Settle | src/routes/index.tsx:25-75 | no route gives nothing; a rendered page is the page; a redirect gives a page exactly when its target renders one, and then it is that page |
| Routes.PatternsDisjoint | src/routes/index.tsx:23-76 | no path matches two routes, so the order of declaration cannot change the answer |
| Routes.ResolveRoute | src/routes/index.tsx:23-76 | a path matching route `i` gets route `i`'s element |
| Routes.LoginRoute | src/routes/index.tsx:23-26 | `/login` renders the login page without a token and redirects to `/` with one |
| Routes.ProtectedRoute | src/routes/index.tsx:28-76 | every other route renders its page with a token and redirects to `/login` without one |
| Routes.GuardInvariant | src/routes/index.tsx:23-76 | the login page is rendered exactly when there is no token |
| Routes.NoRedirectLoop | src/routes/index.tsx:25-75 | the target of every redirect renders a page |
| Routes.SettleTotal | src/routes/index.tsx:23-76 | every matched path settles on a page, and that page is the login page exactly when there is no token |
| Routes.CategoriesPages | src/routes/index.tsx:48-56 | `/categories/:id` and `/categories` give the same element |
| Routes.ProfilePages | src/routes/index.tsx:63-71 | `/users/:userId` and `/profile` give the same element |
| Session.Browser.constructor | src/components/App.tsx:10 | storage starts as given and the history empty |
| Session.Browser.StoredToken | src/components/App.tsx:10 | the stored token is present exactly when the `token` key is stored |
| Session.Browser.SetItem | src/pages/Login.tsx:27 | `setItem` writes one key and does not navigate |
| Session.Browser.RemoveItem | src/components/App.tsx:14 | `removeItem` deletes one key and does not navigate |
| Session.Browser.Navigate | src/pages/Login.tsx:39-41 | a navigation appends its target to the history and leaves storage alone |
| Session.Logout | src/components/App.tsx:13-16 | the token is gone from storage and memory, every other stored key keeps its value, and both copies agree |
| Session.LogoutIdempotent | src/components/App.tsx:13-16 | a second logout changes nothing |
| Session.LogoutLocksProtectedPaths | src/components/App.tsx:13-16 | after logout every protected path redirects to `/login` |
| Session.LogoutLandsOnLogin | src/components/App.tsx:13-16 | after logout every matched path ends on the login page |
| Session.App.constructor | src/components/App.tsx:9-11 | the in-memory token starts as the stored one, so both copies agree |
| Session.App.Screen | src/components/App.tsx:22-24 | the page the router shows for the last navigation target, after its redirect |
| Session.App.SetToken | src/pages/Login.tsx:28 | the in-memory token becomes the given one |
| Session.App.HandleLogout | src/components/App.tsx:13-16 | the new session state is `Logout` of the old one, and the history is unchanged |
| Login.ErrorMessage | src/pages/Login.tsx:46-48 | the server's non-empty `error`, or else the generic message |
| Login.Destination | src/pages/Login.tsx:35-42 | `/preferences` exactly when the categories are absent or empty, `/` otherwise |
| Login.LoginSteps | src/pages/Login.tsx:15-50 | a blank username only shows the validation error; otherwise the untrimmed username is posted first; the run ends with an error or a navigation; it navigates exactly when both calls succeed and the preferences are present, and then to `Destination`; a rejected login shows its message and stores nothing |
| Login.LoginStepsOrder | src/pages/Login.tsx:15-50 | a blank username sends no request; the token is stored and given to the app right before it is used as the bearer; no error or navigation comes before the last step |
| Login.Outcome | src/pages/Login.tsx:31-49 | after the token is stored: a navigation exactly when the user fetch succeeds with `preferences`, and then to `Destination`; otherwise an error |
| Login.Perform | src/pages/Login.tsx:17-44 | an error sets the page's error; storing sets the stored token; handing over sets the app's token; a navigation is appended; requests change nothing locally |
| Login.Run | src/pages/Login.tsx:15-50 | the steps performed in order |
| Login.RunAppend | src/pages/Login.tsx:15-50 | running one more step is performing it after the others |
| Login.RunKeepsToken | src/pages/Login.tsx:15-50 | steps without a token step leave the storage and the token alone |
| Login.RunKeepsHistory | src/pages/Login.tsx:15-50 | steps without a navigation leave the history alone |
| Login.BlankUsername | src/pages/Login.tsx:16-19 | a blank username changes only the error |
| Login.LoginRejected | src/pages/Login.tsx:21-49 | a rejected login changes only the error |
| Login.PreferencesFetchFailed | src/pages/Login.tsx:27-49 | a failed user fetch leaves the token in both places and sets the page's `error` state to the message, without navigating |
| Login.PreferencesMissing | src/pages/Login.tsx:35-49 | a user without `preferences` leaves the token and sets the page's `error` state to the generic message |
| Login.LoginSucceeded | src/pages/Login.tsx:23-42 | success stores the token in both places, which agree, keeps the error and navigates once to `Destination` |
| Login.LoginErrorUnseen | src/pages/Login.tsx:27-49 | when the user fetch fails or has no `preferences`, the error is set without a navigation, yet `/login` now settles on the home page, because the token was handed to the app first |
| Login.LoginLandsOnPage | src/pages/Login.tsx:38-42 | with a non-empty token the router then shows the onboarding page or the home page |
| Login.LoginPage.constructor | src/pages/Login.tsx:11-12 | the username starts empty and there is no error |
| Login.LoginPage.SetUsername | src/pages/Login.tsx:11 | the username takes the typed value |
| Login.LoginPage.Do | src/pages/Login.tsx:17-42 | each step has the effect `Perform` describes on the page, the storage, the app and the history |
| Login.LoginPage.Then | src/pages/Login.tsx:15-50 | performs one step and records it after the earlier ones |
| Login.LoginPage.SignIn | src/pages/Login.tsx:27-42 | stores the token, gives it to the app, fetches the user and ends with `Outcome`, in that order |
| Login.LoginPage.HandleLogin | src/pages/Login.tsx:15-50 | the steps taken are `LoginSteps` of the username and responses, and the new state is `Run` of those steps |
| Explore.MergeThread | src/pages/ExplorePage.tsx:88 | `{ ...t, ...res.data }`: each present response field replaces the thread's |
| Explore.MergeNoChange | src/pages/ExplorePage.tsx:88 | a response without fields leaves the thread as it was |
| Explore.MergeIdempotent | src/pages/ExplorePage.tsx:88 | merging the same response twice is merging it once |
| Explore.MergeOverrides | src/pages/ExplorePage.tsx:88 | for each of the eleven fields, a field in the response wins and an absent field keeps the thread's value |
| Explore.MergeById | src/pages/ExplorePage.tsx:87-89 | the length is kept; the thread with the id is merged and every other thread is unchanged |
| Explore.MergeByIdAbsent | src/pages/ExplorePage.tsx:87-89 | an id no thread carries leaves the list unchanged |
| Explore.MergeByIdIdempotent | src/pages/ExplorePage.tsx:87-89 | repeating the same response changes nothing more |
| Explore.LikeExample | src/pages/ExplorePage.tsx:79-93 | a like on thread 7 sets its count and flag and leaves every other thread alone |
| Explore.Toggled | src/pages/ExplorePage.tsx:79-109 | a failed toggle keeps the list; a successful one merges the response into the thread with the id and nothing else |
| Explore.ThreadMatches | src/pages/ExplorePage.tsx:112-114 | a thread matches when its lower-cased title or its lower-cased content includes the lower-cased query |
| Explore.FilterThreads | src/pages/ExplorePage.tsx:111-115 | an ordered sub-list that keeps every thread whose lower-cased title or content includes the lower-cased query, as often as it occurs, and no other thread |
| Explore.FilterEmptyQuery | src/pages/ExplorePage.tsx:111-115 | an empty query keeps every thread |
| Explore.FilterIgnoresQueryCase | src/pages/ExplorePage.tsx:113-114 | the case of the query does not matter |
| Explore.MoodColors | src/pages/ExplorePage.tsx:42-48 | the five moods and their colours |
| Explore.MoodColor | src/pages/ExplorePage.tsx:42-163 | a known mood gets its colour and any other mood gets `#ccc` |
| Explore.KnownMoodColors | src/pages/ExplorePage.tsx:42-48 | the five moods get their five colours |
| Explore.EmptyMessage | src/pages/ExplorePage.tsx:157-159 | "No threads found." without a query, and "No threads found matching your search." with one |
| Explore.Render | src/pages/ExplorePage.tsx:117-163 | the spinner exactly while loading; then the error exactly when it is non-empty; then the empty message exactly when no thread matches; otherwise one card per matching thread, in order, with its mood colour |
| Explore.ExplorePage.constructor | src/pages/ExplorePage.tsx:51-54 | no threads and an empty query, with loading on and no error |
| Explore.ExplorePage.FetchThreads | src/pages/ExplorePage.tsx:60-77 | sends the stored bearer; the list on success, the load error on failure, and loading off either way |
| Explore.ExplorePage.SetSearchQuery | src/pages/ExplorePage.tsx:146 | only the query changes; the list is not filtered in place |
| Explore.ExplorePage.HandleLike | src/pages/ExplorePage.tsx:79-93 | the request carries the stored bearer and goes to `toggle_like`, and the list becomes `Toggled` of the old list and the response |
| Explore.ExplorePage.HandleChill | src/pages/ExplorePage.tsx:95-109 | the request carries the stored bearer and goes to `toggle_chill`, and the list becomes `Toggled` of the old list and the response |
| Preferences.ToggleCategory | src/pages/Preferences.tsx:40-44 | the id is selected afterwards exactly when it was not before; no other id changes membership; a list without duplicates stays so; a new id is appended at the end; removing a selected id keeps the other ids in their order and with their counts |
| Preferences.ToggleTwice | src/pages/Preferences.tsx:40-44 | toggling twice restores every membership, and restores the list exactly when the id started unselected |
| Preferences.CategoryMatches | src/pages/Preferences.tsx:48 | a category matches when its lower-cased name includes the lower-cased query |
| Preferences.FilterCategories | src/pages/Preferences.tsx:47-49 | an ordered sub-list that keeps every category whose lower-cased name includes the lower-cased query, as often as it occurs, and no other category |
| Preferences.FilterCategoriesEmptyQuery | src/pages/Preferences.tsx:47-49 | an empty query shows every category |
| Preferences.SaveEnabled | src/pages/Preferences.tsx:207 | save is enabled when something is selected and nothing is loading |
| Preferences.SaveEnabledAfterToggle | src/pages/Preferences.tsx:207 | after a toggle, save is enabled exactly when nothing is loading and some id remains selected |
| Preferences.PreferencesPage.constructor | src/pages/Preferences.tsx:17-23 | no categories, no selection, an empty query, not loading and no error |
| Preferences.PreferencesPage.FetchCategories | src/pages/Preferences.tsx:26-37 | the categories on success, the fetch error on failure, and nothing else changes |
| Preferences.PreferencesPage.HandleCategorySelection | src/pages/Preferences.tsx:40-44 | the selection becomes `ToggleCategory` of the old selection, and nothing else changes |
| Preferences.PreferencesPage.SetSearchQuery | src/pages/Preferences.tsx:122 | only the query changes |
| Preferences.PreferencesPage.HandleSubmit | src/pages/Preferences.tsx:52-82 | sends the selection with push on and the stored bearer; shows loading with no error while in flight; afterwards loading is off, and it goes to `/settings` on success or shows the save error on failure |
| Settings.WithField | src/pages/Settings.tsx:67-73 | the named field takes the value and the other two are untouched |
| Settings.WithFieldOverwrites | src/pages/Settings.tsx:67-73 | a second edit of the same field replaces the first |
| Settings.WithFieldCommutes | src/pages/Settings.tsx:67-73 | edits of different fields commute |
| Settings.IsOk | src/pages/Settings.tsx:44 | `response.ok`: a status from 200 to 299 |
| Settings.Normalise | src/pages/Settings.tsx:53-57 | missing name and bio become "", a missing or empty e-mail becomes `null`, and any other value is kept |
| Settings.NormaliseRoundTrip | src/pages/Settings.tsx:53-57 | a normalised record sent back and normalised again is unchanged |
| Settings.NormaliseIdempotent | src/pages/Settings.tsx:53-57 | normalising is idempotent |
| Settings.SaveMessage | src/pages/Settings.tsx:91-99 | the success text; the errors joined with ", ", or the fallback when that join is empty or there are no errors; or the thrown error's message |
| Settings.StaleTokenPassesLogin | src/pages/Settings.tsx:45-47 | a token left in memory sends `/login` on to the home page |
| Settings.SettingsSignOutCounterexample | src/pages/Settings.tsx:45-47 | empty storage with the in-memory token "abc" is out of sync, and `/login` then shows the home page |
| Settings.SettingsPage.constructor | src/pages/Settings.tsx:24-28 | the record starts with empty name and bio, and a `null` e-mail |
| Settings.SettingsPage.EndSessionAsWritten | src/pages/Settings.tsx:116-117 | removes only the stored token and navigates to `/login`; the in-memory token stays, so with a token the home page is shown, and without one the login page |
| Settings.SettingsPage.EndSession | src/components/App.tsx:13-16 | clears both copies of the token, navigates to `/login`, and the login page is shown |
| Settings.SettingsPage.FetchUserData | src/pages/Settings.tsx:33-65 | sends the stored bearer; an OK answer replaces the record with its normalised form; a 401 removes only the stored token and navigates to `/login`, so with a token in memory the home page is shown; any other failure changes nothing; the in-memory token never changes |
| Settings.SettingsPage.FetchUserDataCorrected | src/pages/Settings.tsx:33-65 | as `FetchUserData`, but a 401 clears both copies of the token and the login page is shown |
| Settings.SettingsPage.HandleInputChange | src/pages/Settings.tsx:67-73 | the record becomes `WithField` of the old record |
| Settings.SettingsPage.HandleSave | src/pages/Settings.tsx:75-101 | sends the stored bearer and the whole record, and returns `SaveMessage` of the response |
| Settings.SettingsPage.HandleDeleteAccount | src/pages/Settings.tsx:103-123 | sends the stored bearer; after a deletion only the stored token is removed and `/login` is requested, so with a token in memory the home page is shown; after a failure storage and history are unchanged; the in-memory token never changes |
| Settings.SettingsPage.HandleDeleteAccountCorrected | src/pages/Settings.tsx:103-123 | as `HandleDeleteAccount`, but a deletion clears both copies of the token and the login page is shown |

## Left out

- `alert` and `console` calls are not modelled: `handleLogout`'s message, the alert after login, the settings alerts other than the save text, and the logged errors. They are output only.
- Login.LoginPage.HandleLogin: once `setToken` runs, the router puts `<Navigate to="/">` in place of the login page, so the page unmounts while the user fetch is still in flight. The model keeps the page's state after that point, so an error it sets is never displayed (`Login.LoginErrorUnseen`).
- Interleaving of asynchronous handlers is not modelled. A handler runs to completion with its responses given. A component that unmounts while a request is in flight is not modelled either.
- JSX layout, styling and `theme.ts` are not modelled. `Navbar.tsx` is not part of this model.
- The `isLoggedIn` prop of the navigation bar is not modelled.
- `Session.Browser.Navigate`: the full page load of `window.location.href = "/settings"` is recorded as a plain navigation. The reload that would seed `App` from storage again is not modelled.
- `Text.Lower`: lowers ASCII `A`–`Z` only, not full Unicode case mapping.
- `Text.TrimStart`/`Text.TrimEnd`: treat ASCII white space, U+00A0, U+2028, U+2029 and U+FEFF as white space, but not the other Unicode space separators.
- JSON values of the wrong type are not modelled, for example a number where a string is expected, or an `errors` field that is not an array. Fields are present with the right type, or absent.
- `Explore.MoodColor`: a mood that names an `Object.prototype` member, such as `"constructor"`, is treated like any unknown mood.
- `Login.Destination`: categories are modelled as an array. `Object.keys` of a non-array object is not modelled.
- `Login.LoginSteps`: the login token is a string. A response without `token` is not modelled.
- The open/closed state of the delete dialog on the settings page is not modelled.
- react-router's ranking of routes is not modelled; `Routes.PatternsDisjoint` shows that the order of declaration gives the same answer. Trailing slashes and empty segments are not modelled.
- A failure of `response.json()` on the settings page is not modelled.
- The request bodies other than the ones returned are not modelled. This covers the wire format and the `Content-Type` header.

## Findings

| source | as written | input that shows it | evidently intended | confidence | as-written member | corrected member |
|---|---|---|---|---|---|---|
| src/pages/Settings.tsx:45-47 | on a 401 (and likewise after deleting the account), only `localStorage.removeItem("token")` runs before `navigate("/login")` (both through `EndSessionAsWritten`; `SettingsSignOutCounterexample` gives the concrete state; the corrected handlers use `EndSession`). `App`'s in-memory token stays set, so the `/login` route redirects to `/` | stored token present, `App` token `"abc"`, `GET /api/v1/user` answers 401: storage becomes empty, the token stays `"abc"`, and `/login` shows the home page | ending the session clears both copies, as `App`'s `handleLogout` does, so the login page is shown | not executed | Settings.SettingsPage.FetchUserData | Settings.SettingsPage.FetchUserDataCorrected |
