# Work-log app: a verified model of its state logic

The application is a React/Redux work-log tracker backed by Supabase. Signed-in
users record what they worked on (project, task, hours, status, date), keep the
entries private or make them public, and browse everyone's public entries. This
project models the parts of it that decide things:

- **`AuthSlice`** models `src/features/auth/authSlice.js`. It holds:
  - the auth record `{session, profile, isLoading, error}` as the class `AuthStore`, whose methods are the reducers and the thunk lifecycle cases;
  - the profile provisioning rule (`NewProfile`, `ResolveProfile`);
  - the thunks `fetchUserProfile`, `signInUser` and `signOutUser`, as methods that dispatch the reducer cases in the order the code does.
- **`WorkLogSlice`** models `src/features/workLog/workLogSlice.js`. It holds:
  - the record `{myEntries, publicEntries, isLoading, error}` as the class `WorkLogStore`;
  - the uniform pending/fulfilled/rejected cases;
  - the four thunks;
  - the `work_log_entries` table as a sequence of rows. The owner filter, the public filter, the two-key newest-first order, and the id-and-owner scoping of updates and deletes are stated over that sequence.
- **`App`** models `src/App.jsx`:
  - the bootstrap effect with its missing-client guard;
  - the auth-state listener (session, profile fetch or clear, redirect, loading);
  - the initial-session continuation;
  - the route guard that picks the screen.
- **`Dashboard`** models `src/DashboardPage.jsx`:
  - the page's `useState` hooks as the class `PageState`;
  - validation of the entry form and the `entryData` it builds;
  - the form toggle, edit, submit and delete handlers;
  - the accordion;
  - the per-tab fetch/clear effects;
  - the share link, the logged-in label and the error banner's close button.
- **`ViteConfig`** models `manualChunks(id)` from `vite.config.js`, which names a vendor chunk after the package directory.
- **`JsValues`** and **`JsStrings`** model the JavaScript behaviour the code relies on:
  - `null`/`undefined` and truthiness, `||`;
  - the settled result of an async thunk;
  - `includes`/`indexOf`, `split` with a non-empty separator, `trim`;
  - the text order in which ISO-8601 dates and timestamps sort.

Backend calls are not executed. Each one becomes a parameter that carries its answer:
- `BackendReply`, `ProfileLookup`, `InsertReply` (carrying the row the insert returns), `AuthReply`, `SessionQuery`;
- the id the database assigns to an inserted row;
- the table the query runs over.

`parseFloat`, the clock, `Number.prototype.toString` and `window.location.origin` are parameters too. A thunk method runs the thunk to completion, in the order Redux Toolkit dispatches its actions:
1. the `pending` case;
2. the payload creator's own dispatches, ending with its `finally`;
3. the `fulfilled` or `rejected` case.

The model follows the code as written:
- Nothing guards against stale session results. The listener and the initial-session query both call `setSession` unconditionally (`App.InitialSessionAfterEvent`).
- Nothing deduplicates profile provisioning.
- The listener does not await the profile fetch it dispatches. `App.OnAuthStateChange` therefore runs only that fetch's `pending` case and returns the request. The fetch settles later, through `AuthStore.FetchUserProfileSettled`.

## Model

| member | source | states |
|---|---|---|
| AuthSlice.FirstTruthy | src/features/auth/authSlice.js:41-44 | `c0 \|\| c1 \|\| … \|\| fallback`: the result is one of the candidates or the fallback |
| AuthSlice.FirstTruthyIsFirst | src/features/auth/authSlice.js:41-44 | the result is the fallback when no candidate is truthy, and otherwise a truthy candidate with no truthy candidate before it |
| AuthSlice.NewProfileFields | src/features/auth/authSlice.js:37-47 | a new profile has id = userId; its display_name is the first truthy of metadata display_name, full_name and name, else the email (truthy iff one of the four is); avatar_url is the metadata avatar when truthy, else null |
| AuthSlice.ResolveProfile | src/features/auth/authSlice.js:15-70 | `fetchUserProfile`'s payload creator. A found profile is returned unchanged. An insert is requested iff the lookup failed with 'PGRST116' and a user object was given, and the profile sent to the insert is the built one. A successful insert fulfils with the row the backend returns. A missing user rejects with "User data not available for profile creation.". Any other lookup error rejects with its message, and so does an insert error. The result is fulfilled iff the profile was found or the insert succeeded |
| AuthSlice.ResolvedProfileBelongsToUser | src/features/auth/authSlice.js:18-59 | when the lookup returns only the requested user's row and the insert returns a row with the id it was sent, a fulfilled fetch always yields a profile whose id is that user's id |
| AuthSlice.AuthStore.constructor | src/features/auth/authSlice.js:4-9 | the initial state: no session, no profile, not loading, no error |
| AuthSlice.AuthStore.SetSession | src/features/auth/authSlice.js:139-143 | stores the session, ends loading, clears the error, keeps the profile |
| AuthSlice.AuthStore.SetProfile | src/features/auth/authSlice.js:144-146 | changes the profile only |
| AuthSlice.AuthStore.SetAuthLoading | src/features/auth/authSlice.js:147-149 | changes the loading flag only |
| AuthSlice.AuthStore.SetAuthError | src/features/auth/authSlice.js:150-153 | stores the error and forces loading off; session and profile stay |
| AuthSlice.AuthStore.ClearAuth | src/features/auth/authSlice.js:154-159 | gives the initial state whatever came before |
| AuthSlice.AuthStore.FetchUserProfilePending | src/features/auth/authSlice.js:164-167 | clears the error only |
| AuthSlice.AuthStore.FetchUserProfileSettled | src/features/auth/authSlice.js:168-177 | fulfilled sets the profile to the payload and clears the error; rejected sets the profile to null and the error to the payload or 'Failed to fetch user profile.'; neither touches session or loading |
| AuthSlice.AuthStore.FetchUserProfile | src/features/auth/authSlice.js:13-71 | the whole thunk: settles with `ResolveProfile`'s outcome and leaves the state the lifecycle cases give |
| AuthSlice.AuthStore.SignInUser | src/features/auth/authSlice.js:75-112 | calls signUp (with the display name) iff the mode is 'signup', else signInWithPassword. On an error it sets the auth error and rejects with the message. On success it fulfils with the reply's session, after the profile fetch for the reply's user has settled when there is a user. The session is never stored and loading always ends false |
| AuthSlice.AuthStore.SignOutUser | src/features/auth/authSlice.js:115-131 | on success the state is exactly the initial state; on failure the error is the message and session and profile stay; loading ends false |
| JsStrings.IndexFrom | vite.config.js:12 | a match is an occurrence at or after the start index |
| JsStrings.IndexFromIsFirst | vite.config.js:12 | no occurrence lies between the start and the match, and None means there is none at or after the start |
| JsStrings.IndexOfIsEarliest | vite.config.js:12 | `indexOf` gives the first occurrence, and -1 only when there is none |
| JsStrings.Split | vite.config.js:14 | `split` always yields at least one piece |
| JsStrings.SplitJoin | vite.config.js:14 | joining the pieces with the separator gives back the input |
| JsStrings.SplitPiecesFree | vite.config.js:14 | no piece contains the separator |
| JsStrings.SplitHead | vite.config.js:14 | piece 0 is the text before the first separator (all of it when there is none); there are two pieces or more iff the separator occurs |
| JsStrings.SplitLeadingPieces | vite.config.js:14 | when the separator occurs, piece 1 exists and is the text between the first and the next separator |
| JsStrings.TrimCutsOnlyWhitespace | src/DashboardPage.jsx:116-117 | `trim` returns a slice of its input that cuts off only whitespace and neither starts nor ends with whitespace |
| JsStrings.TrimIdempotent | src/DashboardPage.jsx:116-117 | trimming twice equals trimming once |
| JsStrings.LexLeqTotal | src/features/workLog/workLogSlice.js:21-22 | the text order is total |
| JsStrings.LexLeqAntisymmetric | src/features/workLog/workLogSlice.js:21-22 | the text order is antisymmetric |
| JsStrings.LexLeqTransitive | src/features/workLog/workLogSlice.js:21-22 | the text order is transitive |
| WorkLogSlice.ListedBeforeTotal | src/features/workLog/workLogSlice.js:21-22 | any two rows can be ordered by (entry_date desc, created_at desc) |
| WorkLogSlice.ListedBeforeTransitive | src/features/workLog/workLogSlice.js:21-22 | that two-key order is transitive |
| WorkLogSlice.ByRecencyAllPairs | src/features/workLog/workLogSlice.js:21-22 | a sequence ordered pair by pair is ordered between every earlier and later row |
| WorkLogSlice.Select | src/features/workLog/workLogSlice.js:20 | an `.eq` filter keeps a row iff it is in the table and passes, and keeps each passing row as often as it is stored |
| WorkLogSlice.InsertByRecency | src/features/workLog/workLogSlice.js:21-22 | inserting into an ordered sequence keeps it ordered and adds exactly that row |
| WorkLogSlice.SortByRecency | src/features/workLog/workLogSlice.js:21-22 | the result is ordered newest first and is a permutation of the input |
| WorkLogSlice.MyEntriesQueryExact | src/features/workLog/workLogSlice.js:17-22 | the own-entries query returns exactly the rows with user_id = userId, each as often as stored, ordered by entry_date desc then created_at desc |
| WorkLogSlice.PublicEntriesQueryExact | src/features/workLog/workLogSlice.js:44-49 | the public query returns exactly the rows with is_public = true, with the same multiplicity and order |
| WorkLogSlice.UpdateWhereOnlyMatching | src/features/workLog/workLogSlice.js:82-86 | an update keeps the table's length and rewrites exactly the rows carrying both the id and the user id |
| WorkLogSlice.DeleteWhereOnlyMatching | src/features/workLog/workLogSlice.js:112-116 | a delete removes exactly the rows carrying both the id and the user id and keeps every other row with its multiplicity |
| WorkLogSlice.SaveEntry | src/features/workLog/workLogSlice.js:72-93 | `addOrUpdateWorkLog`'s guard and branch. No write happens iff user_id is falsy, and then the thunk rejects with "User ID is missing.". The write is an update scoped to (id, user_id) iff both are truthy, otherwise an insert of one row. The result is fulfilled iff there is a user id and the backend succeeds. The table changes only when fulfilled |
| WorkLogSlice.SaveEntryUpdatesOnlyOwnRow | src/features/workLog/workLogSlice.js:80-86 | a successful save of an entry with an id keeps the table's length, rewrites only the caller's row with that id, and leaves every other user's row unchanged |
| WorkLogSlice.SaveEntryInsertsOneRow | src/features/workLog/workLogSlice.js:87-91 | a successful save of an entry without an id appends exactly one row, which carries the assigned id and the caller's user id, and keeps every existing row |
| WorkLogSlice.WorkLogStore.constructor | src/features/workLog/workLogSlice.js:4-9 | the initial state |
| WorkLogSlice.WorkLogStore.SetMyEntries | src/features/workLog/workLogSlice.js:137-141 | replaces myEntries, ends loading, clears the error, keeps publicEntries |
| WorkLogSlice.WorkLogStore.SetPublicEntries | src/features/workLog/workLogSlice.js:142-146 | replaces publicEntries, ends loading, clears the error, keeps myEntries |
| WorkLogSlice.WorkLogStore.SetWorkLogLoading | src/features/workLog/workLogSlice.js:147-149 | changes the loading flag only |
| WorkLogSlice.WorkLogStore.SetWorkLogError | src/features/workLog/workLogSlice.js:150-153 | stores the error and ends loading; both entry lists stay |
| WorkLogSlice.WorkLogStore.ClearWorkLogs | src/features/workLog/workLogSlice.js:154-159 | gives exactly the initial state |
| WorkLogSlice.WorkLogStore.Pending | src/features/workLog/workLogSlice.js:165-209 | every pending case sets loading and clears the error, nothing else |
| WorkLogSlice.WorkLogStore.Settle | src/features/workLog/workLogSlice.js:169-217 | every fulfilled case ends loading and clears the error; every rejected case ends loading and stores the payload or that thunk's fixed default message |
| WorkLogSlice.WorkLogStore.FetchMyWorkLogs | src/features/workLog/workLogSlice.js:12-36 | on success myEntries becomes the own-entries query's result; on failure the entries stay and the error is the message or the default; loading ends false |
| WorkLogSlice.WorkLogStore.FetchPublicWorkLogs | src/features/workLog/workLogSlice.js:39-63 | the same for publicEntries and the public query |
| WorkLogSlice.WorkLogStore.AddOrUpdateWorkLog | src/features/workLog/workLogSlice.js:66-104 | settles and writes as `SaveEntry` says; the entry lists are untouched, loading ends false; a rejection leaves its payload (so "User ID is missing.", not the longer message dispatched first) or the default as the error |
| WorkLogSlice.WorkLogStore.DeleteWorkLog | src/features/workLog/workLogSlice.js:107-129 | on success the table loses exactly the rows with that id and user id; on failure it is unchanged; loading ends false |
| App.RedirectAfterAuthEvent | src/App.jsx:37-48 | navigates to '/dashboard' iff the event has a user and the path is '/', '/login' or '/signup'; to '/login' iff it has none and the path is any other; otherwise nowhere |
| App.RedirectSettles | src/App.jsx:37-48 | the policy never navigates to the current page, and on the page it navigated to the same event asks for no further move |
| App.Render | src/App.jsx:73-116 | loading shows the loading screen. Otherwise the dashboard shows iff the path is a dashboard route and a session is stored; '/' shows the landing page; every other case shows the login page, in 'signup' mode iff the path is '/signup' |
| App.AuthEventThenRender | src/App.jsx:30-116 | after an event and its redirect, a signed-in user who was on a public page or the dashboard sees the dashboard, a visitor without a session never does, and a visitor without a user always ends on a public page |
| App.ProfileRequestFor | src/App.jsx:33-35 | a profile fetch is started iff the session has a user, for that user's id and object |
| App.Bootstrap | src/App.jsx:20-27 | without a usable client it sets the fixed error and neither raises loading nor subscribes; otherwise it raises loading and subscribes |
| App.OnAuthStateChange | src/App.jsx:30-51 | stores the event's session; starts the profile fetch for its user, or else sets the profile to null; navigates as `RedirectAfterAuthEvent` says; ends with loading false and no error |
| App.OnInitialSession | src/App.jsx:54-64 | a loaded session is stored and its user's profile fetch started; a failed query sets "Failed to get initial session."; loading ends false either way |
| App.InitialSessionAfterEvent | src/App.jsx:32-55 | the session stored last wins: an initial-session answer arriving after an event replaces the event's session, with no staleness check |
| Dashboard.SessionUserId | src/DashboardPage.jsx:102 | `session?.user?.id` is present iff the session has a user, and is that user's id |
| Dashboard.BuildEntryWith | src/DashboardPage.jsx:100-128 | a falsy user id gives the not-authenticated message. An empty project, task, hours or date gives the required-fields message. Otherwise hours that parse to NaN or to a number <= 0 give the positive-number message. The entry is built iff all checks pass. It has trimmed project and task, the session's user id, the parsed hours, the form's status, date and visibility, and created_at = now. It has an id iff an edit is in progress, and then that id |
| Dashboard.BuildEntry | src/DashboardPage.jsx:100-128 | with the hours held as text, a submission is accepted iff the user is signed in, project, task, hours and date are non-empty and the hours parse to a positive number; the entry carries the session's user id and the parsed hours |
| Dashboard.AsWrittenSubmitAlwaysRejected | src/DashboardPage.jsx:106-109 | with the hours hook as written (line 39), every submission is rejected: with the required-fields message when signed in, the not-authenticated message otherwise |
| Dashboard.AsWrittenRejectsCompleteForm | src/DashboardPage.jsx:39 | a complete, valid form is accepted by the intended handler and refused by the written one |
| Dashboard.BuiltEntryIsWritten | src/DashboardPage.jsx:115-130 | every built entry passes the slice's user-id guard; its write is an update of the edited entry (scoped to the signed-in user) iff an edit is in progress, else an insert; it succeeds iff the backend does |
| Dashboard.EditThenSubmitUpdatesSameRow | src/DashboardPage.jsx:139-147 | editing one's own entry and submitting it unchanged sends an update of that same row, whose stored values equal the entry's except created_at, which becomes the submit time |
| Dashboard.NextExpanded | src/DashboardPage.jsx:220 | the accordion collapses iff the toggled entry was the expanded one, and otherwise expands exactly that entry |
| Dashboard.ToggleTwiceRestores | src/DashboardPage.jsx:219-221 | toggling one entry twice restores the accordion when nothing or that entry was expanded |
| Dashboard.ToggleTwiceFromOtherEntry | src/DashboardPage.jsx:219-221 | it does not restore it when another entry was expanded: that entry ends collapsed |
| Dashboard.MyLogEffectFor | src/DashboardPage.jsx:68-74 | own entries are fetched iff the session has a user and the tab is 'my-log', for that user's id; they are cleared iff there is no user on that tab; other tabs do nothing |
| Dashboard.SharedEntryId | src/DashboardPage.jsx:184 | an id read back from a link rebuilds that link |
| Dashboard.ShareLinkRoundTrip | src/DashboardPage.jsx:180-185 | the entry id can be read back from its share link |
| Dashboard.ShareLinkInjective | src/DashboardPage.jsx:180-185 | different entries get different share links for the same origin |
| Dashboard.LoggedInLabel | src/DashboardPage.jsx:247-250 | the label is shown iff the session has a user |
| Dashboard.LoggedInLabelFallback | src/DashboardPage.jsx:250 | the label is the profile's display_name if truthy, else the email if truthy, else the user id |
| Dashboard.LoggedInLabelForNewProfile | src/DashboardPage.jsx:250 | for a profile the app provisioned, the label is the first truthy of metadata display_name, full_name, name and email, else the user id |
| Dashboard.PageState.constructor | src/DashboardPage.jsx:34-46 | the page starts on 'my-log' with the form hidden and blank and nothing expanded |
| Dashboard.PageState.ResetForm | src/DashboardPage.jsx:90-96 | every form field returns to its default ('' / 'In Progress' / today / not public / not editing) |
| Dashboard.PageState.ToggleAddEntryForm | src/DashboardPage.jsx:86-98 | flips visibility. It resets every field iff the form was shown or an edit was in progress, and otherwise keeps them. It keeps the invariant that a hidden form is blank, so a form opened for a new entry starts blank |
| Dashboard.PageState.ToggleAddEntryFormAsWritten | src/DashboardPage.jsx:86-98 | as written: the reset stops at the undefined hours setter, so status, date and visibility keep stale values |
| Dashboard.PageState.HandleEdit | src/DashboardPage.jsx:139-149 | loads every field of the entry, marks it as being edited and shows the form |
| Dashboard.PageState.HandleEditAsWritten | src/DashboardPage.jsx:139-149 | as written: only id, project and task are loaded, and the form is not opened (its visibility is unchanged) |
| Dashboard.PageState.InputChange | src/DashboardPage.jsx:330-406 | while the form is shown, a change event on the project, task, hours, status, date or public control sets that one field to the control's value; every other form field, the entry being edited, the form's visibility, the tab and the accordion stay |
| Dashboard.PageState.ToggleAccordion | src/DashboardPage.jsx:219-221 | updates the expanded id as `NextExpanded` says and nothing else |
| Dashboard.PageState.SetCurrentPage | src/DashboardPage.jsx:229-244 | switches the tab only |
| Dashboard.PageState.HandleAddOrUpdateEntry | src/DashboardPage.jsx:100-137 | a validation failure becomes the auth error and writes nothing. A valid entry is saved as `SaveEntry` says, and the work-log state afterwards has loading off and the error cleared, or the rejection's message (else the default) on failure, with both entry lists kept. When the save is fulfilled the form is toggled, so a shown form is hidden and reset; a failed save keeps the form. A hidden form stays blank |
| Dashboard.PageState.HandleDelete | src/DashboardPage.jsx:151-162 | without a signed-in user it sets "User not authenticated." and writes nothing; otherwise, once confirmed, the delete is scoped to that user, and the work-log state has loading off and the error cleared, or the reply's message (else the default) on failure, with both entry lists kept |
| Dashboard.PageState.RunMyLogEffect | src/DashboardPage.jsx:67-74 | the whole new work-log state: on 'my-log' with a user, a successful fetch sets the own entries to exactly that user's rows, and a failure keeps them and stores the message (else the default); without a user the own entries become empty and the error clears; other tabs change nothing; loading ends and the public entries are kept |
| Dashboard.PageState.RunPublicLogEffect | src/DashboardPage.jsx:76-83 | the whole new work-log state: on 'public-logs' a successful fetch sets the public entries to exactly the public rows, and a failure keeps them and stores the message (else the default); on any other tab the public entries are emptied and the error clears; loading ends and the own entries are kept |
| Dashboard.DismissErrors | src/DashboardPage.jsx:310 | closing the banner clears both errors and, as a side effect, ends both loading flags |
| ViteConfig.ManualChunksCases | vite.config.js:11-20 | no chunk name iff the id lacks 'node_modules'; a build error (the TypeError from indexing past the split) iff it has 'node_modules' but never 'node_modules/'; a name iff it has 'node_modules/' |
| ViteConfig.ChunkNameShape | vite.config.js:14 | a chunk name contains no '/' and is a prefix of the text after the first 'node_modules/' |
| ViteConfig.ChunkNameIsFirstSegment | vite.config.js:14 | the chunk name is the text after the first 'node_modules/' up to the next '/', whenever that text does not end in 'node_modules' |
| ViteConfig.FirstNodeModulesDirAt | vite.config.js:14 | when the text before a 'node_modules/' (with 'node_modules' after it) holds no 'node_modules/', that one is the first, and the split's second piece starts right after it |
| ViteConfig.ScopedPackageGroupsByScope | vite.config.js:14 | an id `<prefix>node_modules/<scope>/<path>` is grouped under `<scope>` when `<scope>` has no '/' (and does not end in 'node_modules') |
| ViteConfig.NestedNodeModulesGivesEmptyName | vite.config.js:14 | an id `<prefix>node_modules/node_modules/<tail>` gets the empty name '', not 'node_modules' |

## Left out

- Backend traffic is not modelled as traffic. This covers the Supabase queries, inserts, updates and deletes, and `signUp`, `signInWithPassword`, `signOut`, `getSession` and `onAuthStateChange`. Each answer is a parameter, and queries are stated over an abstract table. Row-level security and the realtime channel are not part of this model.
- `WorkLogSlice.PublicEntriesQuery` does not model the `profiles(display_name)` join. Rows carry only their own columns.
- `WorkLogSlice.ListedBefore` compares `entry_date` and `created_at` as text. This agrees with the database's date and timestamptz order only when every value has the same fixed ISO-8601 format (dates as YYYY-MM-DD, timestamps with the same precision and offset); other formats are not modelled.
- `WorkLogSlice.SortByRecency` fixes one order for rows equal on entry_date and created_at. The database may return such ties in any order.
- `App.Render`: React Router matches paths case-insensitively and ignores a trailing slash. The model compares paths exactly, and it matches the '/dashboard#submit-review' route on the literal path.
- Timing is not modelled. This covers races between the initial-session query and listener events, re-subscription when the path changes, and profile fetches that settle out of order. Each handler is modelled as one step, and `App.InitialSessionAfterEvent` shows one such interleaving.
- `Dashboard.BuildEntryWith`: `parseFloat` is a parameter, and `Infinity` is not modelled. The clock (`created_at`, today's date) is a parameter. The hours text `handleEdit` loads is a parameter, because `Number.prototype.toString` is not modelled.
- Whitespace-only text is accepted. The emptiness checks run on untrimmed text, so a whitespace-only project or task passes and is stored as ''. The model keeps this.
- Editing an entry resends `created_at`, so an update overwrites the creation time with the submit time. The model keeps this too (`Dashboard.EditThenSubmitUpdatesSameRow`).
- `AuthSlice.ResolveProfile`: a user object without `user_metadata` makes the code throw a TypeError inside its `try`, so the thunk would reject with that error's message. The model assumes the metadata object is present and does not model that rejection. A missing lookup error code is modelled as a code that differs from 'PGRST116'. The insert's returned row is a free parameter; `AuthSlice.ResolvedProfileBelongsToUser` assumes that row keeps the id it was sent.
- `Dashboard.PageState.HandleAddOrUpdateEntry`: HTML constraint validation and the disabled submit button are not modelled. The form's `required` fields (src/DashboardPage.jsx:345, 357, 371, 396), the hours input's `min="0.1"` and `step="0.1"` (lines 369-370) and `disabled={workLogLoading}` (line 415) stop the browser from submitting an empty field, hours such as "0.05" or "2.25", or a second submit during a save. The handler, `Dashboard.BuildEntry` and `Dashboard.BuildEntryWith` are modelled for any form values, so their required-fields and non-positive-hours branches cover inputs the page never submits.
- The following browser and UI parts are not modelled. None of them changes store or form state:
  - CSS and the markup other than the form's constraints above;
  - the share modal and the mobile share menu;
  - clipboard copy, `window.open` and `encodeURIComponent`;
  - `window.confirm` (a parameter of `HandleDelete`);
  - `alert` and `console.*`;
  - `window.scrollTo`;
  - the click-outside listener.
- `Dashboard.PageState.InputChange` models the form controls' `onChange` handlers one event at a time; `Dashboard.BuildEntry` and `Dashboard.PageState.HandleAddOrUpdateEntry` take whatever values the fields hold. As written, the hours field's `onChange` (src/DashboardPage.jsx:366) calls the undefined `setHoursSpent` and throws on every keystroke, for the same reason as the first row under "## Findings". The model gives that handler the corrected behaviour and does not model the throw.
- `handleLogout` only dispatches `signOutUser`, which `AuthStore.SignOutUser` models.
- src/LandingPage.jsx, src/features/auth/LoginPage.jsx, src/supabaseClient.js and src/store/index.js are not part of this model. Each is static markup, form validation delegated to Yup/Formik, environment reading or store wiring.

## Findings

| source | as written | input that shows it | evidently intended | confidence | as-written member | corrected member |
|---|---|---|---|---|---|---|
| src/DashboardPage.jsx:39 | `const [hoursSpent, setHoursSpent] = ''` destructures an empty string, so `hoursSpent` is `undefined` and `!hoursSpent` (line 106) always holds | a signed-in user submits project "Docs", task "Write the guide", hours "2.5", date "2024-05-01": rejected with "Please fill in all required fields" | `useState('')`: a text field whose value reaches validation | not executed | Dashboard.AsWrittenSubmitAlwaysRejected | Dashboard.BuildEntry |
| src/DashboardPage.jsx:143 | `setHoursSpent` is `undefined` too, so `handleEdit` throws a TypeError after loading id, project and task | clicking Edit on any entry: the form is not opened (its visibility is unchanged), and status, date and visibility are not loaded | load every field and show the form | not executed | Dashboard.PageState.HandleEditAsWritten | Dashboard.PageState.HandleEdit |
| src/DashboardPage.jsx:93 | the reset branch of `toggleAddEntryForm` throws at the same call, after the flip and the first three resets | Hide Form with status "Completed": the form hides, but the status is still "Completed" when it is next opened | reset every field | not executed | Dashboard.PageState.ToggleAddEntryFormAsWritten | Dashboard.PageState.ToggleAddEntryForm |

The rest of the model uses the corrected members. `PageState` holds the hours as a text field, and `HandleAddOrUpdateEntry` validates with `BuildEntry`.
