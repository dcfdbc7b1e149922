# DevFinder — a verified model of its decision logic

DevFinder is a small web front end over GitHub's GraphQL API: a profile page
driven by the `q` URL parameter, and a keyboard-triggered combobox that
searches users as one types. This project models, in Dafny, the parts of it
that decide something:

- **Remote-result classification** (`GitHub`): `getUserByLogin` turns what the
  GraphQL client hands back into a user, an explicit absence (a NOT_FOUND
  error) or a thrown error; `getUsersByQuery` keeps the search nodes that have
  a login. The transport is an abstract `Outcome`: response data, a
  `GraphqlResponseError` with an optional `errors` list, or any other thrown
  value.
- **Profile loader** (`ProfileLoader`): trim `q`; when it is missing or blank,
  set `q=kentcdodds` on a fresh copy of the URL's parameters and redirect;
  otherwise look the login up and end in a 404 with a fixed message, the
  user, or the lookup's error. `Loader` is the imperative method (it builds a
  `SearchParams` object and mutates it with `Set`, as the route does with
  `url.searchParams`); it is proved equal to the function `Load`, about which
  the lemmas speak — among them that a redirect is never followed by another.
  The newer route (`app/routes/search-result.tsx:29-46`) and the older one
  (`app/routes/results.tsx:18-35`) have this loader as the same code; one model
  serves both.
- **Display rules** (`ProfileDisplay`, `Results`): titles of both revisions,
  the `name ?? @login` fallback, star/fork pluralisation, the licence rule,
  the empty-repositories state, and the selected-tab state cell. The
  pluralisation and licence code of `app/routes/results.tsx:294`, `:307` and
  `:309-310` is the same as the newer route's and is modelled by the same
  members.
- **Error boundary** (`ErrorBoundary`): `getErrorMessage` and the route-error
  branch of `GeneralErrorBoundary`, composed with the loader so that what the
  user reads on a failed load is proved.
- **User search** (`UsersResource`): the resource route's loader and the
  `UserCombobox` class holding `isOpen` and `query`, with one method per
  event, the two display predicates and the selection's navigation target.

`Text.Trim` is JavaScript's `String.prototype.trim` over the ECMAScript
whitespace and line-terminator code points. JavaScript thrown values are the
`Thrown.ErrorValue` datatype; `new Error(m)` is `ErrorObject(m)`.

In four places the code does something a reader might not expect, and the
model follows the code: nodes whose login is the empty string are dropped by
the search filter (it tests truthiness, not presence); selecting a combobox
option neither closes the dialog nor clears the query; the input's blur
closes the dialog but, unlike closing it, keeps the query
(app/resources/users.tsx:115); and the selection navigates with a `login`
parameter (see Findings).

## Model

| member | source | states |
|---|---|---|
| `Text.LeadingCountSpec` | app/routes/search-result.tsx:31 | the characters counted at the start are whitespace and the next one is not |
| `Text.TrailingCountSpec` | app/routes/search-result.tsx:31 | the characters counted at the end are whitespace and the one before them is not |
| `Text.TrimTrimmed` | app/routes/search-result.tsx:31 | a trimmed value has no whitespace at either end |
| `Text.TrimDecomposition` | app/routes/search-result.tsx:31 | the input is whitespace, then the trimmed value, then whitespace: `trim` removes nothing else |
| `Text.TrimOfTrimmed` | app/routes/search-result.tsx:31 | a value without whitespace at either end is left unchanged |
| `Text.TrimIdempotent` | app/routes/search-result.tsx:31 | trimming a trimmed string changes nothing |
| `Text.TrimEmptyIffAllWhitespace` | app/routes/search-result.tsx:31-32 | a value trims to "" exactly when every character is whitespace |
| `GitHub.FindNotFound` | app/lib/github.server.ts:81-83 | finds an error exactly when some entry has type NOT_FOUND, and returns the first such entry |
| `GitHub.FirstErrorThrown` | app/lib/github.server.ts:88 | the thrown value is always an object with a string `message`: "" when the `errors` list is missing, the TypeError's message when it is empty, else the first entry's message |
| `GitHub.GetUserByLogin` | app/lib/github.server.ts:74-93 | success yields the response's user; a NOT_FOUND entry yields absence and is the only way to get it; other GraphQL errors throw an Error with the first error's message (message "" when the list is missing, a TypeError when it is empty); any other error is rethrown unchanged |
| `GitHub.FilterLogin` | app/lib/github.server.ts:115 | every kept node has a non-empty login, no node with one is dropped, nothing new appears, and the result is an order-preserving subsequence no longer than the input |
| `GitHub.FilterMultiplicity` | app/lib/github.server.ts:115 | every node with a login occurs in the result exactly as often as in the input; every other node occurs zero times |
| `GitHub.FilterIdempotent` | app/lib/github.server.ts:115 | filtering the filtered nodes changes nothing |
| `GitHub.FilterKeepsAllIffAllTruthy` | app/lib/github.server.ts:115 | the filter returns its input unchanged exactly when every node has a non-empty login |
| `GitHub.GetUsersByQuery` | app/lib/github.server.ts:109-123 | success yields an order-preserving subsequence holding exactly the nodes with a login, each as often as in the response, at most 5 when the remote honours `first: 5`; every GraphQL error throws the first error's message (never an absence); other errors are rethrown unchanged |
| `ErrorBoundary.GetErrorMessage` | app/components/error-boundary.tsx:23-41 | a string is its own message; an object's non-empty string `message` is the message; an empty one, a missing or non-string one, null and primitives give "Unknown Error"; the result is empty only for the empty string |
| `ErrorBoundary.GeneralErrorMessage` | app/components/error-boundary.tsx:4-8 | a route error response shows its data; anything else shows `getErrorMessage` of it |
| `ProfileLoader.SearchParams.Get` | app/routes/search-result.tsx:31 | `get` yields a value exactly when the name is present, and then its value |
| `ProfileLoader.SearchParams.Set` | app/routes/search-result.tsx:33 | `set` replaces the named entry and leaves the others as they were |
| `ProfileLoader.NotFoundMessage` | app/routes/search-result.tsx:40 | the 404 message is the fixed prefix `No user with the login "`, the login unaltered, then the fixed suffix `" exists.` |
| `ProfileLoader.NotFoundMessageInjective` | app/routes/search-result.tsx:40 | the 404 message determines the login it names |
| `ProfileLoader.ProfileQuery` | app/routes/search-result.tsx:30-32 | no query exactly when `q` is missing or all whitespace; otherwise the trimmed `q`, non-empty |
| `ProfileLoader.Load` | app/routes/search-result.tsx:29-46 | redirects exactly when `q` is missing or blank, to the same parameters with only `q` set to "kentcdodds"; otherwise looks up the trimmed `q`: data gives the user unchanged, NOT_FOUND gives status 404 with `No user with the login "<q>" exists.`, other failures propagate |
| `ProfileLoader.Loader` | app/routes/search-result.tsx:29-46 | the imperative loader, mutating a fresh parameter object in place, returns exactly `Load` of its inputs |
| `ProfileLoader.NoRedirectLoop` | app/routes/search-result.tsx:32-35 | the redirect target's `q` trims to "kentcdodds", so loading it never redirects, whatever the remote answers |
| `ProfileLoader.LookupUsesLogin` | app/routes/search-result.tsx:31-38 | a login without surrounding whitespace given as `q` is looked up unchanged |
| `ProfileLoader.BoundaryMessage` | app/routes/search-result.tsx:48-56 | the route's error boundary renders a message exactly for a 404 or a propagated error: the 404's own message, or `getErrorMessage` of the thrown value |
| `ProfileLoader.BoundaryShowsRemoteMessage` | app/routes/search-result.tsx:38-42 | end to end: a NOT_FOUND lookup shows the 404 message naming the trimmed login; another GraphQL error shows its first message, or "Unknown Error" when that is empty or the list is missing, and the TypeError's text when the list is empty; any other thrown value shows `getErrorMessage` of it; a found user shows no message |
| `ProfileDisplay.DisplayName` | app/routes/search-result.tsx:153 | the name when present (even if empty), else `@login`; empty only for an empty name |
| `ProfileDisplay.Title` | app/routes/search-result.tsx:21-27 | "Not Found \| DevFinder" on error, else the display name followed by " \| DevFinder"; always ends with that suffix |
| `ProfileDisplay.UnitWord` | app/routes/search-result.tsx:328 | the singular word exactly when the count is 1, the plural otherwise |
| `ProfileDisplay.StarWord` | app/routes/search-result.tsx:328 | "star" exactly when the star count is 1, else "stars" |
| `ProfileDisplay.ForkWord` | app/routes/search-result.tsx:339 | "fork" exactly when the fork count is 1, else "forks" |
| `ProfileDisplay.ShownLicense` | app/routes/search-result.tsx:341-351 | a licence is shown exactly when present and not named "Other", and it is that name |
| `ProfileDisplay.UserRepositories` | app/routes/search-result.tsx:260-276 | the empty state exactly when there are no top repositories, titled "No repositories found" with `<login> doesn't have any public repositories yet.`; otherwise one row per repository, in order |
| `ProfileDisplay.UserRepositoriesBounded` | app/lib/github.server.ts:34-61 | when the remote honours `first: 10` and `first: 6`, the list has at most 10 rows of at most 6 topics |
| `ProfileDisplay.TabSelection.constructor` | app/routes/search-result.tsx:66 | the first tab is selected initially |
| `ProfileDisplay.TabSelection.Change` | app/routes/search-result.tsx:72-82 | a tab change selects exactly the given tab, which is one of the two |
| `Results.Title` | app/routes/results.tsx:10-16 | "Not Found" on error, else the name or `@login`, with no suffix |
| `Results.TitleGainsSuffix` | app/routes/results.tsx:13 | the newer route's title is the older one's followed by " \| DevFinder" |
| `Results.RepositoriesSection` | app/routes/results.tsx:77-87 | the list exactly when there is at least one top repository; the same panel as the newer route's |
| `UsersResource.Loader` | app/resources/users.tsx:19-29 | a missing `query` fails the invariant; a present one, even empty, is searched for untrimmed; every returned user has a login |
| `UsersResource.UsersOf` | app/resources/users.tsx:41 | no data means no users, otherwise the data's users |
| `UsersResource.OptionsShown` | app/resources/users.tsx:125-152 | the option list is rendered only inside the open dialog (`open={isOpen}`, line 76), and there exactly when some user is listed |
| `UsersResource.NoPeopleFoundShown` | app/resources/users.tsx:153-155 | "No people found." is rendered only inside the open dialog (`open={isOpen}`, line 76), and never beside the option list |
| `UsersResource.DisplayStates` | app/resources/users.tsx:41-155 | options and "No people found." never show together; a closed dialog shows neither; an empty query with no users shows neither; an open dialog with a non-empty query shows exactly one of them; before any data arrives no options show, and "No people found." shows exactly in an open dialog with a non-empty query |
| `UsersResource.LabelOf` | app/resources/users.tsx:141-148 | the label is the name when truthy, else `@login`, never empty; the secondary `@login` appears exactly beside a truthy name |
| `UsersResource.SelectionTarget` | app/resources/users.tsx:93-99 | a selected user navigates to `/` with only `login` set, a null selection nowhere |
| `UsersResource.SelectionIgnoredByProfileLoader` | app/resources/users.tsx:95-98 | the profile loader redirects any selection's target to the default login, keeping the `login` parameter |
| `UsersResource.OctocatSelectionShowsDefault` | app/resources/users.tsx:95-98 | selecting "octocat" leads to a lookup of "kentcdodds" |
| `UsersResource.CorrectedSelectionTarget` | app/resources/users.tsx:95-98 | the intended target: `/` with only `q` set to the login |
| `UsersResource.CorrectedSelectionLoadsLogin` | app/routes/search-result.tsx:31-38 | with the corrected target the profile loader looks up exactly the selected login and does not redirect |
| `UsersResource.UserCombobox.constructor` | app/resources/users.tsx:37-38 | starts closed with an empty query |
| `UsersResource.UserCombobox.PressShortcut` | app/resources/users.tsx:51-59 | the shortcut fires only while closed and leaves the dialog open, the query unchanged |
| `UsersResource.UserCombobox.ClickButton` | app/resources/users.tsx:63-65 | opens the dialog, query unchanged |
| `UsersResource.UserCombobox.CloseDialog` | app/resources/users.tsx:77-80 | closes and clears the query, so neither the options nor "No people found." can show |
| `UsersResource.UserCombobox.ChangeInput` | app/resources/users.tsx:107-114 | the query becomes the new value (or "" for none) and exactly one search is submitted for that value, which the resource loader accepts |
| `UsersResource.UserCombobox.Blur` | app/resources/users.tsx:115 | closes and keeps the query; while closed neither the options nor "No people found." show |
| `UsersResource.UserCombobox.Select` | app/resources/users.tsx:92-100 | navigates exactly to `SelectionTarget` of the selection: `/?login=<login>` for a user, nowhere for null; state unchanged |

## Findings

| source | as written | input that shows it | evidently intended | confidence | as-written member | corrected member |
|---|---|---|---|---|---|---|
| app/resources/users.tsx:95-98 | selecting a user navigates to `/?login=<login>`, but the index route's loader reads only `q` | selecting login "octocat": the loader redirects to `login=octocat&q=kentcdodds` and shows kentcdodds | navigate to `/?q=<login>` | medium, not executed; no route or layout of the app imports `UserCombobox` (app/layouts/search.tsx renders its own `SearchBar`), so the path is reachable only where the component is mounted | `UsersResource.SelectionTarget` | `UsersResource.CorrectedSelectionTarget` |

`UsersResource.SelectionIgnoredByProfileLoader` and
`UsersResource.OctocatSelectionShowsDefault` exhibit the discrepancy;
`UsersResource.CorrectedSelectionLoadsLogin` proves the corrected target
loads the selected profile. `UserCombobox.Select` still models the code as
written.

## Left out

- The GraphQL client, its authorization header and the startup check of `GITHUB_API_TOKEN` (app/lib/github.server.ts:5-11): network and environment I/O; each call is an `Outcome` input, and the remote's answer per login is a function parameter.
- URL parsing and serialisation: query parameters are a `map<string, string>`, so the order and repetition of `URLSearchParams` entries, percent-encoding and the path are not modelled.
- `UsersResource.Loader`: uses tiny-invariant's development message; production builds throw "Invariant failed" without the detail.
- `Thrown.TypeErrorMessage` is the V8 wording; other engines word that TypeError differently, and the model does not distinguish an `Error` from a `TypeError` beyond their messages.
- `ProfileDisplay.Title`: does not claim "Not Found | DevFinder" appears only on error, because a user named "Not Found" gets the same title.
- The in-flight request handling of `useFetcher` (app/resources/users.tsx:40-43): asynchrony owned by the router library; the widget's users are an input.
- The spinner delays of `useSpinDelay` (app/resources/users.tsx:44-47, app/components/search-bar.tsx:14): wall-clock behaviour.
- `useHotkeys` wiring, focus and selection of inputs, and the input-value sync effects (app/components/search-bar.tsx, app/layouts/search.tsx): DOM side effects.
- Number and date formatting (app/lib/format.ts, `toLocaleDateString` in app/routes/results.tsx): locale code.
- The `console.error("Unable to get error message for error", error)` call in `getErrorMessage` (app/components/error-boundary.tsx:38): console output, a side effect that does not change the returned message.
- `ProfileDisplay.TabSelection.Change`: the small-screen select's `Number(event.target.value)` conversion is taken as already giving the option's index.
- The optional-field markup (email, location, website, twitter, bio, pronouns, description, language badge), app/root.tsx, app/components/logo.tsx, app/components/empty-state.tsx and the route table app/routes.ts: rendering and configuration without decisions.
