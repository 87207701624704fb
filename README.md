# OctoFit Tracker front end: the fetch-and-render pattern

OctoFit Tracker's browser client has five list views: Activities,
Leaderboard, Teams, Users and Workouts. Every view runs the same steps. It
resolves its resource URL from an optional codespace name. It issues one GET
and normalises the body, accepting either a paginated envelope or a bare array.
It keeps a `loading` / `error` / items state, and it renders cards and a table
in which each field falls back to a placeholder. This project models those
steps in Dafny and proves what they promise.

Modules:

- `Wrappers`: `Option` and `Result`.
- `Json`: the values a body can hold (plus `undefined`), JavaScript truthiness,
  property reads and `||`.
- `Text`: `${n}` decimal rendering and its inverse (`DigitsValue`), the
  canonical form of digit strings (`Canonical`, with `CanonicalRoundTrip` and
  `CanonicalDigitsEqual`: such a string is fixed by its value), ASCII
  `toLowerCase`, `startsWith`/`endsWith` (`StartsWith`, `EndsWith`), and the
  `substring(0, L) + "..."` truncation.
- `Lists`: `map((x, index) => ...)` and `slice(0, k)`.
- `Display`: `a || b || c` fallback chains, `Thing ${index + 1}` placeholders,
  the date cell and `{x || 0} min` quantities.
- `Endpoint`: the URL resolver. The workspace name is a parameter.
- `RemoteList`: the fetch outcome, normalisation and what the try block
  settles to. It also holds the view-state step, the choice of screen, and the
  class `ListView`, whose `Fetch` method updates `loading`, `error` and `items`
  in try/catch/finally order.
- `Workouts`, `Users`, `Teams`, `Leaderboard`, `Activities`: one module per
  component. Each holds the view's selectors, cards, rows and `Render`, plus a
  `Mount` method that creates the view state and runs its fetch.

The five `fetchX` functions differ only in the resource path. One class,
`RemoteList.ListView`, models all five, with the path as a constant field. Each
view's `Mount` binds its own path.

The network is a parameter of type `string -> Outcome`. An outcome is either a
response (its status and its parsed body, or the parse error's message) or a
rejected request (the failure's message).

Behaviour the model keeps from the code:

- An error with an empty message is falsy under `if (error)`. Such a view
  therefore shows the empty state, not the error notice (see
  `RemoteList.ScreenAfterFetch`).
- A `null` body throws when `data.results` is read, so the view ends in the
  error state. The model uses V8's wording of that TypeError.
- An empty `results` array is truthy, so `{results: [], count: 0}` yields `[]`.
  The view then shows the empty state.

## Model

| member | source | states |
|---|---|---|
| `Text.DecimalRoundTrip` | octofit-tracker/frontend/src/components/Workouts.js:20 | the decimal text a template literal gives a number reads back as that number |
| `Text.DecimalInjective` | octofit-tracker/frontend/src/components/Leaderboard.js:171 | distinct numbers have distinct decimal texts |
| `Text.CanonicalRoundTrip` | octofit-tracker/frontend/src/components/Workouts.js:20 | every digit string without a leading zero (other than "0" itself) is the decimal text of the number it denotes |
| `Text.CanonicalDigitsEqual` | octofit-tracker/frontend/src/components/Teams.js:99 | two digit strings without leading zeros that denote the same number are the same string, so a contract fixing the value and the form fixes the text |
| `Text.Decimal` | octofit-tracker/frontend/src/components/Leaderboard.js:171 | `${n}` of a natural number is a non-empty run of digits with no leading zero except for 0 itself; `Text.DecimalRoundTrip` proves it reads back as n |
| `Text.Lower` | octofit-tracker/frontend/src/components/Workouts.js:62 | lower-casing keeps the length and lowers each ASCII capital letter, leaving every other character alone |
| `Text.LowerEqualsWord` | octofit-tracker/frontend/src/components/Workouts.js:71 | for a lower-case keyword, `s.toLowerCase() === word` holds exactly when `s` spells the word in any letter case |
| `Text.Truncate` | octofit-tracker/frontend/src/components/Workouts.js:154-156 | text of length at most L is unchanged; longer text becomes its first L characters followed by "...", so the result is never longer than L+3 |
| `Text.TruncateTwice` | octofit-tracker/frontend/src/components/Workouts.js:225-228 | truncating to L1 and then to L2 <= L1 equals truncating to L2 directly; truncation is idempotent |
| `Lists.MapFrom` | octofit-tracker/frontend/src/components/Workouts.js:214 | map with index gives one output per input, in input order, built from each element and its index |
| `Lists.MapIndexed` | octofit-tracker/frontend/src/components/Workouts.js:119 | `xs.map((x, index) => f(x, index))` has the same length as `xs`, and entry i is `f(xs[i], i)` |
| `Lists.Take` | octofit-tracker/frontend/src/components/Users.js:100 | `slice(0, k)` is the first min(k, n) elements, unchanged |
| `Json.Truthy` | octofit-tracker/frontend/src/components/Workouts.js:12 | JavaScript truthiness, behind `codespaceName ?`, every `||`, `if (error)` and `description &&`: a truthy value is never null or undefined, and every array and object is truthy, even an empty one; how it drives each of those is stated by `Json.Or`, `Endpoint.ApiUrl`, `RemoteList.Select` and `Workouts.Excerpt` |
| `Json.Field` | octofit-tracker/frontend/src/components/Teams.js:27 | a property read gives an object's own field, and `undefined` for an absent field or a non-object |
| `Json.Or` | octofit-tracker/frontend/src/components/Workouts.js:27 | JavaScript's or-operator on a and b is truthy iff either operand is; it is a whenever a is truthy, and b whenever a is falsy (so two falsy operands give b) |
| `Display.Chain` | octofit-tracker/frontend/src/components/Workouts.js:125 | a left-grouped chain of or-operators is truthy iff some member is truthy; `Display.ChainIsFirstTruthy` proves it yields the first truthy member |
| `Display.ChainIsFirstTruthy` | octofit-tracker/frontend/src/components/Workouts.js:125 | a left-grouped chain of or-operators yields the first truthy member, or the last member when none is truthy |
| `Display.FirstTruthyThenOr` | octofit-tracker/frontend/src/components/Workouts.js:146 | appending one more or-operand y to a chain extends the first-truthy choice by `y` |
| `Display.ChainOfThree` | octofit-tracker/frontend/src/components/Users.js:139 | a three-member chain is (a or b) or c, grouped to the left |
| `Display.Fallback3` | octofit-tracker/frontend/src/components/Users.js:111 | the three-link chain of a field a, its alternative b and a placeholder last yields a when a is truthy, else b when b is truthy, else last; it equals the first-truthy reference on [a, b, last] |
| `Display.ChainEndingTruthy` | octofit-tracker/frontend/src/components/Leaderboard.js:118 | a chain ending in a truthy placeholder always yields a truthy member of the chain |
| `Display.ChainMember` | octofit-tracker/frontend/src/components/Leaderboard.js:120 | a chain always yields one of its members |
| `Display.Placeholder` | octofit-tracker/frontend/src/components/Teams.js:99 | `${word} ${index + 1}` is a non-empty string, the word and a space followed by digits with no leading zero that read back as index+1, which by `Text.CanonicalDigitsEqual` is exactly the decimal text of index+1 |
| `Display.PlaceholdersDistinct` | octofit-tracker/frontend/src/components/Activities.js:119 | placeholders of different positions differ |
| `Display.OrZero` | octofit-tracker/frontend/src/components/Teams.js:103 | x-or-0 is x when x is truthy, and 0 otherwise |
| `Display.QuantityOf` | octofit-tracker/frontend/src/components/Activities.js:129 | an amount-and-unit cell is the fixed unit after x, or after 0 when x is falsy |
| `Display.DateOf` | octofit-tracker/frontend/src/components/Activities.js:138-141 | the date cell is "N/A" exactly when the field is falsy, and otherwise formats the field's own value |
| `Endpoint.ApiUrl` | octofit-tracker/frontend/src/components/Workouts.js:11-14 | the URL always ends in `/api/<resource>/`; it is https exactly when the workspace name is truthy; otherwise it is `http://localhost:8000/api/<resource>/` |
| `Endpoint.WorkspaceRoundTrip` | octofit-tracker/frontend/src/components/Users.js:11-14 | the URL gives back the workspace name it was built from, and gives back nothing when the name was absent or empty |
| `Endpoint.ApiUrlSeparatesWorkspaces` | octofit-tracker/frontend/src/components/Teams.js:11-14 | different truthy workspace names give different URLs |
| `RemoteList.HttpErrorMessage` | octofit-tracker/frontend/src/components/Workouts.js:19-20 | the non-ok error message is "HTTP error! status: " followed by digits with no leading zero (a 0 digit first only for status 0) that read back as the status, which by `Text.CanonicalDigitsEqual` is exactly its decimal text |
| `RemoteList.IsOk` | octofit-tracker/frontend/src/components/Workouts.js:19 | `response.ok`: the status lies in 200 to 299, as the Fetch standard defines an ok status; no contract of its own, it is the guard `RemoteList.Settle` is stated with |
| `RemoteList.Normalise` | octofit-tracker/frontend/src/components/Workouts.js:27-28 | normalising fails (the read of `results` throws) exactly for a null or undefined body, and then with a non-empty message |
| `RemoteList.NullishReadMessage` | octofit-tracker/frontend/src/components/Workouts.js:27 | the TypeError text for reading `results` of a nullish body: it starts "Cannot read properties of " and names null or undefined, whichever the body was |
| `RemoteList.NormaliseCases` | octofit-tracker/frontend/src/components/Users.js:27-28 | `results` is used when it is truthy and an array; an array body is used when `results` is falsy; every other non-null body gives `[]` |
| `RemoteList.NormaliseEnvelope` | octofit-tracker/frontend/src/components/Leaderboard.js:26-28 | an envelope yields its `results` array verbatim, whatever other fields it has |
| `RemoteList.NormaliseBareArray` | octofit-tracker/frontend/src/components/Teams.js:26-28 | a bare array body yields its elements verbatim |
| `RemoteList.Settle` | octofit-tracker/frontend/src/components/Workouts.js:18-31 | a rejected request fails with its own message; a non-ok status fails with the status message; an unparsable body fails with the parse message; otherwise the result is the normalised body |
| `RemoteList.Step` | octofit-tracker/frontend/src/components/Workouts.js:28-34 | after a fetch, loading is false; success replaces the items and keeps the error; failure sets the error and keeps the items |
| `RemoteList.HttpFailureStep` | octofit-tracker/frontend/src/components/Activities.js:19-34 | a non-ok status leaves the items unchanged, sets the status message and clears loading; the status reads back from the message |
| `RemoteList.ErrorShown` | octofit-tracker/frontend/src/components/Workouts.js:50 | `if (error)`: the error is shown when it holds a non-empty message; no contract of its own, its consequences are stated by `RemoteList.Select` (notice iff shown) and `RemoteList.ScreenAfterFetch` (an empty failure message shows the empty state) |
| `RemoteList.Select` | octofit-tracker/frontend/src/components/Teams.js:40-73 | spinner iff loading; error notice with the message iff not loading and the error is a non-empty string; empty state iff neither and no items; otherwise the listing of the items |
| `RemoteList.ScreenAfterFetch` | octofit-tracker/frontend/src/components/Users.js:29-85 | after a fetch the spinner is gone; the notice shows exactly a non-empty failure message; the empty state means an empty list or an empty message; the listing shows the whole non-empty list |
| `RemoteList.NullBodyShowsError` | octofit-tracker/frontend/src/components/Activities.js:23-31 | a null body in an ok response ends in the error notice, not the empty state |
| `RemoteList.HttpFailureShowsError` | octofit-tracker/frontend/src/components/Leaderboard.js:19-55 | every non-ok status ends in the notice "HTTP error! status: <status>" |
| `RemoteList.ListView.constructor` | octofit-tracker/frontend/src/components/Workouts.js:4-6 | a view starts with loading true, no error and no items |
| `RemoteList.ListView.Fetch` | octofit-tracker/frontend/src/components/Workouts.js:9-35 | requests the resolved URL; the new state is one `Step` from the old state with the network's outcome for that URL |
| `Workouts.DifficultyText` | octofit-tracker/frontend/src/components/Workouts.js:62 | the difficulty reaches `toLowerCase` exactly when it is a string |
| `Workouts.DifficultyBadge` | octofit-tracker/frontend/src/components/Workouts.js:61-68 | in any letter case, easy gives `bg-success`, medium `bg-warning text-dark`, hard `bg-danger`, each iff that keyword; all else, including a missing difficulty, gives `bg-secondary` |
| `Workouts.DifficultyIcon` | octofit-tracker/frontend/src/components/Workouts.js:70-77 | in any letter case, easy gives a leaf, medium fire, hard a bolt, each iff that keyword; all else, including a missing difficulty, gives a circle |
| `Workouts.DifficultyPartition` | octofit-tracker/frontend/src/components/Workouts.js:127-128 | badge and icon partition difficulties alike: two difficulties share a badge iff they share an icon, and every badge comes with its own level's icon |
| `Workouts.DifficultyIgnoresCase` | octofit-tracker/frontend/src/components/Workouts.js:70-71 | spellings that differ only in case get the same badge and icon |
| `Workouts.Title` | octofit-tracker/frontend/src/components/Workouts.js:125 | the title is truthy: the name if truthy, else the title if truthy, else `Workout <index+1>` |
| `Workouts.Kind` | octofit-tracker/frontend/src/components/Workouts.js:146 | the type is truthy: workout_type if truthy, else type if truthy, else "General" |
| `Workouts.Excerpt` | octofit-tracker/frontend/src/components/Workouts.js:152-158 | nothing is shown for a falsy description; a string of length at most L is shown whole, and a longer one as its first L characters plus "..." |
| `Workouts.ExcerptsAgree` | octofit-tracker/frontend/src/components/Workouts.js:223-229 | the table's 50-character excerpt is the card's 100-character excerpt truncated to 50 |
| `Workouts.CardOf` | octofit-tracker/frontend/src/components/Workouts.js:119-180 | one card per workout, built from the selectors above; its cells are stated by `Workouts.CardAndRowAgree` and `Workouts.EasyRunCells` |
| `Workouts.RowOf` | octofit-tracker/frontend/src/components/Workouts.js:214-272 | one table row per workout, built from the selectors above; its cells are stated by `Workouts.CardAndRowAgree` and `Workouts.EasyRunCells` |
| `Workouts.CardAndRowAgree` | octofit-tracker/frontend/src/components/Workouts.js:125-250 | card and row show the same title, type, badge, icon, difficulty ("N/A" when falsy) and date; the duration amount is the same, in " min" in the table; the table's excerpt is the card's cut to 50 characters |
| `Workouts.Render` | octofit-tracker/frontend/src/components/Workouts.js:116-276 | every workout gets one card and one table row, in input order; the header count equals the number of workouts |
| `Workouts.Screen` | octofit-tracker/frontend/src/components/Workouts.js:40-280 | the workouts screen: the empty state exactly when not loading, no error shown and no workouts held; a listing holds at least one workout, with one card and one row each and the count in the header; spinner and notice as `RemoteList.Select` states |
| `Workouts.Mount` | octofit-tracker/frontend/src/components/Workouts.js:3-38 | requests the workouts URL (cloud or local); the state is the initial state stepped with that request's outcome |
| `Workouts.EasyBadge` | octofit-tracker/frontend/src/components/Workouts.js:63 | "Easy" gets the success badge |
| `Workouts.EasyRunCells` | octofit-tracker/frontend/src/components/Workouts.js:125-250 | a record named Run, lasting 30 and rated Easy shows Run, 30 (30 min in the table) and the success badge |
| `Workouts.EasyRunScenario` | octofit-tracker/frontend/src/components/Workouts.js:99-253 | the one-record body `[{name: "Run", ...}]` shows a listing with count 1 whose card and row show Run, 30 and the success badge |
| `Users.DisplayName` | octofit-tracker/frontend/src/components/Users.js:111 | the name is truthy: name if truthy, else username if truthy, else `User <index+1>` |
| `Users.Email` | octofit-tracker/frontend/src/components/Users.js:113 | the email if truthy, else the given placeholder |
| `Users.Team` | octofit-tracker/frontend/src/components/Users.js:130 | team_name-or-team is truthy iff either field is; it is team_name when that is truthy, and team otherwise |
| `Users.TeamLabel` | octofit-tracker/frontend/src/components/Users.js:139 | the card's badge shows the team when one is set, and "No Team" otherwise |
| `Users.TeamMark` | octofit-tracker/frontend/src/components/Users.js:130 | the card shows ✓ iff team_name or team is truthy, and ✗ otherwise |
| `Users.TeamBadgeOf` | octofit-tracker/frontend/src/components/Users.js:209-218 | the table's cell is a team badge iff team_name or team is truthy, showing that (truthy) value; otherwise the "No Team" badge |
| `Users.TeamIndicator` | octofit-tracker/frontend/src/components/Users.js:209-218 | ✓ iff team_name or team is truthy; the card label and the table badge show that team then, and "No Team" otherwise |
| `Users.CardOf` | octofit-tracker/frontend/src/components/Users.js:100-157 | one card for each of the first six users; its cells are stated by `Users.CardAndRowFallbacks` and `Users.TeamIndicator` |
| `Users.RowOf` | octofit-tracker/frontend/src/components/Users.js:194-247 | one table row per user; its cells are stated by `Users.CardAndRowFallbacks` and `Users.TeamIndicator` |
| `Users.CardAndRowFallbacks` | octofit-tracker/frontend/src/components/Users.js:113-227 | a missing email shows "No email" on the card and "N/A" in the table; points and activity count default to 0; joined date "N/A" iff falsy |
| `Users.Render` | octofit-tracker/frontend/src/components/Users.js:99-247 | the grid shows exactly the first min(6, n) users in order; the table shows all n in order; the header count is n |
| `Users.Screen` | octofit-tracker/frontend/src/components/Users.js:40-255 | the users screen: the empty state exactly when not loading, no error shown and no users held; a listing holds at least one user, with one to six cards, a row each and the count in the header; spinner and notice as `RemoteList.Select` states |
| `Users.Mount` | octofit-tracker/frontend/src/components/Users.js:3-38 | requests the users URL (cloud or local); the state is the initial state stepped with that request's outcome |
| `Users.ServerErrorScenario` | octofit-tracker/frontend/src/components/Users.js:19-58 | status 500 shows the notice "HTTP error! status: 500" and no table |
| `Teams.Name` | octofit-tracker/frontend/src/components/Teams.js:99 | the name if truthy, else `Team <index+1>`; never falsy |
| `Teams.Description` | octofit-tracker/frontend/src/components/Teams.js:108 | the description if truthy, else "No description available" |
| `Teams.Captain` | octofit-tracker/frontend/src/components/Teams.js:126 | the captain if truthy, else "N/A" |
| `Teams.CardOf` | octofit-tracker/frontend/src/components/Teams.js:93-147 | one card per team; its cells are stated by `Teams.CardAndRowAgree` and the selectors above |
| `Teams.RowOf` | octofit-tracker/frontend/src/components/Teams.js:181-225 | one table row per team; its cells are stated by `Teams.CardAndRowAgree` and the selectors above |
| `Teams.CardAndRowAgree` | octofit-tracker/frontend/src/components/Teams.js:103-205 | a team's card and row show the same name, members, points and captain; members and points default to 0 |
| `Teams.Render` | octofit-tracker/frontend/src/components/Teams.js:92-225 | every team appears once in the grid and once in the table, in input order; the header count is the number of teams |
| `Teams.Screen` | octofit-tracker/frontend/src/components/Teams.js:40-233 | the teams screen: the empty state exactly when not loading, no error shown and no teams held; a listing holds at least one team, with one card and one row each and the count in the header; spinner and notice as `RemoteList.Select` states |
| `Teams.Mount` | octofit-tracker/frontend/src/components/Teams.js:3-38 | requests the teams URL (cloud or local); the state is the initial state stepped with that request's outcome |
| `Teams.EmptyPageScenario` | octofit-tracker/frontend/src/components/Teams.js:27-88 | `{results: [], count: 0}` normalises to `[]`, and the view shows the empty state, not the table |
| `Leaderboard.RankBadge` | octofit-tracker/frontend/src/components/Leaderboard.js:61-66 | by position alone: 0 gets `bg-warning text-dark` (gold), 1 `bg-secondary` (silver), 2 `bg-danger` (bronze), each iff that position; 3 and later `bg-primary` |
| `Leaderboard.RankIcon` | octofit-tracker/frontend/src/components/Leaderboard.js:68-73 | by position alone: 0 gets a crown, 1 a medal, 2 an award, each iff that position; 3 and later a user icon |
| `Leaderboard.RankPartition` | octofit-tracker/frontend/src/components/Leaderboard.js:169-170 | two positions share a rank badge iff they share a rank icon, and distinct positions share them only beyond the podium |
| `Leaderboard.PodiumBorder` | octofit-tracker/frontend/src/components/Leaderboard.js:115 | the podium card's border is `border-warning` iff position 0, `border-secondary` iff 1, and `border-danger` from 2 on |
| `Leaderboard.PodiumColour` | octofit-tracker/frontend/src/components/Leaderboard.js:117 | the podium icon's colour is `text-warning` iff position 0, `text-secondary` iff 1, and `text-danger` from 2 on |
| `Leaderboard.PodiumMatchesRankColours` | octofit-tracker/frontend/src/components/Leaderboard.js:113-117 | podium border and icon colour are warning, secondary, then danger, matching the rank badge's colour |
| `Leaderboard.RowClass` | octofit-tracker/frontend/src/components/Leaderboard.js:167 | a row is `table-light` iff its index is below 3, and otherwise has no class |
| `Leaderboard.RankLabel` | octofit-tracker/frontend/src/components/Leaderboard.js:171 | the rank text is "#" followed by digits with no leading zero that read back as index+1, so exactly `#` and the decimal text of index+1 |
| `Leaderboard.EntryName` | octofit-tracker/frontend/src/components/Leaderboard.js:176 | user_name, else name, else "Unknown" |
| `Leaderboard.EntryTeam` | octofit-tracker/frontend/src/components/Leaderboard.js:181 | team_name, else team, else "No Team" |
| `Leaderboard.EntryPoints` | octofit-tracker/frontend/src/components/Leaderboard.js:186 | total_points, else points, else 0 |
| `Leaderboard.EntryActivities` | octofit-tracker/frontend/src/components/Leaderboard.js:191 | total_activities, else activities, else 0 |
| `Leaderboard.ZeroTotalFallsThrough` | octofit-tracker/frontend/src/components/Leaderboard.js:121 | total_points 0 with points 5 shows 5, because 0 is falsy |
| `Leaderboard.PodiumCardOf` | octofit-tracker/frontend/src/components/Leaderboard.js:113-127 | one podium card per entry among the first three; its colours are stated by `Leaderboard.PodiumMatchesRankColours`, its cells by the entry selectors |
| `Leaderboard.RowOf` | octofit-tracker/frontend/src/components/Leaderboard.js:166-205 | one table row per entry; its cells are stated by `Leaderboard.RanksFollowPositions` and the entry selectors |
| `Leaderboard.Render` | octofit-tracker/frontend/src/components/Leaderboard.js:101-205 | the podium holds exactly the first min(3, n) entries; the table holds all n; both keep the received order; the header count is n |
| `Leaderboard.RanksFollowPositions` | octofit-tracker/frontend/src/components/Leaderboard.js:166-191 | row i shows entry i with rank text #(i+1) and position i's badge, and is highlighted iff i < 3; a non-empty board has a podium |
| `Leaderboard.Screen` | octofit-tracker/frontend/src/components/Leaderboard.js:40-214 | the leaderboard screen: the empty state exactly when not loading, no error shown and no entries held; a listing has a podium of one to three entries, a row per entry and the count in the header; spinner and notice as `RemoteList.Select` states |
| `Leaderboard.Mount` | octofit-tracker/frontend/src/components/Leaderboard.js:3-38 | requests the leaderboard URL (cloud or local); the state is the initial state stepped with that request's outcome |
| `Activities.Name` | octofit-tracker/frontend/src/components/Activities.js:119 | the name if truthy, else `Activity <index+1>`; never falsy |
| `Activities.Kind` | octofit-tracker/frontend/src/components/Activities.js:124 | activity_type if truthy, else "General" |
| `Activities.RowOf` | octofit-tracker/frontend/src/components/Activities.js:115-157 | one table row per activity; its cells are stated by `Activities.RowFallbacks` |
| `Activities.RowFallbacks` | octofit-tracker/frontend/src/components/Activities.js:117-141 | a row's name and type are never falsy; duration (" min") and calories (" cal") default to 0; the date is "N/A" iff created_at is falsy |
| `Activities.Render` | octofit-tracker/frontend/src/components/Activities.js:84-161 | exactly one row per activity, in input order; the header count is the number of activities |
| `Activities.Screen` | octofit-tracker/frontend/src/components/Activities.js:40-164 | the activities screen: the empty state exactly when not loading, no error shown and no activities held; a listing holds at least one activity, with one row each and the count in the header; spinner and notice as `RemoteList.Select` states |
| `Activities.Mount` | octofit-tracker/frontend/src/components/Activities.js:3-38 | requests the activities URL (cloud or local); the state is the initial state stepped with that request's outcome |
| `Activities.BodyShapes` | octofit-tracker/frontend/src/components/Activities.js:23-31 | a null body ends in the error notice; any other body that is neither an array nor carries a truthy array under `results` ends in the empty state |

## Left out

- `fetch`, `await` and `response.json()`: the network is a function from URL to outcome, and the parsed body (or the parse error) is part of that outcome.
- `process.env.REACT_APP_CODESPACE_NAME`: the workspace name is a parameter of `Fetch` and `Mount`.
- `console.log` and `console.error`: they have no effect on the state.
- React's hooks, batching and re-rendering: the three state cells are the fields of `ListView`, and each screen is a function of them.
- State updates that arrive after the view is unmounted: there is no unmounting in the model.
- `new Date(x).toLocaleDateString()`: it depends on locale and clock. `Display.DateOf` keeps only the choice between a formatted date and "N/A".
- How React turns a value into text: cells hold the value that is rendered. Numbers and strings render as their text and booleans render as nothing. A cell whose value is an object throws at render time in the source ("Objects are not valid as a React child") and the view crashes. This can happen, for example, when `team` or `captain` arrives as a nested object rather than a name: `Users.TeamLabel`, `Users.TeamBadgeOf`, `Leaderboard.EntryTeam` and `Teams.Captain` then hand the object back as the cell. The model keeps the object as the cell and does not model the crash.
- JSX markup, the inert buttons, the search input, the filter buttons, and CSS classes other than the badge, icon, border and row classes modelled above.
- The list keys `x.id || index`: React uses them for identity only, and nothing shown depends on them.
- App.js: the router, the navigation bar and the static home page. The backend's database population script and its tests are not part of this model.
- Text.Lower: only ASCII letters are lowered. For the keywords easy, medium and hard this gives the same badge as JavaScript's full Unicode `toLowerCase`, because no non-ASCII character lower-cases to one of their letters.
- Text.Truncate: characters are Dafny characters. JavaScript's `length` and `substring` count UTF-16 code units, so the cut point differs for text outside the Basic Multilingual Plane.
- Workouts.DifficultyText: a difficulty that is neither a string nor null/undefined makes `toLowerCase` throw at render time in the source. The model reads it as missing, giving `bg-secondary`.
- Workouts.Excerpt: a truthy non-string description is passed through unchanged. In the source, an array longer than the limit throws (it has no `substring`), and React refuses to render an object. A description equal to the number 0 renders as the bare text 0; the model shows nothing.
- Json.Field: a `null` element in the list makes the source's render throw on its first property read. The model reads every field of a non-object element as `undefined`.
- RemoteList.NullishReadMessage: the TypeError text for reading `results` of null uses V8's wording. Other engines word it differently.
