# Club OS composables — a Dafny model

This project models the small pieces of client-side logic in the Club OS
web app's Vue composables:

- **Player statistics** (`useStats`): from one player's appearances, the
  season totals (appearances, goals, assists, man-of-the-match awards), the
  gamification XP score with its level and progress bar, the overall rating
  between 60 and 99, and the per-match history list; plus the component
  state (`loading`, `playerStats`, `matchHistory`) that `fetchMyStats` fills in.
- **Role switcher** (`useUser`): the shared current role, `setRole`, and the
  fixed table from a role name to three capability flags.
- **Active club** (`useClub`): the URL slug derived from a club name, and
  `createClub`, which inserts a club and makes it the active one.
- **Toast notifications** (`useToast`): a list where toasts are appended and
  later removed by id.
- **Confirm dialog** (`useConfirm`): a visible flag, title and message and
  one stored Promise resolver, driven by `showConfirm`, `handleConfirm` and
  `handleCancel`.

One Dafny module per composable (`stats.dfy`, `user.dfy`, `club.dfy`,
`toast.dfy`, `confirm.dfy`), plus `wrappers.dfy` with `Option` (JavaScript
`null`/`undefined`) and `Result` (a `{ data, error }` response).
Refs that the source updates become fields of a class whose methods
state the whole new state: the per-call refs of `useStats` (`StatsView`),
and the module-level ones of the other composables (`RoleState`,
`ClubContext`, `ToastStack`, `ConfirmDialog`); the computations are functions,
and the XP `forEach` loop is a method proved equal to its closed form.

Data-service calls are inputs: `FetchMyStats` takes the player row and the
appearance rows, and `CreateClub` takes the insert as a function from the
row to be inserted to a record or an error. Toast ids (a clock reading in
the source) are parameters, and the timer that removes a toast is an
ordinary later call of `RemoveToast`. A Promise of `showConfirm` is a
request number; the answers it receives live in a map and, as for an
ECMAScript Promise (ECMA-262, section 27.2), only the first answer counts.

## Model

| member | source | states |
|---|---|---|
| `Stats.SumOfAppend` | src/composables/useStats.js:39-40 | the goal, assist and win totals (`reduce` sums) over a concatenation are the sums of the totals of its parts |
| `Stats.TotalGoals` | src/composables/useStats.js:39 | the goal total is at least each appearance's goals, and is 0 exactly when no appearance has a goal |
| `Stats.TotalAssists` | src/composables/useStats.js:40 | the assist total is at least each appearance's assists, and is 0 exactly when no appearance has an assist |
| `Stats.TotalWins` | src/composables/useStats.js:50 | the number of appearances whose result is exactly 'W' is at most the number of appearances, and 0 exactly when none is 'W' |
| `Stats.TotalMotm` | src/composables/useStats.js:41 | the MOTM total is at most the number of appearances, and 0 exactly when no appearance is flagged |
| `Stats.MotmAppearances` | src/composables/useStats.js:41 | the filtered list has only appearances of the input whose MOTM flag is set, and is no longer than the input |
| `Stats.TotalMotmCountsFlags` | src/composables/useStats.js:41 | the MOTM total equals the number of indices whose appearance has the MOTM flag set |
| `Stats.XpFormula` | src/composables/useStats.js:44-51 | the XP closed form 100·apps + 50·goals + 200·MOTM + 50·wins is a multiple of 50 and at least 100 per appearance |
| `Stats.ComputeXp` | src/composables/useStats.js:45-51 | the `forEach` loop adding 100, 50 per goal, 200 per MOTM flag and 50 for a 'W' result ends with exactly the closed form |
| `Stats.Level` | src/composables/useStats.js:54 | the level is at least 1, and level−1 thousands of XP are reached but not level thousands |
| `Stats.LevelMonotone` | src/composables/useStats.js:54 | more XP never gives a lower level |
| `Stats.Progress` | src/composables/useStats.js:55 | the progress percentage lies in [0, 100) |
| `Stats.ProgressStepsOfFive` | src/composables/useStats.js:55 | for XP that is a multiple of 50, the progress is an exact whole multiple of 5 |
| `Stats.Overall` | src/composables/useStats.js:59-61 | the rating lies in [60, 99], is 99 exactly when the bonus 2·goals + 5·MOTM + apps reaches 39, and below that is 60 plus the bonus |
| `Stats.StatsFor` | src/composables/useStats.js:37-75 | the stats block holds the appearance count and the goal, assist and MOTM totals, the XP closed form, and the level, progress and overall of those; hence MOTM ≤ apps, level ≥ 1, progress in [0,100) in steps of 5, overall in [60,99], XP a multiple of 50 |
| `Stats.TeamName` | src/composables/useStats.js:65 | the team label is the first membership's team name when it is present and non-empty, else 'Club Member'; never empty |
| `Stats.MatchHistory` | src/composables/useStats.js:78-84 | one entry per appearance in the same order, with the match's opponent, date and score pair (either side null when not yet scored); result falls back to '-' when missing or empty; performance is the goal count when goals > 0, else clean sheet when flagged, else none |
| `Stats.StatsView.constructor` | src/composables/useStats.js:8-10 | starts loading, with no stats and an empty history |
| `Stats.StatsView.FetchMyStats` | src/composables/useStats.js:12-91 | always ends with loading false; with no player row, or no appearance data, stats and history are unchanged; otherwise stats become the player card with its team label and `StatsFor` the appearances, and the history becomes `MatchHistory` of them |
| `Stats.StatsView.FetchMyStatsAsWritten` | src/composables/useStats.js:6-24 | as the file stands, only loading changes (to false), whatever the data would be |
| `User.PermissionsFor` | src/composables/useUser.js:9-22 | canManageMoney exactly for 'treasurer'; canEditRules exactly for 'treasurer' and 'secretary'; canSelectTeam exactly for 'treasurer' and 'coach' |
| `User.RoleState.CurrentPermissions` | src/composables/useUser.js:9-22 | the current flags: canManageMoney exactly when the current role is 'treasurer', canEditRules exactly for 'treasurer' or 'secretary', canSelectTeam exactly for 'treasurer' or 'coach' |
| `User.UnlistedRoleHasNoPermissions` | src/composables/useUser.js:17-20 | 'parent' and every role the switch does not name get all three flags false |
| `User.RoleState.constructor` | src/composables/useUser.js:3-4 | the initial role is 'treasurer', which holds all three flags |
| `User.RoleState.SetRole` | src/composables/useUser.js:24-26 | the role becomes exactly the argument, and the permissions afterwards are those of the argument, whatever the previous role |
| `Club.LowerChar` | src/composables/useClub.js:12 | one character lowers to one or two characters, none an ASCII capital |
| `Club.Lower` | src/composables/useClub.js:12 | the lowered name contains no ASCII capital |
| `Club.Hyphenate` | src/composables/useClub.js:12 | same length; each space becomes a hyphen and every other character stays in place |
| `Club.StripNonWord` | src/composables/useClub.js:12 | keeps only characters of the input that are ASCII letters, digits, '_' or '-', and is no longer than the input |
| `Club.Slug` | src/composables/useClub.js:12 | every slug character is a lowercase ASCII letter, a digit, '_' or '-' |
| `Club.SlugIsCharwise` | src/composables/useClub.js:12 | the slug is the concatenation, in order, of each name character's contribution: space or hyphen → one '-', letter → its lower case, digit or '_' → itself, anything else → nothing |
| `Club.SlugNoLonger` | src/composables/useClub.js:12 | the slug is never longer than the name |
| `Club.SlugFixesSlugs` | src/composables/useClub.js:12 | a string made only of slug characters is its own slug |
| `Club.SlugIdempotent` | src/composables/useClub.js:12 | slugifying a slug returns it unchanged |
| `Club.SlugHyphenCount` | src/composables/useClub.js:12 | hyphens are not collapsed: the slug has as many hyphens as the name has spaces and hyphens together |
| `Club.ClubContext.constructor` | src/composables/useClub.js:4-6 | the active club starts as the demo club id with name 'Ashford Town FC' |
| `Club.ClubContext.CreateClub` | src/composables/useClub.js:10-28 | inserts the name with its slug and returns the insert's outcome; on an error the active club is unchanged; on success the active id and name become the inserted record's |
| `Toast.Without` | src/composables/useToast.js:25-27 | the filtered list holds exactly the entries of the input whose id differs, and is no longer |
| `Toast.WithoutAppend` | src/composables/useToast.js:26 | filtering distributes over concatenation, so surviving entries keep their order |
| `Toast.WithoutAbsent` | src/composables/useToast.js:26 | removing an id no entry carries leaves the list unchanged |
| `Toast.WithoutIdempotent` | src/composables/useToast.js:26 | removing the same id twice equals removing it once |
| `Toast.WithoutCommutes` | src/composables/useToast.js:20-26 | two removals give the same list in either order |
| `Toast.ShowThenRemove` | src/composables/useToast.js:8-26 | a toast with an id no earlier entry has, appended and then removed by its timer, leaves the earlier list exactly as it was |
| `Toast.ToastStack.constructor` | src/composables/useToast.js:4 | the list starts empty |
| `Toast.ToastStack.ShowToast` | src/composables/useToast.js:8-17 | appends exactly one entry at the end with the given id, title and message and the given type or 'success'; earlier entries unchanged |
| `Toast.ToastStack.RemoveToast` | src/composables/useToast.js:25-27 | the list becomes the old one without the entries of that id; no entry with that id remains; the list does not grow |
| `Confirm.Settle` | src/composables/useConfirm.js:17-24 | resolving a request adds it to the settled ones, never changes an earlier answer, and records the given answer only for a request not yet settled |
| `Confirm.SettleOnce` | src/composables/useConfirm.js:22-30 | a second answer to a settled request changes nothing; the first answer sticks |
| `Confirm.ConfirmDialog.constructor` | src/composables/useConfirm.js:4-7 | hidden, empty title and message, no stored resolver, nothing answered |
| `Confirm.ConfirmDialog.ShowConfirm` | src/composables/useConfirm.js:12-20 | sets title and message, shows the dialog, returns a new unanswered request whose resolver replaces any earlier one; answers unchanged |
| `Confirm.ConfirmDialog.HandleConfirm` | src/composables/useConfirm.js:22-25 | hides the dialog, keeps title, message and resolver, and answers the stored request (if any) with true |
| `Confirm.ConfirmDialog.HandleCancel` | src/composables/useConfirm.js:27-30 | hides the dialog, keeps title, message and resolver, and answers the stored request (if any) with false |
| `Confirm.ReplacedRequestStaysPending` | src/composables/useConfirm.js:12-30 | after two `showConfirm` calls, Yes and then No, the first request is never answered and the second keeps the answer true |
| `Confirm.HandlersWithoutRequest` | src/composables/useConfirm.js:22-30 | with no prior `showConfirm`, the handlers only hide the dialog and answer nothing |

## Left out

- The data-service queries (src/composables/useStats.js:16-35, src/composables/useClub.js:15-19) are network I/O; their results are inputs of `FetchMyStats` and the `insert` function of `CreateClub`.
- src/composables/useHousehold.js is a fetch wrapper plus a reactive watcher; it has no logic beyond copying a query result and is not part of this model.
- src/router/index.js, src/main.js and tailwind.config.js hold routing, bootstrap and styling configuration only; they are not part of this model.
- Vue reactivity (`ref`, `computed`, `watch`) and async scheduling: refs are plain fields, and each async function runs to completion in one method call, so interleavings of two concurrent fetches are not modelled.
- `Date.now()` ids and the `setTimeout` removal of toasts: ids are parameters and the timer is a later `RemoveToast` call; ids need not be unique, and toasts sharing an id are removed together.
- Stats.MatchHistory: the score and performance are a pair and a tagged value, not the formatted strings with emoji that the source builds.
- Stats.StatsView.FetchMyStats: goals and assists are natural numbers; a null column, which JavaScript arithmetic would treat as 0, is not modelled, nor is the unused `rating` column.
- Stats.StatsFor: XP and the totals are unbounded integers; JavaScript numbers are exact for these values below 2^53, so no rounding is modelled.
- Club.Lower: `toLowerCase` is modelled exactly on ASCII letters, U+212A (to 'k') and U+0130 (to 'i' followed by U+0307); other non-ASCII characters are kept unchanged rather than lowered, which the slug cannot observe because the final step drops every non-ASCII character.
- User.RoleState.SetRole: the role is a string; a non-string argument, which the source would also store, is not modelled.
- Toast.ToastStack.ShowToast: an omitted type is `None`; an explicit `null` type, which JavaScript stores as is, is not modelled.

## Findings

| source | as written | input that shows it | evidently intended | confidence | as-written member | corrected member |
|---|---|---|---|---|---|---|
| src/composables/useStats.js:6 | `const { user } = useUser()` reads a field that `useUser` (src/composables/useUser.js:28-32) does not return, so `user.value` at line 19 throws; the error is caught and only `loading` is cleared | any call of `fetchMyStats` | the signed-in user is available, so the player's stats and history are loaded | not executed | `Stats.StatsView.FetchMyStatsAsWritten` | `Stats.StatsView.FetchMyStats` |
