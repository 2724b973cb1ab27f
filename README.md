# Chess Player Analyzer dashboard — a Dafny model

This project models the client-side core of the Chess Player Analyzer
dashboard, a Next.js front end whose users submit Chess.com usernames for a
backend to analyse. The user watches each player's analysis progress in a
list and then opens a results page that grades the player's metrics.

The model covers these parts of the client:

- **The players list** (`PlayersList`).
  - It upserts a newly submitted player and drops a stopped or deleted one.
  - It turns the outcome of `GET /api/players` into rows or an error.
  - It classifies the errors of its four requests and guards its click, stop and delete handlers against double clicks.
  - It decides what each row shows: badge, clamped progress bar, stop and delete buttons.
- **The progress poller** (`ProgressPolling`).
  - Each tick fetches the players that were `pending` when the running interval started (its callback keeps the list it was created with) and merges the answers into the current list.
  - It holds at most one interval, running exactly while some player is pending.
- **The single-player hook** (`UsePlayer`): when it polls, when it subscribes to the event stream, and how a stream event is folded into the cached player.
- **The event-stream hook** (`PlayerStream`): a state machine over `EventSource` callbacks, cleanup and `disconnect`.
- **The home page form** (`HomePage`).
  - Username validation and the optimistic row.
  - The request body and the ordered error classifier.
  - The `isAnalyzing` bracket and the input clearing.
- **The schemas** (`Types`): the two zod schemas as acceptance predicates over parsed JSON.
- **The results page** (`ResultsPage`, `Retry`).
  - The comparison chains that pick trend, percentile and risk captions.
  - The peer-delta signs and the screen selection.
  - The shared query retry rule.

Network requests are not performed. Each request's outcome is an input of the model (`Http.Outcome`): either the server answered with a status, a status text and a body (JSON or not), or the call threw an error with a `name` and a `message`.

Each asynchronous handler is split at its `await` into a Begin method and a Finish method. As a result, busy flags and guards can be observed between the two.

JavaScript semantics are written out where they matter:

- truthiness in `a || b`;
- `!== undefined`;
- `??`;
- `String.prototype.includes` and `trim`, over JavaScript's whitespace set;
- comparisons with `undefined`, which are false, and with `null`, which counts as 0.

The model follows the code, including where it behaves differently from what one might expect of a progress tracker:

- Polled progress can go backwards (`ProgressPolling.ProgressCanRewind`).
- There are no version counters, no backoff, and no mapping of a 404 to a failed state.
- The list schema admits `in_progress`, `completed` and `failed`, but not the `ready` and `error` statuses the list's badges and delete button test for (`Types.ReadyAndErrorRejected`, `PlayersList.ValidatedRowsNeverDeletable`).

## Model

| member | source | states |
|---|---|---|
| Text.Trim | app/page.tsx:34 | `trim` is empty exactly for all-whitespace input, and otherwise starts and ends with non-whitespace |
| Text.TrimIsSlice | app/page.tsx:34 | `trim` returns a slice `s[a..b]` of its input with only whitespace before `a` and after `b` |
| Text.TrimIdempotent | app/page.tsx:50 | trimming an already trimmed username changes nothing |
| Text.Contains | components/players-list.tsx:143 | `includes` holds exactly when the substring occurs at some index |
| Http.NotOkMessage | components/players-list.tsx:101 | the error for a failed response is never empty: a truthy string `error` of the body, else a truthy string `details`, else `HTTP <status>: <statusText>` |
| Http.CommandError | components/players-list.tsx:267-271 | a command fails exactly when it threw or was answered with a non-ok status; a thrown error is passed on, and a non-ok answer becomes an `Error` with the failed-response message |
| Types.ListItemShape | lib/types.ts:4-11 | an accepted list item has string id, username and created_at, one of the four statuses, and optional-nullable finished_at and risk_score |
| Types.ReadyAndErrorRejected | lib/types.ts:7 | a list item with status `ready` or `error` is rejected |
| Types.OneBadItemRejectsArray | components/players-list.tsx:120 | `.array().parse` rejects the whole list when one item is rejected |
| Types.ValidatedItemStatus | lib/types.ts:5-8 | a validated item read as a row has one of the four schema statuses, an id and a creation time |
| Types.MissingGroupRejected | lib/types.ts:36-81 | every nested group of the metrics detail is required |
| Types.ConformsAfterUpdate | lib/types.ts:16-82 | changing one property keeps an object accepted iff the new value passes that property's validator |
| Types.NullableGroupFields | lib/types.ts:73-81 | among the group properties, null is accepted exactly for the four nullable ones |
| Types.NullAcceptedOnlyWhereNullable | lib/types.ts:73-81 | nulling a group property of an accepted detail keeps it accepted iff the property is one of the four nullable ones |
| Types.DetailCollections | lib/types.ts:40-43 | in an accepted detail `risk_factors` maps strings to numbers and `roi_curve` is a list of numbers |
| PlayersList.SpreadValue | components/players-list.tsx:54 | each property of `{...p, ...n}` comes from `n` exactly when `n` has it |
| PlayersList.SpreadIdempotent | components/players-list.tsx:54 | spreading the same record twice equals spreading it once |
| PlayersList.UpsertPlayer | components/players-list.tsx:48-58 | new username: prepended, length + 1, old rows in order; known username: same length, matching rows take the new record's own properties, the rest unchanged; the username is present afterwards |
| PlayersList.UpsertKeepsUnique | components/players-list.tsx:48-58 | unique usernames stay unique after `addPlayer` |
| PlayersList.UpsertIdempotent | components/players-list.tsx:48-58 | adding the same record twice equals adding it once |
| PlayersList.WithoutPlayer | components/players-list.tsx:274 | the stop/delete filter keeps exactly the rows whose username differs |
| PlayersList.WithoutPlayerConcat | components/players-list.tsx:333 | the filter works row by row, so the surviving rows keep their order |
| PlayersList.WithoutAbsentPlayer | components/players-list.tsx:274 | filtering out an absent username returns the list unchanged |
| PlayersList.WithoutPlayerIdempotent | components/players-list.tsx:333 | repeating a stop or delete changes nothing |
| PlayersList.WithoutPlayerKeepsUnique | components/players-list.tsx:274 | the filter keeps usernames unique |
| PlayersList.ListFetchOf | components/players-list.tsx:97-135 | loaded iff ok and a JSON array; non-array gives the "expected array" error; an ok non-JSON body gives the parser's error; empty array gives no rows; failed validation still stores every row; failures carry the thrown or status error |
| PlayersList.FetchErrorMessage | components/players-list.tsx:139-149 | timeout first, then network, then the error's message or "Unknown error occurred"; the "backend" branch changes nothing; never empty |
| PlayersList.FindPlayer | components/players-list.tsx:172 | `find` returns the first row with the username, and nothing iff there is none |
| PlayersList.ClickStartOf | components/players-list.tsx:168-183 | silent return iff that player is already loading; otherwise the "still analysing" toast (progress defaulting to 0) iff the first row with the username is `pending`; otherwise the metrics request |
| PlayersList.ClickError | components/players-list.tsx:199-211 | navigation iff ok with a JSON body; a 404 becomes the "not found or not analyzed yet" error, any other failed status the failed-response message, a non-JSON ok body the parser's error, a thrown error itself |
| PlayersList.ClickErrorToast | components/players-list.tsx:216-237 | timeout, then network, then the gentle "has not been fully analyzed yet" toast when the message has the not-analysed phrase, else the message or "Unknown error occurred"; only the gentle one is non-destructive |
| PlayersList.ClickResultOf | components/players-list.tsx:199-237 | navigate to `/results?user=` and the username exactly when there is no error, else the classified toast |
| PlayersList.NotFoundIsGentle | components/players-list.tsx:204-228 | a 404 never navigates and ends with the gentle "not fully analyzed" toast (or the network message if the username says "Failed to fetch") |
| PlayersList.StopErrorMessage | components/players-list.tsx:283-291 | timeout, then network, then the error's own message or "Unknown error occurred"; never empty |
| PlayersList.StopToast | components/players-list.tsx:276-297 | success: "Analysis Stopped" with "Analysis for <u> has been stopped and removed"; failure: the destructive "Error Stopping Analysis" with the classified message |
| PlayersList.DeleteErrorMessage | components/players-list.tsx:342-350 | timeout, then network, then the error's own message or "Error desconocido" (Spanish); never empty |
| PlayersList.DeleteToast | components/players-list.tsx:335-356 | success: "Jugador eliminado" with "El jugador <u> ha sido eliminado exitosamente"; failure: the destructive "Error al eliminar jugador" with the classified message |
| PlayersList.LoadErrorToast | components/players-list.tsx:152-159 | destructive, titled "Error Loading Players", carrying the classified, non-empty message |
| PlayersList.ShowsProgressBar | components/players-list.tsx:520 | the bar is drawn for a `pending` row with a defined progress (its relation to the buttons is in `ButtonsExclusive`) |
| PlayersList.ShowsStopButton | components/players-list.tsx:570 | the stop button is drawn for `pending` rows only |
| PlayersList.ShowsDeleteButton | components/players-list.tsx:611 | the delete button is drawn for `ready` and `error` rows only |
| PlayersList.StatusBadge | components/players-list.tsx:371-394 | three coloured badges; any other status is shown as itself |
| PlayersList.ShownProgress | components/players-list.tsx:524 | the bar's value is clamped to [0, 100] and in-range values pass through unchanged |
| PlayersList.ShownProgressMonotone | components/players-list.tsx:524-528 | the clamp preserves order and is idempotent |
| PlayersList.ButtonsExclusive | components/players-list.tsx:520-611 | a row never shows both stop and delete; a progress bar implies the stop button |
| PlayersList.ValidatedRowsNeverDeletable | components/players-list.tsx:120-121 | rows stored through the validated branch never show delete, or the ready or error badge |
| PlayersList.PlayersListState.constructor | components/players-list.tsx:34-40 | empty list, loading, no error, retry count 0, nothing in flight |
| PlayersList.PlayersListState.AddPlayer | components/players-list.tsx:48-58 | the list becomes the upsert of the new record |
| PlayersList.PlayersListState.BeginFetch | components/players-list.tsx:78-79 | loading with the error cleared |
| PlayersList.PlayersListState.FinishFetch | components/players-list.tsx:97-165 | loaded rows replace the list with no error; failure empties the list and sets the message; loading always ends; "Connection Restored" only after a retry of the validated branch |
| PlayersList.PlayersListState.BeginRetry | components/players-list.tsx:362-365 | the count goes up, but the fetch sees the old count |
| PlayersList.PlayersListState.BeginPlayerClick | components/players-list.tsx:168-183 | the player is marked loading exactly when its metrics are requested |
| PlayersList.PlayersListState.FinishPlayerClick | components/players-list.tsx:199-240 | navigate or toast, and the loading mark is cleared |
| PlayersList.PlayersListState.BeginStop | components/players-list.tsx:246-249 | a stop is sent unless that player is already being stopped |
| PlayersList.PlayersListState.FinishStop | components/players-list.tsx:267-300 | a successful stop filters the player out, a failed one keeps the list; the mark is cleared |
| PlayersList.PlayersListState.BeginDelete | components/players-list.tsx:306-309 | a delete is sent unless that player is already being deleted |
| PlayersList.PlayersListState.FinishDelete | components/players-list.tsx:326-359 | a successful delete filters the player out, a failed one keeps the list; the mark is cleared |
| ProgressPolling.FetchPlayerProgress | hooks/useProgressPolling.ts:18-38 | the parsed body of an ok answer, null for every failure |
| ProgressPolling.FindUpdate | hooks/useProgressPolling.ts:56-58 | the fulfilled update for the username with no earlier one for it (the first), none iff there is no such update |
| ProgressPolling.MergeFields | hooks/useProgressPolling.ts:60-69 | identity fields kept; progress replaced whenever the property is present (by the number, or absent for a non-number); status, totals, done count and finish time taken when truthy and kept otherwise |
| ProgressPolling.MergeFieldsIdempotent | hooks/useProgressPolling.ts:62-69 | merging the same record twice equals merging it once |
| ProgressPolling.ZeroCountsNeverOverwrite | hooks/useProgressPolling.ts:66-67 | a `done_games` or `total_games` of 0, or a missing one, never overwrites the row's count |
| ProgressPolling.ProgressCanRewind | hooks/useProgressPolling.ts:65 | a smaller incoming progress is taken as is, so progress can decrease |
| ProgressPolling.MergedRow | hooks/useProgressPolling.ts:56-72 | a row with no update, or with null/falsy data, is unchanged; a row whose first update has truthy data is merged with it; the username never changes |
| ProgressPolling.MergeProgress | hooks/useProgressPolling.ts:54-74 | the merge keeps length, order and every username; each row becomes its own merged row, and rows without updates are unchanged |
| ProgressPolling.MergeProgressIdempotent | hooks/useProgressPolling.ts:54-74 | merging the same answers twice equals merging them once |
| ProgressPolling.PendingUsernames | hooks/useProgressPolling.ts:41-45 | exactly the usernames of pending rows; empty iff no row is pending |
| ProgressPolling.PollResults | hooks/useProgressPolling.ts:47-52 | one fulfilled entry per pending username, in order, carrying that username's fetch result |
| ProgressPolling.PollResultsFound | hooks/useProgressPolling.ts:47-58 | an update is found for a username iff it was polled, and carries its own fetch result |
| ProgressPolling.PollTick | hooks/useProgressPolling.ts:40-75 | no state update iff nothing was pending; otherwise length and usernames preserved |
| ProgressPolling.UnpolledRowsUnchanged | hooks/useProgressPolling.ts:41-72 | a row not pending when the interval started comes out of the tick unchanged |
| ProgressPolling.OnlyPendingRowsChange | hooks/useProgressPolling.ts:41-72 | with unique usernames and an up-to-date list, non-pending rows never change |
| ProgressPolling.PolledProgressApplied | hooks/useProgressPolling.ts:41-65 | a pending row whose record comes back with numeric progress takes that progress |
| ProgressPolling.PolledStatusApplied | hooks/useProgressPolling.ts:41-64 | a pending row whose record comes back with a non-empty status takes it; a non-pending status removes the stop button and the progress bar |
| ProgressPolling.Poller.constructor | hooks/useProgressPolling.ts:15-16 | not polling, no interval |
| ProgressPolling.Poller.StartPolling | hooks/useProgressPolling.ts:77-82 | no-op while an interval is held; otherwise exactly one new interval over the given list |
| ProgressPolling.Poller.StopPolling | hooks/useProgressPolling.ts:84-90 | handle cleared, no interval left, not polling; idempotent |
| ProgressPolling.Poller.SyncWithPlayers | hooks/useProgressPolling.ts:93-101 | afterwards `isPolling` equals "some player is pending"; a held interval is kept with its list; a newly started interval gets the next handle and polls exactly `players`; with nothing pending the closed-over list is untouched |
| ProgressPolling.Poller.Unmount | hooks/useProgressPolling.ts:104-108 | unmount always stops |
| ProgressPolling.Poller.Tick | hooks/useProgressPolling.ts:81 | a firing merges answers for the list the interval was started with |
| UsePlayer.RefetchInterval | hooks/usePlayer.ts:17-20 | 5000 ms exactly while the cached player is pending, else no polling |
| UsePlayer.StreamUsername | hooks/usePlayer.ts:23 | the stream gets the username exactly when it is non-empty and the cached status is pending |
| UsePlayer.IsAnalyzing | hooks/usePlayer.ts:64 | the cached player is `pending`; polling and streaming both follow it (`RefetchInterval`, `StreamUsername`) |
| UsePlayer.Progress | hooks/usePlayer.ts:65 | the cached progress, 0 when absent |
| UsePlayer.ApplyStreamEvent | hooks/usePlayer.ts:29-53 | no cache stays none; `updated_at` always set; progress and games copied when defined; status and error only when truthy |
| UsePlayer.ApplyReflects | hooks/usePlayer.ts:32-52 | after the update the cache agrees with every defined event property; other properties are untouched |
| UsePlayer.ApplyIdempotent | hooks/usePlayer.ts:29-53 | folding the same event in twice equals folding it in once |
| UsePlayer.OnStreamEvent | hooks/usePlayer.ts:26-59 | nothing without an event or username; otherwise the update, with a refetch exactly after `completed` |
| UsePlayer.StreamImpliesPolling | hooks/usePlayer.ts:17-23 | while the stream is subscribed the query also polls every 5000 ms |
| UsePlayer.LeavingPendingStopsUpdates | hooks/usePlayer.ts:40-42 | a truthy non-pending status in an event ends both polling and streaming |
| PlayerStream.PlayerStreamState.constructor | hooks/usePlayerStream.ts:7-10 | no event, not connected, no error, no source |
| PlayerStream.PlayerStreamState.Cleanup | hooks/usePlayerStream.ts:44-48 | the effect's source is closed, the ref nulled and the hook disconnected |
| PlayerStream.PlayerStreamState.Subscribe | hooks/usePlayerStream.ts:12-21 | a null or empty username resets the state and opens nothing; otherwise exactly one fresh source is open and in the ref |
| PlayerStream.PlayerStreamState.OnOpen | hooks/usePlayerStream.ts:23-26 | connected, with the error cleared |
| PlayerStream.PlayerStreamState.OnMessage | hooks/usePlayerStream.ts:28-37 | a parsed event becomes `lastEvent`; a rejected one sets the parse error and keeps the event; the connection flag is untouched |
| PlayerStream.PlayerStreamState.OnError | hooks/usePlayerStream.ts:39-42 | disconnected with "Connection lost" |
| PlayerStream.PlayerStreamState.Disconnect | hooks/usePlayerStream.ts:55-58 | exactly the ref's source is closed and the hook disconnected; the ref, the last event and the error stay |
| PlayerStream.PlayerStreamState.Unmount | hooks/usePlayerStream.ts:44-48 | no source stays open |
| HomePage.NewPlayer | app/page.tsx:49-57 | trimmed username, pending, progress 0, done 0, no total and no finish time |
| HomePage.OptimisticRowIsPending | app/page.tsx:49-62 | after the upsert the list holds a pending row for the trimmed username with progress 0 and shows its bar; the list has a pending row, so polling starts if no interval is held (a held interval keeps its older list); a listed player keeps its id |
| HomePage.RequestBody | app/page.tsx:73 | the body carries the trimmed username |
| HomePage.AnalyzeError | app/page.tsx:79-86 | the analysis starts iff the answer is ok with a JSON body; a failed status gives the failed-response message, a non-JSON ok body the parser's error, a thrown error itself |
| HomePage.AnalyzeErrorMessage | app/page.tsx:99-111 | timeout, network, duplicate, unknown user, then the message or the default, with the first match winning; never empty |
| HomePage.AnalyzeToast | app/page.tsx:89-117 | destructive exactly on failure, carrying the classified message |
| HomePage.HomePageState.constructor | app/page.tsx:28-29 | empty input, not analysing |
| HomePage.HomePageState.Type | app/page.tsx:204 | the input holds what was typed |
| HomePage.HomePageState.ButtonDisabled | app/page.tsx:213 | the analyse button is disabled while analysing or while the username is blank |
| HomePage.HomePageState.BeginAnalyze | app/page.tsx:33-62 | a blank username is refused and changes nothing; with the ref set, calling it throws a `TypeError` before any request, so the "Analysis Failed" toast is shown and `isAnalyzing` is false again; otherwise analysing, with the trimmed username as the body |
| HomePage.HomePageState.FinishAnalyze | app/page.tsx:79-120 | not analysing on every path; the input is cleared only on success |
| HomePage.HomePageState.KeyPress | app/page.tsx:123-127 | Enter starts an analysis iff none is running; a blank username is refused without changing `isAnalyzing`; a set ref fails early with `isAnalyzing` false; otherwise the request is made while analysing |
| Retry.ShouldRetry | app/page.tsx:18-21 | never after a 404; otherwise iff fewer than 3 failures |
| Retry.RetriesBounded | app/results/page.tsx:22-25 | at most three retries in all, and none for a 404 |
| Retry.GivesUpForGood | app/results/page.tsx:22-25 | once the rule refuses, it refuses every later count |
| ResultsPage.AcplTrendOf | app/results/page.tsx:318-324 | the caption is chosen by the bands < -50, < 0, < 50, else, each exactly on its band |
| ResultsPage.AcplTrendMonotone | app/results/page.tsx:318-324 | a larger trend never gets a better caption; missing reads "Empeoramiento", null reads "Estable" |
| ResultsPage.MatchTrendOf | app/results/page.tsx:338-344 | bands > 0.05, > 0, > -0.05, else, each exactly on its band |
| ResultsPage.MatchTrendMonotone | app/results/page.tsx:338-344 | a larger trend never gets a lower caption; missing reads "Disminución" |
| ResultsPage.TrendVerdict | app/results/page.tsx:361-365 | "Sospechoso" iff trend_acpl < -100 and trend_match_rate > 0.02; "Mejorando" iff otherwise trend_acpl < -50; else "Normal" |
| ResultsPage.TrendColour | app/results/page.tsx:353-358 | red exactly when trend_acpl < -100 and trend_match_rate > 0.02, green exactly when trend_acpl is not < -50, orange otherwise |
| ResultsPage.VerdictAgreesWithColour | app/results/page.tsx:353-365 | colour and label always agree; a non-normal verdict implies the "Mejora significativa" caption |
| ResultsPage.AcplPercentileBandOf | app/results/page.tsx:567-573 | bands >= 90, >= 75, >= 25, else |
| ResultsPage.EntropyBandOf | app/results/page.tsx:599-603 | bands >= 75, >= 25, else |
| ResultsPage.PercentileBandsMonotone | app/results/page.tsx:567-603 | a higher percentile never falls to a lower extreme band |
| ResultsPage.RiskConclusion | app/results/page.tsx:732-738 | bands >= 75, >= 50, >= 25, else |
| ResultsPage.RiskConclusionMonotone | app/results/page.tsx:732-738 | a higher score never yields a lower level; missing or null gives the lowest |
| ResultsPage.PeerDeltaDisplay | app/results/page.tsx:616-627 | "+" and the "above" qualifier ("(peor)" for ACPL, "(mayor)" for match rate) iff the delta is > 0, else "(mejor)" / "(menor)" |
| ResultsPage.NonPositiveDeltaIsFavourable | app/results/page.tsx:616-627 | a zero, missing or null delta is shown without "+" and as favourable |
| ResultsPage.ScreenOf | app/results/page.tsx:42-75 | "No Player Selected" exactly when the query is disabled; otherwise the loading screen while loading, the error's message on failure, and the results exactly on success |

## Left out

- Network I/O, AbortController timeouts and `response.json()` are not modelled: each request's outcome is an input.
- Timers are not modelled: `setInterval`'s timing, `Promise.allSettled` parallelism, React's batching of state updates and effect ordering. Each handler is modelled as a Begin/Finish pair, and the poller's interval as explicit `Tick` calls.
- Presentation is not modelled:
  - JSX and styling, the loading skeletons, the charts and metric widgets;
  - `formatNumber`, `formatDate`, `Math.round` in the toast text, and the `* 100` scaling;
  - lib/helpers, which is not part of this model;
  - the games-count spans and the percentile colour helpers.
- Toasts are kept only as title, description and style. Console logging and `router.push` are reduced to the URL navigated to.
- The global hook-up (`window.addPlayerToList`, and `onPlayerAdded` feeding `addPlayerRef`) is not modelled beyond its effect on the form. `addPlayerRef.current` is only ever assigned the row that `PlayersList` passes to `onPlayerAdded` (app/page.tsx:254-255, components/players-list.tsx:59), so a set ref holds an object and `HomePage.HomePageState.BeginAnalyze` models its call at app/page.tsx:61 as throwing. Whether the ref is set is an input.
- HomePage.RefCallError: the `TypeError` message is the one V8 gives for calling a non-function; other engines word it differently.
- Zod's error messages and its stripping of undeclared keys are not modelled; only acceptance is.
- The `Player` and `StreamEvent` shapes and `StreamEventSchema` are not defined in lib/types.ts, so they are not part of this model. Their fields are taken from the hooks that use them. Whether an event message parses is an input of `OnMessage`.
- PlayersList.ListFetchOf: rows stored raw after failed validation are read field by field into the row type. A non-string or non-number value reads as absent, and a missing username or status reads as "". The source stores the raw objects.
- ProgressPolling.MergeFields: a truthy non-string `status` or `finished_at`, or a truthy non-number count, reads as absent, so it falls back to the old value. A present non-number `progress` (`null`, a string) leaves the row without progress. The source would copy such values in.
- Http.NotOkMessage: a truthy non-string `error` or `details` reads as absent, whereas the source would turn it into a string. A failed response whose body is the JSON `null` gives the HTTP-status message in the model; in the source, reading `.error` of `null` throws a TypeError whose engine-specific message the handler then reports.
- PlayersList.ShowsProgressBar: a `null` progress is read as absent, so no bar is drawn. The source draws a bar at 0 for `null`.
- ResultsPage.Lt: metric values other than numbers, `null` and `undefined` (strings, booleans) are not modelled.
- UsePlayer.ApplyStreamEvent: `new Date().toISOString()` is the input `now`.
- lib/chess-api.ts and the API proxy routes are not part of this model. Therefore the results page's query state is an input of `ScreenOf`.
- Behaviours the code does not have are not modelled: there is no guarantee that progress never decreases, no version counter on rows, no exponential backoff between retries, no mapping of a 404 to a `failed` status, and the stream does not replace polling.
