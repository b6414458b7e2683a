# CodeBattle front end — a Dafny model of its deterministic core

CodeBattle is a React front end for one-on-one coding duels that runs on mock data. This
project models the parts of it whose behaviour can be stated in closed form once React state,
timers and rendering are set aside:

- the mocked real-time connection (`WebSocketContext`): message dispatch, the duel built on
  join, the timed updates that play the opponent, and the mocked submission verdicts, as pure
  `Option<Duel>` updaters plus a `Provider` class whose methods update its state fields;
- duel status derivations: the player labels and duration of the duel summary (`DuelInfo`),
  joinability, status classes and footer button of a duel card (`DuelCard`), and the duel page's
  starter templates, 30-minute countdown and its one-second tick (`DuelPage`, with a `Page`
  class for the page's state);
- formatting: the `m:ss` clock (`CodeEditor`, `DuelInfo`), the verdict text and colour tables,
  the 120-character task preview (`TaskCard`) and the paragraph split (`TaskDescription`);
- the login form's validator (`LoginForm`, a `Form` class whose `ValidateForm` works step by
  step like the source);
- list filtering and sorting: the task page's search, difficulty filter and sorts, done on a
  fresh array with an in-place insertion sort (`TasksPage`), and the duel page's search and
  status filter (`DuelsPage`);
- win-rate arithmetic of the leaderboard and the profile header.

Shared helpers: `Types` (the entities of `src/types/index.ts`), `Text` (JavaScript's
`${n}` rendering of integers, `includes`, `toLowerCase`, the clock format), `JsMath`
(JavaScript's truncating `%` and `Math.round` of a ratio) and `Seqs` (order-preserving filter).

Timestamps are integer milliseconds since the epoch and strings are `seq<char>`. The current
time (`Date.now()`, `new Date()`) is a parameter `now` of the operations that read it.

## Model

| member | source | states |
|---|---|---|
| WebSocketContext.Route | src/contexts/WebSocketContext.tsx:60-75 | nothing is dispatched while disconnected; 'JOIN_DUEL' joins and 'SUBMIT_SOLUTION' submits exactly when connected; every other type is ignored |
| WebSocketContext.Provider.SendMessage | src/contexts/WebSocketContext.tsx:60-75 | while disconnected, or for any other message type, neither the duel nor the submission status changes; a join installs the mock duel for the payload's id; a submission sets the status to pending and leaves the duel alone |
| WebSocketContext.JoinedDuel | src/contexts/WebSocketContext.tsx:78-125 | the joined duel has the requested id and status WAITING, player 1 ready and player 2 present but not ready, nobody submitted or completed, no start, end or winner; player 1 is the signed-in user's id or "1", player 2 is "2" |
| WebSocketContext.Provider.SimulateJoinDuel | src/contexts/WebSocketContext.tsx:78-128 | the current duel becomes the joined duel, keeping the provider's invariant |
| WebSocketContext.OpponentReady | src/contexts/WebSocketContext.tsx:131-143 | null stays null; otherwise status IN_PROGRESS, start time `now`, player 2 ready, and every other field (id, task, player 1, player 2's other fields) unchanged |
| WebSocketContext.Provider.OpponentReadyTimer | src/contexts/WebSocketContext.tsx:131-144 | the current duel is replaced by the ready-up update of the old one |
| WebSocketContext.RecordSubmission | src/contexts/WebSocketContext.tsx:162-173 | null stays null; otherwise player 1 has submitted and completed at `now`, all other player 1 fields, the status and player 2 unchanged |
| WebSocketContext.FinishDuel | src/contexts/WebSocketContext.tsx:177-189 | null stays null; otherwise status FINISHED, end time `now`, winner = player 1's id, player 2 submitted but not completed, every other field unchanged |
| WebSocketContext.MockDuelLifecycle | src/contexts/WebSocketContext.tsx:78-191 | join, ready, submit, finish takes the status WAITING, IN_PROGRESS, IN_PROGRESS, FINISHED and ends with player 1 the winner, the same id and the recorded start and end times |
| WebSocketContext.SubmissionStatusAfter | src/contexts/WebSocketContext.tsx:148-159 | the status shown after a submission is only ever pending, running or accepted |
| WebSocketContext.SubmissionStatusMonotone | src/contexts/WebSocketContext.tsx:150-159 | the status only moves forward (pending, running, accepted) and never reports a failing verdict |
| WebSocketContext.Provider.SimulateSubmitSolution | src/contexts/WebSocketContext.tsx:148-150 | the submission status becomes pending |
| WebSocketContext.Provider.TestsRunningTimer | src/contexts/WebSocketContext.tsx:153-155 | the submission status becomes running |
| WebSocketContext.Provider.TestsPassedTimer | src/contexts/WebSocketContext.tsx:158-173 | the status becomes accepted and the duel takes player 1's submission |
| WebSocketContext.Provider.OpponentFinishedTimer | src/contexts/WebSocketContext.tsx:176-191 | the duel takes the finish update, keeping the invariant that a duel has a player 2 |
| WebSocketContext.Provider.ConnectionOpened | src/contexts/WebSocketContext.tsx:34-49 | only a signed-in user gets connected |
| WebSocketContext.Provider.ConnectionClosed | src/contexts/WebSocketContext.tsx:52-56 | the connection is marked closed |
| WebSocketContext.Provider.constructor | src/contexts/WebSocketContext.tsx:26-31 | starts disconnected with no duel and no submission status |
| DuelInfo.DurationInSeconds | src/components/duels/DuelInfo.tsx:16-21 | 0 when the start or end time is missing; otherwise the whole seconds d with d*1000 <= end - start < d*1000 + 1000 |
| DuelInfo.FormatDuration | src/components/duels/DuelInfo.tsx:23-28 | the duration on the `m:ss` clock; its promise is stated by FormatDurationWithoutTimes and FormatDurationReadsBack |
| DuelInfo.FormatDurationWithoutTimes | src/components/duels/DuelInfo.tsx:16-28 | a duel without both times shows "0:00" |
| DuelInfo.FormatDurationReadsBack | src/components/duels/DuelInfo.tsx:23-28 | for a non-negative duration the text is minutes, ':', exactly two second digits below 60, and minutes*60 + seconds is the whole number of seconds elapsed |
| DuelInfo.GetPlayerStatus | src/components/duels/DuelInfo.tsx:30-58 | "Winner" iff the duel is finished and the player won; otherwise "Completed" iff the player has submitted; otherwise "Cancelled" iff the duel is cancelled; otherwise "In Progress" |
| DuelInfo.LabelIgnoresHasCompleted | src/components/duels/DuelInfo.tsx:40-46 | the label does not depend on either player's `hasCompleted` |
| DuelInfo.FinishedLoserWithoutSubmissionShowsInProgress | src/components/duels/DuelInfo.tsx:30-58 | a player of a finished duel who did not win and never submitted is shown "In Progress" |
| DuelCard.GetStatusClass | src/components/duels/DuelCard.tsx:16-29 | no duel status falls through to the default grey class |
| DuelCard.IsJoinable | src/components/duels/DuelCard.tsx:14 | WAITING and no player 2; what it decides is stated by Footer and JoinableNeverShowsResults |
| DuelCard.StatusClassesDistinct | src/components/duels/DuelCard.tsx:16-29 | the four statuses get four different classes |
| DuelCard.Footer | src/components/duels/DuelCard.tsx:88-106 | the Join button iff the duel is WAITING without player 2 and a join handler is supplied; otherwise "View Results" with the secondary style iff finished, else "View Duel" |
| DuelCard.JoinableNeverShowsResults | src/components/duels/DuelCard.tsx:14-103 | a joinable duel shows Join or "View Duel", never "View Results" |
| DuelPage.StarterCode | src/pages/DuelPage.tsx:10-98 | every language has a non-empty starter template, each beginning with a line break, so the lookup `starterCode[language]` of line 98 never fails |
| DuelPage.Elapsed | src/pages/DuelPage.tsx:110-112 | whole seconds e since the start: e*1000 <= now - start < e*1000 + 1000 |
| DuelPage.Remaining | src/pages/DuelPage.tsx:114-116 | never negative; at most 1800 once the duel has started; 0 iff 1800 or more seconds have elapsed; otherwise remaining + elapsed = 1800 |
| DuelPage.CountdownRuns | src/pages/DuelPage.tsx:109 | a current duel with a start time and status string 'in_progress'; CountdownRunsIff states what it means |
| DuelPage.CountdownRunsIff | src/pages/DuelPage.tsx:109 | comparing the status with 'in_progress' is the same as the status being IN_PROGRESS, so the countdown runs exactly for a started duel in progress |
| DuelPage.Page.StartCountdown | src/pages/DuelPage.tsx:108-132 | the previous interval is cleared; for a running duel the value becomes the seconds remaining and a new interval ticks; otherwise the value is kept |
| DuelPage.NextTimeLeft | src/pages/DuelPage.tsx:121-127 | undefined or non-positive gives 0, otherwise one less; never negative |
| DuelPage.Page.Tick | src/pages/DuelPage.tsx:120-128 | a ticking interval applies the updater and stops exactly when it found nothing left; a cleared one changes nothing |
| DuelPage.TickNStep | src/pages/DuelPage.tsx:121-127 | n + 1 ticks are one more application of the updater after n ticks |
| DuelPage.TickNClosedForm | src/pages/DuelPage.tsx:121-127 | after n ticks from r >= 0 the value is max(0, r - n) |
| DuelPage.Page.RunFor | src/pages/DuelPage.tsx:120-128 | n firings leave the value n ticks on, even when the interval clears itself on the way |
| DuelPage.Page.HandleLanguageChange | src/pages/DuelPage.tsx:134-136 | the selected language becomes the new one |
| DuelPage.Page.JoinWhenConnected | src/pages/DuelPage.tsx:101-105 | when connected with a non-empty duel id the joined duel is installed; otherwise nothing changes; the submission status never changes |
| DuelPage.Page.HandleSubmit | src/pages/DuelPage.tsx:138-148 | without a duel id nothing happens; otherwise the page is submitting and, when connected, the submission is pending; the duel itself is unchanged |
| DuelPage.Page.constructor | src/pages/DuelPage.tsx:93-95 | starts in JavaScript, not submitting, with no time shown |
| CodeEditor.FormattedTimeReadsBack | src/components/duels/CodeEditor.tsx:34-38 | for s >= 0: the minutes digits of floor(s/60), ':', then two digits reading s mod 60, with a leading '0' iff s mod 60 < 10 |
| CodeEditor.GetFormattedTime | src/components/duels/CodeEditor.tsx:34-38 | the `m:ss` clock of a count of seconds; its promise is stated by FormattedTimeReadsBack |
| CodeEditor.GetStatusColor | src/components/duels/CodeEditor.tsx:40-59 | green iff accepted; red iff wrong answer, runtime or compilation error; yellow iff time or memory limit; blue iff pending or running; '' iff no status |
| CodeEditor.GetStatusText | src/components/duels/CodeEditor.tsx:61-84 | '' exactly when there is no status |
| CodeEditor.StatusTextDistinct | src/components/duels/CodeEditor.tsx:64-83 | the eight statuses get eight different labels |
| LoginForm.EmailPatternTestIff | src/components/auth/LoginForm.tsx:34 | the unanchored test of `\S+@\S+\.\S+` passes iff the email contains a non-space character, '@', a non-space character, '.', a non-space character, in that order with no space between |
| LoginForm.EmailPatternUnanchored | src/components/auth/LoginForm.tsx:34 | text before or after a passing email, whitespace included, never makes it fail |
| LoginForm.EmailPatternTest | src/components/auth/LoginForm.tsx:34 | the unanchored regular-expression test, as a search for a matching span; EmailPatternTestIff and EmailPatternUnanchored state its meaning |
| LoginForm.EmailErrorCases | src/components/auth/LoginForm.tsx:31-37 | "Email is required" iff empty; "Email is invalid" iff non-empty and failing the pattern; no error otherwise |
| LoginForm.EmailError | src/components/auth/LoginForm.tsx:31-37 | the email's error message; EmailErrorCases states each case |
| LoginForm.PasswordErrorCases | src/components/auth/LoginForm.tsx:39-45 | "Password is required" iff empty; the six-character message iff 1 to 5 characters; no error iff 6 or more |
| LoginForm.PasswordError | src/components/auth/LoginForm.tsx:39-45 | the password's error message; PasswordErrorCases states each case |
| LoginForm.NoErrorsIff | src/components/auth/LoginForm.tsx:31-45 | both error strings are empty iff the email is non-empty and passes the pattern and the password has at least 6 characters |
| LoginForm.Form.ValidateForm | src/components/auth/LoginForm.tsx:24-49 | the stored errors are the email and password errors, and the result is true iff both are empty |
| LoginForm.Form.HandleSubmit | src/components/auth/LoginForm.tsx:51-59 | `login` is called with the email and password exactly when validation passes |
| LoginForm.Form.SetEmail | src/components/auth/LoginForm.tsx:17 | the email field takes the typed value |
| LoginForm.Form.SetPassword | src/components/auth/LoginForm.tsx:18 | the password field takes the typed value |
| LoginForm.Form.constructor | src/components/auth/LoginForm.tsx:17-22 | starts with empty fields and no errors |
| TasksPage.FilteredTasks | src/pages/TasksPage.tsx:121-132 | an order-preserving subsequence of the tasks; every kept task matches; each task that matches is kept as often as it occurs |
| TasksPage.ApplyFiltersAndSorting | src/pages/TasksPage.tsx:119-142 | the result is a permutation of the tasks that pass both filters, ordered newest first by `createdAt` or by upvotes minus downvotes, non-increasing |
| TasksPage.SortInPlace | src/pages/TasksPage.tsx:134-139 | the array ends sorted non-increasingly by the chosen key and is a permutation of what it held |
| TasksPage.InsertAt | src/pages/TasksPage.tsx:134-139 | one insertion step extends the sorted prefix by one, leaves every entry after it in place, and keeps the array's contents |
| TasksPage.Swap | src/pages/TasksPage.tsx:134-139 | exchanges two entries and keeps the array's contents |
| TasksPage.NoFilterKeepsEveryTask | src/pages/TasksPage.tsx:121-132 | an empty query with 'all' keeps every task in order |
| TasksPage.SearchGuardRedundant | src/pages/TasksPage.tsx:123-127 | skipping the search for an empty query gives the same list as searching with it, since the empty query occurs in every title |
| DuelsPage.FilterDuels | src/pages/DuelsPage.tsx:141-158 | the result is the order-preserving subsequence of the duels that match the search (title, player 1, or player 2 when present, ignoring case) and the status filter, each kept as often as it occurs |
| DuelsPage.NoFilterListsEverything | src/pages/DuelsPage.tsx:143-157 | an empty query with 'all' returns the duels unchanged |
| DuelsPage.SearchWithoutPlayer2 | src/pages/DuelsPage.tsx:146-150 | a duel without player 2 matches only through its title or player 1's name |
| DuelsPage.SearchGuardRedundant | src/pages/DuelsPage.tsx:145-150 | skipping the search for an empty query gives the same list as searching with it, since the empty query occurs in every task title |
| LeaderboardTable.WinRate | src/components/leaderboard/LeaderboardTable.tsx:80-82 | 0 when there are no games; otherwise 100*wins/(wins+losses) rounded half up |
| LeaderboardTable.WinRateBounds | src/components/leaderboard/LeaderboardTable.tsx:80-82 | with non-negative counts the rate lies in 0..100, is 100 when only wins and 0 when no wins |
| LeaderboardTable.GetRankIcon | src/components/leaderboard/LeaderboardTable.tsx:28-39 | trophies (gold, silver, bronze colours) iff the position is 1, 2 or 3; every other position shows its number |
| LeaderboardTable.GetRankChangeIcon | src/components/leaderboard/LeaderboardTable.tsx:53-61 | up iff the change is positive, down iff negative, neutral iff zero |
| LeaderboardTable.ChangeMagnitude | src/components/leaderboard/LeaderboardTable.tsx:93 | blank iff the change is 0; otherwise the digits of its absolute value |
| ProfileHeader.CalculateWinRate | src/components/profile/ProfileHeader.tsx:20-23 | 0 when there are no duels; otherwise 100*wins/totalDuels rounded half up |
| ProfileHeader.CalculateWinRateBounds | src/components/profile/ProfileHeader.tsx:21-22 | for 0 <= wins <= totalDuels the rate lies in 0..100, is 100 when every duel was won and 0 when none was |
| ProfileHeader.AgreesWithLeaderboardWithoutDraws | src/components/profile/ProfileHeader.tsx:22 | when total duels = wins + losses both pages show the same rate |
| ProfileHeader.DiffersFromLeaderboard | src/components/profile/ProfileHeader.tsx:22 | with a denominator of total duels the rate can differ from the leaderboard's (1 win in 3 duels gives 33, 1 win and 1 loss gives 50) |
| TaskCard.Preview | src/components/tasks/TaskCard.tsx:31-34 | up to 120 characters are shown unchanged; a longer description shows its first 120 characters and "..."; never more than 123 characters; the text before the ellipsis is a prefix |
| TaskCard.DifficultyColor | src/components/tasks/TaskCard.tsx:13-17 | every difficulty has a colour class |
| TaskCard.DifficultyColorsDistinct | src/components/tasks/TaskCard.tsx:13-17 | the three difficulties get three different classes |
| TaskDescription.FirstBreak | src/components/duels/TaskDescription.tsx:12 | the first occurrence of "\n\n", or the end of the text when there is none |
| TaskDescription.Paragraphs | src/components/duels/TaskDescription.tsx:12 | `text.split('\n\n')`; ParagraphsRoundTrip, ParagraphsHaveNoBreak and SingleParagraphWithoutBreak state its promise |
| TaskDescription.ParagraphsRoundTrip | src/components/duels/TaskDescription.tsx:12 | there is at least one paragraph, and joining them with "\n\n" gives the text back |
| TaskDescription.ParagraphsHaveNoBreak | src/components/duels/TaskDescription.tsx:12 | no paragraph contains "\n\n" |
| TaskDescription.SingleParagraphWithoutBreak | src/components/duels/TaskDescription.tsx:12 | a text without "\n\n" is one paragraph, the text itself |
| TaskDescription.DifficultyColorByName | src/components/duels/TaskDescription.tsx:25-37 | the lookup finds a class exactly for 'easy', 'medium' and 'hard' |
| TaskDescription.DifficultyColorMatchesTaskCard | src/components/duels/TaskDescription.tsx:25-29 | every difficulty gets the same class here as on the task card |

## Left out

- Rendering, styling beyond the class names above, icons, routing, and the `AuthContext`
  that supplies the user and `login`: `login` is recorded as a call, and the signed-in user is
  a constructor parameter of `Provider`.
- Timers: every `setTimeout`/`setInterval` callback is a method of its own that a caller may
  invoke at any time; the delays (1, 2 and 3 seconds, the 1-second tick) are not enforced.
  `SubmissionStatusAfter` states the order the delays impose on a submission left alone.
- `Date` parsing, ISO strings and `toLocaleTimeString`/`toLocaleDateString`: times are integer
  milliseconds, so invalid dates (NaN) are not modelled, and `formatTime` is not part of this model.
- The random rank change of `getRankChange` (random numbers); only the icon and magnitude of a
  given change are modelled.
- DuelPage.Page.JoinWhenConnected: the join effect and the countdown effect are modelled as single
  steps a caller invokes; React re-runs an effect whenever one of its dependencies changes identity,
  and `sendMessage` gets a new identity on every render of the provider, so as written the join is
  sent again (putting the duel back to WAITING) after every provider update, and the countdown is
  restarted on every change of the current duel. These re-runs are not modelled, and
  WebSocketContext.MockDuelLifecycle describes the sequence of steps without them.
- WebSocketContext.OpponentReady: `prev.player2!` on a duel without player 2 would build a
  player 2 from `undefined` in JavaScript; the model requires player 2 to be present, which
  `Provider.Valid()` guarantees for every duel the provider installs.
- WebSocketContext.FinishDuel: requires player 2 to be present, for the same reason.
- WebSocketContext.Provider.SendMessage: payload fields other than the duel id, code and
  language, and console logging, are not modelled.
- Floating point: `Math.round((a / b) * 100)` is modelled as exact half-up rounding of the
  rational 100*a/b; the double-precision rounding of the quotient is not modelled.
- JavaScript numbers are unbounded integers here; the exponent form `${n}` uses for very large
  numbers and UTF-16 string lengths are not modelled.
- `toLowerCase` is modelled on ASCII letters only; other Unicode case mappings are not.
- TasksPage.ApplyFiltersAndSorting: the stability of `Array.prototype.sort` is not stated;
  the result is any non-increasing permutation of the filtered tasks, as the insertion sort gives.
- The task and duel fetches, loading flags and mock lists of the pages, and the other pages and
  components (profile page, registration, layout), are not part of this model.
