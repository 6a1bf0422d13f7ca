# kfactory protocols, verified

A Dafny model of the five stateful protocols of kfactory and two of its small grammars, with
proofs about every run, every interleaving and every input. Check it with

    dafny verify dfyconfig.toml

Nothing here runs kfactory. Each protocol is modelled as the code is written, branch by
branch; where the code does not do what its comments or documentation say, the model follows
the code and the difference is stated below.

## What is modelled

**Loop driver** (`LoopModel`, `LoopProtocol`, `LoopTheorems`, `LoopOutcomes`, `LoopPlugin`,
`Sentinel`). The plugin reads one state file, waits for HTTP answers, and writes the file back.
Each stretch of code between two awaits is one atomic step; the two tools, session deletion and
the death of the server can come between any two of them. `LoopPlugin` is the plugin as an
object with its in-flight map and trackers, and every method moves it as `LoopProtocol.Step`
moves the world. `LoopTheorems` reasons about all histories of that world, `LoopOutcomes` says
what each answer, each tool and a whole run come to.

**Scheduled tick** (`TickServer`, `TickProtocol`, `TickTheorems`, `TickOutcomes`, `TickPlay`,
`TickProcess`). Any number of processes share a per-task lock and a server whose accepted
prompts become readable later. A holder may die between any two requests; each request is
answered, takes effect with its answer lost, or fails without effect. `TickOutcomes` and
`TickPlay` count what a hold sends. `TickProcess` is the Go control flow as an object that is
proved to play the protocol.

**Token refresh** (`AuthProtocol`, `AuthTheorems`, `AuthOutcomes`, `AuthClient`, `TokenStore`).
Processes refresh, log in and log out against one token file, one lock and a provider that may
rotate refresh tokens (section 6 of RFC 6749). `TokenStore` is the crash-safe file replacement
over a disk that keeps what processes see apart from what a power loss may leave behind.

**Heal and PTY lifecycle** (`Json`, `SqlText`, `Heal`, `HealTheorems`, `HealOutcomes`,
`HealDatabase`, `PtyLifecycle`, `PtyIds`, `PtyRecords`, `PtyQuery`, `PtyContract`, `PtySeams`,
`PtyPairs`, `PtyJoints`, `PtyAgreement`, `PtyCases`, `PtyReaders`). The heal script's passes
over the message tables, with SQLite's `json_extract`, `json_set`, `instr`, `substr` and `LIKE`
written out, against one query on the database before the run; the plugin's transcript parser
and its fold; and the agreement of the two readers on canonical transcripts, whose texts may
mention the tags in prose, hold ill-formed ids and lack their last line feed, with the exact
conditions where the two part, for messages of any number of texts and for whole runs.

**Notification debounce** (`Debounce`, `DebounceCases`, `DebouncePlugin`). The map of timers
against a rule over the trace of calls, ticks of a discrete clock and `dispose`.

**Grammars** (`Slug`, `Duration`). Workspace slugs and duration shorthand.

`Text` holds the ECMAScript string operations the plugins use, `Wrappers` the option and result
types.

## Where the code differs from what is said about it

- The repository's design notes (its docs folder, in the entry on the loop plugin) call errors of
  `messages` recoverable. The code counts them towards the cap of three like errors of `prompt`
  (`plugins/loop/src/index.ts:304-310`), and so does the model.
- The clears at `plugins/loop/src/index.ts:297-326` and `396-401` do not check whose record is
  stored. `StaleHandlerSparesNewerRun` says exactly when a handler of an old run deletes the
  record of a newer one, `StaleHandlerCanClearNewerRun` gives such a history.
- loop-start looks for an active loop and then awaits (`489-520`), so two overlapping calls can
  both pass: `OverlappingStartsReplace`. `StartReplacesIff` says exactly when a call replaces a
  stored run; calls that do not overlap never do.
- The transcript contract at `plugins/ntfy/src/pty-lifecycle.ts:33-35` and
  `modules/scripts/opencode-heal.sh:79-82` is meant to be one, but its readers differ in two
  ways on texts of exact records. The plugin joins the text parts of a message with nothing
  between them (line 95), so a part without a last line feed can spoil a tag of the next, or
  complete one, while the query reads each part by itself: `JoinAgreesIff` says exactly when
  that matters, `PairAgreesIff` what it comes to for two parts, and `JoinLosesReport` and
  `JoinGainsReport` give messages on which the readers differ either way. And the query looks
  only at the first `ID: pty_` of a spawn's output, where the parser passes over ill-formed ids:
  `SpawnsAgreeIff`, `IllFormedFirstDisagrees`.
- The comment at `plugins/kfactory-adapter/src/index.ts:54-57` calls the slug grammar injective.
  It is not at the seam: `a-`/`b` and `a`/`-b` share every slug. `SharedSlugs` gives the exact
  condition.
- The comment at `modules/scripts/opencode-heal.sh:58-59` says reruns are no-ops. That holds
  exactly when every row the run must change can be changed by `json_set`:
  `FixpointIffWritable`, with a database that misses it in `FixpointMissed`, and the ordinary
  row shape, for which it always holds, in `OrdinaryRowsConverge`.

## Model

| member | source | states |
|---|---|---|
| Sentinel.MatchesSentinel | plugins/loop/src/index.ts:237-245 | the backward scan finds the last non-blank line, trimmed, and compares it with the sentinel |
| Sentinel.MatchesIffTrailingLine | plugins/loop/src/index.ts:237-245 | a reply ends the loop exactly when its characters end in a line holding the sentinel, with only whitespace around and after it |
| LoopProtocol.StepKeepsShape | plugins/loop/src/index.ts:286-391 | over every action a waiting handler's snapshot equals the stored record of its run, or its run is no longer stored; records stay within bounds; one pass per session |
| LoopTheorems.LabelsAreConsecutive | plugins/loop/src/index.ts:286-391 | without restarts the continuations of a run are labelled 1, 2, ..., n with n within its bound, and the stored iteration is n |
| LoopTheorems.LabelsGrowAcrossRestarts | plugins/loop/src/index.ts:348-371 | with restarts anywhere, even between the bump and the prompt call, labels strictly increase and stay within the bound |
| LoopTheorems.FailureCountIsExact | plugins/loop/src/index.ts:304-371 | the stored failure count stays below three and, with no pass over the run under way, is the number of failed calls since its last successful prompt |
| LoopTheorems.ChangesAreBounded | plugins/loop/src/index.ts:291-409 | handlers change the record of a run at most 3 * (maxIterations + 1) times, restarts included |
| LoopTheorems.ChangeLowersBudget | plugins/loop/src/index.ts:348-357 | each handler change that leaves a record is made by a pass of that run and session, keeps all other fields, and lowers (iterations left, failures left) lexicographically |
| LoopTheorems.RetiredRunsStayRetired | plugins/loop/src/index.ts:281-289 | a run whose record was cleared or replaced is never on disk again, whatever handlers were waiting |
| LoopTheorems.StaleHandlerSparesNewerRun | plugins/loop/src/index.ts:297-326 | a handler of a run no longer stored sends nothing, and the newer record survives it if and only if its outcome is not one of the unchecked clears |
| LoopTheorems.StaleHandlerCanClearNewerRun | plugins/loop/src/index.ts:316-320 | a history in which a stopped run's late reply deletes the run started after it |
| LoopTheorems.OverlappingStartsReplace | plugins/loop/src/index.ts:489-520 | a history in which two overlapping loop-starts both pass and the second replaces the first's run |
| LoopTheorems.StartReplacesIff | plugins/loop/src/index.ts:489-520 | a loop-start that passed its check replaces a stored run when it writes if and only if another loop-start wrote that run after the check and it is still stored |
| LoopTheorems.LoneStartsNeverReplace | plugins/loop/src/index.ts:485-497 | while loop-start calls do not overlap, none replaces a stored run |
| LoopOutcomes.ReplyDecides | plugins/loop/src/index.ts:312-366 | for the stored run, a reply that ends in a line holding the sentinel clears the record and sends nothing; else one at the bound does; any other stores the next iteration without failures and sends exactly that label |
| LoopOutcomes.KindDecides | plugins/loop/src/index.ts:295-302 | a root session's pass goes on, a missing session clears the record, a sub-agent's or unknown one ends the pass and leaves the record |
| LoopOutcomes.NothingToDo | plugins/loop/src/index.ts:312-314 | no assistant message, or a prompt that was taken, ends the pass and leaves the record |
| LoopOutcomes.ThirdFailureEnds | plugins/loop/src/index.ts:393-409 | over every history without restarts the first two failed calls in a row are counted in the record and the third clears it |
| LoopOutcomes.RestartKeepsRecord | plugins/loop/src/index.ts:326-357 | a death of the server leaves the record as last written, with the bump if the pass had got that far, and nothing in flight |
| LoopOutcomes.IdleStartsOnePass | plugins/loop/src/index.ts:373-391 | an idle event starts a pass over its session's record; one during a pass is remembered, and a marked pass runs once more, not twice |
| LoopOutcomes.MarkIsKept | plugins/loop/src/index.ts:276-280 | the mark stays while the pass waits, whatever else happens short of a restart |
| LoopOutcomes.ReadableIff | plugins/loop/src/index.ts:74-126 | which stored records count, field by field, with the numbers and characters written out |
| LoopOutcomes.ToolsDecide | plugins/loop/src/index.ts:468-568 | which arguments loop-start takes and the record it writes; what loop-stop and the deletion of a session clear |
| LoopOutcomes.LoopEndsAfter | plugins/loop/src/index.ts:286-391 | a whole run over any replies: if only the last says done, or the bound is reached there, exactly the continuations before it were sent, labelled from 1, and no record is left |
| LoopPlugin.StateFile.ReadState | plugins/loop/src/index.ts:74-126 | returns the record just when every field check passes, and deletes the file otherwise |
| LoopPlugin.StateFile.StateStillOurs | plugins/loop/src/index.ts:286-289 | true exactly when the stored record has the snapshot's session and run |
| LoopPlugin.Plugin.HandleIdle | plugins/loop/src/index.ts:291-296 | the first stretch of a pass: wait for the session's kind if the record is this session's |
| LoopPlugin.Plugin.HandleMessages | plugins/loop/src/index.ts:304-366 | the stretch after `messages`: file, next wait and prompts are those of the specified stretch |
| LoopPlugin.Plugin.HandlePrompt | plugins/loop/src/index.ts:361-370 | the stretch after `prompt` |
| LoopPlugin.Plugin.OnFailure | plugins/loop/src/index.ts:393-409 | counts the failure, clears at the cap, writes back only to its own run |
| LoopPlugin.Plugin.KindArrived | plugins/loop/src/index.ts:296-302 | moves the object as the protocol's step for the session's kind |
| LoopPlugin.Plugin.MessagesArrived | plugins/loop/src/index.ts:304-366 | moves the object as the protocol's step for the messages' answer |
| LoopPlugin.Plugin.PromptArrived | plugins/loop/src/index.ts:361-370 | moves the object as the protocol's step for the prompt's answer |
| LoopPlugin.Plugin.ProcessIdle | plugins/loop/src/index.ts:373-381 | single flight: mark the running pass, or start one with a fresh tracker |
| LoopPlugin.Plugin.PassReturned | plugins/loop/src/index.ts:382-390 | at most one re-run per pass, then the session leaves the map |
| LoopPlugin.Plugin.LoopStart | plugins/loop/src/index.ts:468-498 | refuses bad arguments and an active loop, else goes on to check the session |
| LoopPlugin.Plugin.LoopStartChecked | plugins/loop/src/index.ts:498-520 | writes a fresh record for a root session, and nothing otherwise |
| LoopPlugin.Plugin.LoopStop | plugins/loop/src/index.ts:541-547 | clears the record and answers the iteration it stopped at |
| LoopPlugin.Plugin.OnSessionDeleted | plugins/loop/src/index.ts:555-568 | clears a record of that session only, and drops its tracker |
| TickServer.FindMostRecentSession | cmd/kfactory/client.go:253-262 | the loop returns the specified newest root session |
| TickServer.NewestIsRoot | cmd/kfactory/client.go:240-263 | that session is a root session, no root is newer, and among equals it is listed first; there is none exactly when no session is a root |
| TickTheorems.StepKeeps | cmd/kfactory/tick.go:359-438 | every action of any tick or of the server keeps the protocol's invariant |
| TickTheorems.FirstRunSentOnce | cmd/kfactory/tick.go:99-129 | over all interleavings, crashes and lost answers, accepted first-run prompts are at most 1 plus the holds that sent one and ended without seeing it; with none of those, exactly one once any tick finishes |
| TickTheorems.BoundIsReached | cmd/kfactory/tick.go:381-399 | the bound is exact: for every n and mode some history has n unconfirmed holds and n + 1 accepted prompts |
| TickTheorems.OneWorkspaceOneRoot | cmd/kfactory/client.go:158-190 | over all histories at most one workspace has the stable id and at most one root session is in it |
| TickTheorems.RequestLowersRank | cmd/kfactory/tick.go:359-467 | every request, however it fares, brings the holder closer to its end |
| TickTheorems.TickAloneConverges | cmd/kfactory/tick.go:359-399 | from every state ticks can leave, one tick running alone makes at most 2 * 30 + 9 requests and ends with a first-run prompt accepted |
| TickOutcomes.PostedIsReadable | cmd/kfactory/tick.go:261-272 | a posted prompt joins its root session at the end, from the user, with text, readable once the server shows it; no other session changes |
| TickOutcomes.FindDecides | cmd/kfactory/tick.go:531-552 | prompts go to the root session with the latest update, the first among equals; without one a session is created |
| TickOutcomes.FailureEnds | cmd/kfactory/tick.go:448-467 | a failed request ends the tick with an error; while the prompt is looked for it only uses up a poll |
| TickOutcomes.UnseenIsPolledAgain | cmd/kfactory/tick.go:448-467 | so does a look that finds no session or no readable prompt |
| TickPlay.ContinuesIff | cmd/kfactory/tick.go:403-437 | a hold that finds the first run complete, with every request answered, sends exactly one continuation if the mode is to continue, or to skip dirty workspaces and this one was reported clean, and none otherwise |
| TickPlay.HoldSendsOnce | cmd/kfactory/tick.go:359-438 | however its requests fare a hold sends at most one continuation, none when it creates or repairs a first run, none when existing workspaces are skipped, none into a workspace not reported clean when dirty ones are; and no first-run prompt when it does not create or repair |
| TickPlay.FreshTaskIsStarted | cmd/kfactory/tick.go:370-382 | a hold that finds no workspace leaves it created, with a root session and one more first-run prompt accepted, to be looked for 30 times |
| TickPlay.PollsRunOut | cmd/kfactory/tick.go:448-467 | when no look succeeds the hold ends after exactly as many polls |
| TickPlay.WaiterLooks | cmd/kfactory/tick.go:112-122 | a tick that waited and finds the first run complete sends nothing and ends |
| TickPlay.WaiterGoesOn | cmd/kfactory/tick.go:224-248 | one that finds no workspace, no root session or no readable prompt goes on as if it had not waited |
| TickProcess.Tick.RunTick | cmd/kfactory/tick.go:110-129 | the code from lock to release plays the protocol and stops, and reports success exactly when the hold ends normally; with every request answered a first-run prompt has been accepted, and a complete first run is continued exactly once where the mode asks for it |
| TickProcess.Tick.ReadScheduledTaskProgress | cmd/kfactory/tick.go:224-248 | a waiter's progress check makes the protocol's three reads and answers what they say |
| TickProcess.Tick.FirstRunComplete | cmd/kfactory/tick.go:250-259 | newest root session, then its messages, as the protocol's two reads |
| TickProcess.Tick.SessionHasUserPrompt | cmd/kfactory/tick.go:261-272 | the loop finds a user message with text exactly when there is one |
| TickProcess.Tick.FindWorkspaceByID | cmd/kfactory/tick.go:321-328 | the loop finds the id exactly when it is listed |
| TickProcess.Tick.TickScheduled | cmd/kfactory/tick.go:359-438 | create, repair or continue: every path is a play of the protocol |
| TickProcess.Tick.ConfirmFirstRunVisible | cmd/kfactory/tick.go:448-467 | polls until the prompt is readable or the polls are used up |
| TickProcess.Tick.DispatchSessionAndPrompt | cmd/kfactory/tick.go:479-493 | session, then prompt; a failure of either ends the hold |
| TickProcess.Tick.PostContinuation | cmd/kfactory/tick.go:531-552 | prompt into the newest root session, or the caller's fallback when there is none |
| TickPlay.PlayedKeeps | cmd/kfactory/tick.go:359-467 | a holder's play keeps the invariant under any answers, and with all of them given it ends with a first-run prompt accepted |
| AuthTheorems.InvStep | cmd/kfactory/auth.go:371-429 | every action of any process or the provider keeps mutual exclusion, the freshness of tokens under way, and the usability of the stored one |
| AuthTheorems.NoStaleRefresh | cmd/kfactory/auth.go:371-429 | over every history a refresh request presents a replaced refresh token if and only if a rotation of that very token was lost before; a stale request never succeeds, and without a fault there is none |
| AuthTheorems.LostAnswerGoesStale | cmd/kfactory/auth.go:411-428 | the exception is real: a history with one lost answer, after which the replaced token is presented |
| AuthTheorems.RefreshedAtMostOnce | cmd/kfactory/auth.go:386-428 | each stored token version is refreshed successfully at most once more often than its refreshes were lost |
| AuthTheorems.OnlySavesChangeTheFile | cmd/kfactory/auth.go:411-428 | the stored tokens change only in a completed save or removal, to the refreshed or granted token or to nothing |
| AuthTheorems.LoggedOutUntilLogin | cmd/kfactory/auth.go:186-206 | once the file is gone it stays gone until a login saves, whatever refreshes were past their first read |
| AuthTheorems.LockProtectsStoredToken | cmd/kfactory/auth.go:386-427 | one process at a time holds the lock, and a refresh under way still finds the token it presented |
| AuthOutcomes.LogoutRemoves | cmd/kfactory/auth.go:186-206 | over every history a logout whose removal succeeded leaves no tokens until a login saves; one whose removal failed changes nothing |
| AuthOutcomes.LoginIsStored | cmd/kfactory/auth.go:117-126 | a login's save that succeeds, or fails after the rename, leaves the granted token until the next save or removal; one that fails before changes nothing |
| AuthOutcomes.RefreshIsStored | cmd/kfactory/auth.go:424-428 | the same for the refreshed token; a save that failed before the rename leaves the presented one |
| AuthOutcomes.AnswerIsApplied | cmd/kfactory/auth.go:105-115 | a usable answer is saved with its own expiry, and with the new refresh token, held by nobody before, if there is one, else the old |
| AuthOutcomes.LooksDecide | cmd/kfactory/auth.go:51-53 | both looks take a token for expired when less than 30 seconds are left |
| AuthOutcomes.ReturnsFree | cmd/kfactory/auth.go:371-429 | giving up, a refused or unusable answer, a save, a removal and a death end the call without the lock and leave others theirs |
| AuthOutcomes.LogoutCall | cmd/kfactory/auth.go:186-206 | from every reachable state with the lock free, a logout call ends with the file gone and nothing else changed |
| AuthOutcomes.LoginCall | cmd/kfactory/auth.go:117-126 | a login call ends with the granted expiry and a refresh token held by nobody before |
| AuthOutcomes.RefreshCall | cmd/kfactory/auth.go:371-429 | a refresh call on a token about to expire and good at the provider ends with the answer's expiry and a refresh token the provider still takes |
| AuthClient.TokenFile.Apply | cmd/kfactory/auth.go:105-115 | an answer without expiry changes nothing; one without a refresh token keeps the old one |
| AuthClient.Client.AcquireLock | cmd/kfactory/auth.go:326-358 | takes the lock at the first poll that finds it free, and gives up only after the last poll found it held |
| AuthClient.Client.EnsureFresh | cmd/kfactory/auth.go:371-429 | it plays the protocol, its own actions being one of five courses that fix its result; a token it returns is the stored one, with at least 30 seconds left or issued in this call; it acts on what the provider and the disk answered, and reports not logged in without asking just when there is no file; every outcome leaves the lock |
| AuthClient.FailedRefreshStoresNothing | cmd/kfactory/auth.go:407-428 | the only change such a call makes to the file is saving the token it returns, or a save that failed after the rename; a rejected, lost or unusable refresh changes nothing |
| AuthClient.MovedKeeps | cmd/kfactory/auth.go:386-393 | whatever others do meanwhile, the play stays one of the protocol, and they leave this process's place, its lock and, under its lock, the file alone |
| AuthClient.Client.LookUnlocked | cmd/kfactory/auth.go:372-384 | the first look: nothing to do for a missing or fresh token, else the call goes on to the lock |
| AuthClient.Client.LookLocked | cmd/kfactory/auth.go:392-405 | the second look under the lock, which is kept just for an expired token |
| AuthClient.Client.Ask | cmd/kfactory/auth.go:407-424 | one request to the provider; its answer is applied exactly when it can be used |
| AuthClient.Client.RefreshStored | cmd/kfactory/auth.go:407-428 | ask, apply, save, in that order, as protocol steps under the lock: no save without a usable answer, fresh exactly when the save succeeded |
| TokenStore.Disk.SaveTokensUnlocked | cmd/kfactory/auth.go:128-184 | at every moment of the save a crash leaves the whole new content or what it could have left when the save began, the whole old content if the save before returned nil; readers see the content from then or the new one; a nil return makes the new one certain, and any pattern of failing calls is accounted for |
| TokenStore.SaveTwice | cmd/kfactory/auth.go:142-146 | after a save that returned nil, nothing older can come back at any moment of the next, neither to a reader nor after a crash |
| TokenStore.Disk.Install | cmd/kfactory/auth.go:171-183 | the rename and the directory sync: the new content visible from the rename on, certain from the sync on |
| TokenStore.Disk.PrepareTemp | cmd/kfactory/auth.go:147-170 | a complete synced temporary file, or none unless removing it failed too |
| Json.ExtractPut | modules/scripts/opencode-heal.sh:64-71 | reading back a set path gives the new value if the path can be set, else what was there |
| Json.ExtractApart | modules/scripts/opencode-heal.sh:64-71 | setting one path leaves every path apart from it as it was |
| SqlText.LikeIsBoth | modules/scripts/opencode-heal.sh:112-126 | `LIKE '%a%b%'` holds exactly when a match of a is followed by a match of b |
| HealTheorems.StagedIsOneShot | modules/scripts/opencode-heal.sh:44-177 | the staged passes queue a workspace exactly when one query on the database before the run asks for it |
| HealTheorems.OthersUntouched | modules/scripts/opencode-heal.sh:60-76 | v1 rows keep id, session and type; rows no pass selects are unchanged; every path off the three written ones keeps its value; parts and sessions are unchanged |
| HealTheorems.OthersUntouchedV2 | modules/scripts/opencode-heal.sh:161-164 | the same for v2 rows |
| HealTheorems.Healed | modules/scripts/opencode-heal.sh:60-137 | what the run leaves in a row it selects: the error marker, the finish reason and, where it can be set, the completion time |
| HealTheorems.SecondV1 | modules/scripts/opencode-heal.sh:72-75 | a second run updates no v1 row, and its update leaves the table as it is |
| HealTheorems.SecondV2 | modules/scripts/opencode-heal.sh:72-75 | it updates no v2 row exactly when no assistant row holds valid JSON other than an object |
| HealTheorems.NoPtyLeft | modules/scripts/opencode-heal.sh:106-137 | it finds no abandoned PTY exactly when no dangling spawn sits in a message whose data is valid JSON other than an object |
| HealTheorems.SecondQueue | modules/scripts/opencode-heal.sh:46-52 | a second run queues exactly the workspaces of turns stuck before the first that were marked already or whose completion time cannot be set, and of dangling spawns whose message cannot be written |
| HealTheorems.FixpointIffWritable | modules/scripts/opencode-heal.sh:56-59 | one run reaches the fixpoint, with the queue of the turns marked from the start, if and only if every row it must write can be written |
| HealTheorems.OrdinaryRowsConverge | modules/scripts/opencode-heal.sh:56-59 | it does whenever valid data is an object whose `time`, if there, is an object |
| HealTheorems.FixpointMissed | modules/scripts/opencode-heal.sh:64-66 | a database it misses: a turn whose `time` is a number is queued again by the next run |
| HealOutcomes.HealedV1 | modules/scripts/opencode-heal.sh:60-137 | a `message` row after the run, whatever it held: the marker with its reason, the finish and the run's time for an unfinished unmarked assistant turn; the marker with the other reason, and all else kept, for the unmarked message of an abandoned PTY; otherwise unchanged |
| HealOutcomes.HealedV2 | modules/scripts/opencode-heal.sh:60-77 | a `session_message` row after the run: the same for an unfinished unmarked assistant turn, otherwise unchanged |
| HealOutcomes.UpdatableMeans | modules/scripts/opencode-heal.sh:72-75 | which rows an update selects, by the paths and strings of its conditions |
| HealOutcomes.QueueMeans | modules/scripts/opencode-heal.sh:44-177 | the queue is the non-empty workspaces with an assistant turn without completion time in either table, or with a spawn in an unmarked message that no later user message reports, all as before the run |
| HealOutcomes.UpdatesCount | modules/scripts/opencode-heal.sh:75 | the number reported is that of the rows selected |
| HealOutcomes.BeforeMeans | modules/scripts/opencode-heal.sh:168-170 | the order of the queue is that of strings: the first difference decides, and a prefix comes first |
| HealDatabase.AscendingIsUnique | modules/scripts/opencode-heal.sh:168-170 | a strictly sorted queue is determined by its members |
| HealDatabase.SortUnique | modules/scripts/opencode-heal.sh:168-170 | drops empty lines, sorts strictly, keeps the members |
| HealDatabase.Database.HealCollect | modules/scripts/opencode-heal.sh:44-54 | lists each workspace of a stuck row once |
| HealDatabase.Database.HealUpdate | modules/scripts/opencode-heal.sh:60-77 | the table after the update, row by row, and the number of rows touched |
| HealDatabase.Database.HealProcessPtyV1 | modules/scripts/opencode-heal.sh:86-141 | the abandoned PTYs, and the message table with their messages marked |
| HealDatabase.Database.Run | modules/scripts/opencode-heal.sh:145-177 | the whole run: the database after it, a strictly sorted queue with exactly the workspaces the one-shot query asks for, and the logged counts |
| PtyLifecycle.ParseRecordBlock | plugins/ntfy/src/pty-lifecycle.ts:36-55 | the line loop computes the specified scan |
| PtyLifecycle.ParsePtySpawnedID | plugins/ntfy/src/pty-lifecycle.ts:57-63 | the first valid id among the records |
| PtyLifecycle.ParsePtyExitedIDs | plugins/ntfy/src/pty-lifecycle.ts:65-72 | the valid ids of all records in order |
| PtyLifecycle.UnfinishedNotifyOnExitPtys | plugins/ntfy/src/pty-lifecycle.ts:74-100 | the one-pass fold returns an id exactly when some spawn of it is followed by no user message with its exit, respawns and the empty-set shortcut included |
| PtyIds.PtyIdsAre | plugins/ntfy/src/pty-lifecycle.ts:29 | a PTY id is `pty_` and eight of the sixteen lower-case hexadecimal digits, and nothing else is one |
| PtyIds.FieldIff | plugins/ntfy/src/pty-lifecycle.ts:51-52 | a line sets a field exactly when it is a key without colon, a colon, space and a value without line terminators, and then that one |
| Text.SpacesAre | plugins/ntfy/src/pty-lifecycle.ts:40 | the characters that `trim` strips |
| PtyRecords.RecordsRoundTrip | plugins/ntfy/src/pty-lifecycle.ts:36-55 | rendering any records with prose between them and parsing gives the same records in order, with the last line feed or without |
| PtyRecords.FeedIgnored | plugins/ntfy/src/pty-lifecycle.ts:39-53 | on any text a last line feed makes no difference to the parser |
| PtyQuery.FeedOutsideBlock | modules/scripts/opencode-heal.sh:112-126 | on any text it makes none to the query |
| PtyQuery.BlockIffRecord | modules/scripts/opencode-heal.sh:112-126 | on rendered records, ill-formed ids and inline mentions included, the `LIKE` pattern finds exactly the ids of the records |
| PtyContract.SpawnsAgreeIff | modules/scripts/opencode-heal.sh:97-115 | on a canonical spawn output the query and the parser read the same id, or both none, if and only if the first `ID: pty_` is that of the first record with an id, or no record has one |
| PtyContract.SpawnsAgree | modules/scripts/opencode-heal.sh:97-115 | so they do on every output that says `ID: pty_` nowhere before its first record with an id |
| PtyContract.ExitsAgree | modules/scripts/opencode-heal.sh:123-126 | on a canonical exit report the query and the parser find the same ids |
| PtySeams.JoinedAgrees | plugins/ntfy/src/pty-lifecycle.ts:92-96 | any number of canonical texts that meet at clean seams report joined, to the parser, what they report one by one to the query |
| PtyPairs.PairAgreesIff | plugins/ntfy/src/pty-lifecycle.ts:92-96 | for any two canonical texts that holds if and only if the seam cuts no record whose id nothing else in the message reports |
| PtyJoints.JoinedReportsExactly | plugins/ntfy/src/pty-lifecycle.ts:92-96 | in any number of canonical texts joined the parser finds the ids of the records no seam cuts and of what closing tags put out at the seams, and no others |
| PtyJoints.JoinAgreesIff | plugins/ntfy/src/pty-lifecycle.ts:92-96 | the parser on the joined message and the query on its parts report the same exits if and only if each cut record's id is still reported and each id put out at a seam is a record's |
| PtyJoints.TwoTextsKeep | plugins/ntfy/src/pty-lifecycle.ts:92-96 | for two texts that condition holds exactly when the one of PairAgreesIff does |
| PtyAgreement.SpawnsInTurn | modules/scripts/opencode-heal.sh:103-115 | a stored turn spawns an id for the plugin exactly when one of its rows does for the query |
| PtyAgreement.ExitsInTurn | modules/scripts/opencode-heal.sh:119-126 | a stored turn reports an exit to the plugin, which joins its texts, exactly when one of its rows does to the query |
| PtyAgreement.AbandonedIsUnfinished | modules/scripts/opencode-heal.sh:89-128 | on every canonical stored session the ids left abandoned are exactly those the plugin's fold finds unfinished in the turns not marked before |
| PtyAgreement.RunAbandonsUnfinished | modules/scripts/opencode-heal.sh:145-177 | in a whole run they are those it finds in the turns neither marked nor stuck before the run; with no such turn, exactly those it finds in the session |
| PtyCases.TwoTurnSession | nix/replay/pty-lifecycle-contract/check.ts:142 | a spawn and a user message after it, each with any canonical text, make such a session; both readers keep the spawned id exactly when the message holds no exit record of it |
| PtyCases.ReportEndsIt | nix/replay/pty-lifecycle-contract/cases.json:8-19 | for every eight hexadecimal digits both readers find the spawn and the exit report, which has no last line feed, and the report ends the PTY for both |
| PtyCases.SpawnReadIff | nix/replay/pty-lifecycle-contract/cases.json:68-73 | for any eight letters, digits and underscores after `pty_`, both readers read the id from a spawn if they are hexadecimal digits, and none otherwise |
| PtyCases.MentionDoesNot | nix/replay/pty-lifecycle-contract/cases.json:20-31 | a mention of the tags inside a line of prose does not |
| PtyCases.OtherReportDoesNot | nix/replay/pty-lifecycle-contract/cases.json:32-43 | the report of another PTY does not |
| PtyCases.IllFormedIsIgnored | nix/replay/pty-lifecycle-contract/cases.json:68-73 | a spawn with an ill-formed id is none to either |
| PtyCases.JoinLosesReport | plugins/ntfy/src/pty-lifecycle.ts:92-96 | the seam that is not clean: a second text part spoils the closing tag of a report, and the plugin misses what the query finds |
| PtyCases.JoinGainsReport | plugins/ntfy/src/pty-lifecycle.ts:92-96 | three text parts without any record whose join is one: the plugin finds what the query misses |
| PtyCases.IllFormedFirstDisagrees | modules/scripts/opencode-heal.sh:98-102 | an output on which the two spawn readers differ: a record with an ill-formed id before the one with the id |
| PtyReaders.PluginKeepsIff | nix/replay/pty-lifecycle-contract/cases.json:44-80 | one tool call and one text, in messages of any role and in either order: the plugin keeps the PTY exactly when a completed notify-on-exit spawn of an assistant message names it and no later user message reports it |
| PtyReaders.QueryKeepsIff | modules/scripts/opencode-heal.sh:89-128 | the heal keeps it whatever the spawn's role and status, and takes a 1 for the flag as well |
| PtyReaders.LookalikeDisagrees | modules/scripts/opencode-heal.sh:125 | a report in another case, with another character for the underscore, is one to the query and prose to the parser |
| Debounce.KeyIsInjective | plugins/ntfy/src/index.ts:263 | distinct pairs of session and event never share a debounce key |
| Debounce.TimersRefineRule | plugins/ntfy/src/index.ts:261-279 | over every trace each key has at most one live timer, the live timers are the waits of the rule with their due times, and what was sent is what the rule says, when it says |
| Debounce.LiveIsWaiting | plugins/ntfy/src/index.ts:273-278 | the runtime's live timers are exactly the pending calls |
| Debounce.OneFate | plugins/ntfy/src/index.ts:261-279 | each accepted call meets exactly one of four ends: sent, waiting, superseded, discarded |
| Debounce.SendsAreCounted | plugins/ntfy/src/index.ts:253-278 | what the code has sent, counted with repetitions, is one notice for each call the rule sends, at the time it says |
| Debounce.CallsAreConserved | plugins/ntfy/src/index.ts:261-279 | accepted calls = notices the code has sent + superseded calls + live timers + discarded calls, over every trace |
| Debounce.SilentAfterDispose | plugins/ntfy/src/index.ts:318-323 | after `dispose` nothing is sent, whatever is called |
| DebounceCases.LoneCall | plugins/ntfy/src/index.ts:261-279 | a call with nothing after it is sent once: at once without a delay, else in the millisecond its delay is over, not before |
| DebounceCases.CutShort | plugins/ntfy/src/index.ts:264-266 | one that is called again for its session and event, or disposed of, before its delay is over is never sent, whatever comes later |
| DebounceCases.OtherCallIsApart | plugins/ntfy/src/index.ts:263 | a call for another session or another event does not matter to it |
| DebouncePlugin.Notifier.SendNotification | plugins/ntfy/src/index.ts:253-259 | sends unless disposed |
| DebouncePlugin.Notifier.ScheduleNotification | plugins/ntfy/src/index.ts:261-279 | replaces the key's timer, or sends at once when the delay is not positive |
| DebouncePlugin.Notifier.Callback | plugins/ntfy/src/index.ts:273-277 | drops the key, sends unless disposed |
| DebouncePlugin.Notifier.Elapse | plugins/ntfy/src/index.ts:273-278 | a tick of the clock takes the due timers off one by one and runs each callback, in any order with the same outcome |
| DebouncePlugin.Notifier.Dispose | plugins/ntfy/src/index.ts:319-323 | clears every timer, one by one, and the map |
| DebouncePlugin.Play | plugins/ntfy/src/index.ts:250-323 | playing any trace on the object sends each notice the rule says, once, and no other |
| Slug.ConfiguredPasses | plugins/kfactory-adapter/src/index.ts:136-158 | `configure` fails just for a bad segment or hint; what it returns passes every later check with the same URL and is one path component under the root |
| Slug.ConfigureMeans | plugins/kfactory-adapter/src/index.ts:136-158 | which owners, repositories and hints `configure` takes, character by character, and the name and directory it returns: the hint if given, else the two random bytes in hexadecimal |
| Slug.ValidSlugMeans | plugins/kfactory-adapter/src/index.ts:61-64 | the names the slug check accepts, character by character |
| Slug.ExpectedDirMeans | plugins/kfactory-adapter/src/index.ts:148-158 | the later check passes exactly for a valid slug in its directory under the root |
| Slug.MatchesExactlyMinted | plugins/kfactory-adapter/src/index.ts:102-112 | the check against a URL accepts owner, repo and four hex digits, and nothing else, and nothing at all for a URL that cannot be represented |
| Slug.ValidIsOneComponent | plugins/kfactory-adapter/src/index.ts:57-64 | a valid slug has no slash and is neither `.` nor `..` |
| Slug.SharedSlugs | plugins/kfactory-adapter/src/index.ts:92-100 | two repositories share a slug exactly when equal, or when one owner is the other plus a hyphen that the other's repo leads with |
| Slug.ForeignSlugAccepted | plugins/kfactory-adapter/src/index.ts:102-112 | the check accepts another repository's slug exactly in that case |
| Slug.SharedSlugExample | plugins/kfactory-adapter/src/index.ts:52-57 | a pair of repositories that share a slug |
| Duration.ParseDuration | plugins/ntfy/src/config.ts:60-73 | the test and the accumulating scan compute the specified result or the error |
| Duration.TestIffMatches | plugins/ntfy/src/config.ts:57 | the test accepts exactly the strings the expression describes, and every other string is an error |
| Duration.ParsedIsTotal | plugins/ntfy/src/config.ts:58-72 | on an accepted string the scan skips only whitespace, finds the segments of every decomposition, and gives 1000 times their sum, rounded |
| Duration.DecompositionIsUnique | plugins/ntfy/src/config.ts:57-58 | two decompositions of a string have the same numbers and units |
| Duration.PrintedParses | plugins/ntfy/src/config.ts:60-73 | printing any amounts and parsing the text gives 1000 times their sum, rounded |
| Duration.HoursMinutesSeconds | plugins/ntfy/src/config.ts:64-71 | hours, minutes and seconds in either case come to 1000 * (3600 h + 60 m + s), for all numbers |
| Duration.Tenths | plugins/ntfy/src/config.ts:60-72 | a tenth of a second comes to a hundred milliseconds |
| Duration.RoundMeans | plugins/ntfy/src/config.ts:72 | rounding goes to the nearest millisecond, halves upwards |
| Duration.Examples | plugins/ntfy/src/config.ts:51-55 | some durations and their values |

## Left out

- HTTP, JSON decoding and encoding, SQLite, flock and the file system are modelled by their
  effects and failures only.
- Loop driver: one plugin instance per state file, fresh run ids, no failing file calls, no
  session id used again after its deletion was seen (the code drops the tracker at line 566),
  no status call on start-up, no defaults for missing tool arguments, and prompts are only
  their run, label and bound.
- Tick: only ticks touch the task's workspace, messages and sessions never vanish, and a request
  takes effect while its sender holds the lock or never. Ad-hoc ticks, the reading of the
  task's configuration and the text of prompts are not modelled; the configuration's check that
  prompts are not blank is assumed.
- TickTheorems.FirstRunSentOnce: a hold that ends by a lost answer counts as one that sent and
  did not see its prompt, because the code cannot tell whether it arrived.
- TickProcess: the time-outs of the shared context appear as failed requests and as giving up
  between two polls.
- Token refresh: a refresh request is handled by the provider while its sender still holds the
  lock, or never; one that timed out and is handled later could replace a token another process
  has read since. The provider accepts only a refresh token that it has neither replaced nor
  revoked. An unreadable token file, and one without a refresh token, end `ensureFresh` before
  it changes anything and are not modelled; neither are device login, discovery, the text of
  errors, and failures of a save before its temporary file exists, which change nothing.
- Heal: the JSON file format of the queue, the log line, the first-boot branch, the time-outs
  and the shell's exit on a failing query; duplicate keys and key order inside JSON; numbers
  are exact; session and message ids are primary keys; workspace ids hold no line feed; strings
  sort by code point, as in the C locale.
- PtyQuery.BlockIffRecord: stated for texts made of exact records and lines of prose. A record
  names its id first, if at all; no line of prose, trimmed, is a tag, and none ends in the
  opening tag or its first four characters in any case; no line is an id line to a matcher that
  ignores case but not to the parser. Beyond that `LIKE` folds case, reads `_` as any character
  and does not skip carriage returns, and the two readers differ: LookalikeDisagrees.
- PtyAgreement.AbandonedIsUnfinished: needs part times that follow message order and completed
  spawns in assistant messages, because the query looks at times and does not look at a spawn's
  status or role, while the parser does the opposite (PluginKeepsIff and QueryKeepsIff say exactly
  how, for one spawn and one text); spawn outputs on which the readers agree,
  by the condition of SpawnsAgreeIff; and user messages on which they do, by that of
  JoinAgreesIff.
- PtyRecords.RecordsRoundTrip: keys are not empty, have no colon and do not begin with
  whitespace, values are trimmed single lines; other records do not survive trimming.
- Notification debounce: the gates before scheduling (configuration, sub-agents, pending PTYs),
  the delivery itself, and timer delays beyond the runtime's range. A timer fires in the tick
  its delay is over; a real one may fire later.
- Slugs: the parsing of URLs into owner and repo, the symlink check, clone and removal.
- Duration.ParsedIsTotal: exact decimals instead of binary floating point.
- Config file shape checks, template rendering, branch lookup, the patches, the Nix modules, the
  development VM and the end-to-end runner are not modelled.
