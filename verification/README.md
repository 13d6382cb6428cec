# CodeLock: a verified model of its hard parts

CodeLock arms a timer, takes the screen when it runs out, and gives it back when a coding problem is
solved. This project models, in Dafny, the parts of it where a mistake is easy to make and hard to see,
and proves what they promise for every input, every run and every interleaving:

| file | component |
|---|---|
| `Text.dfy`, `ArrayCodec.dfy`, `TreeCodec.dfy` | the wire codecs the grading harnesses print and parse with: numbers, arrays, matrices, linked lists, level-order binary trees |
| `LruCache.dfy` | the operation-log driver and the three reference LRU caches it replays a log against |
| `Judge.dfy`, `JudgeRuns.dfy` | the judge's scheduler: two queues with head cursors, expiry, a concurrency cap, two byte budgets, eviction |
| `LockTimer.dfy` | pause, resume and shorten on a running countdown, as reads and conditional writes that interleave |
| `LockEndings.dfy` | cancel, solve, skip, the stale sweep and abandon competing to end one session |
| `GradeQueue.dfy` | admission control for grading, with an acquire split by an `await` |
| `LearnSession.dfy` | the lesson session row: drafts, checks graded outside the row lock, practice, finish, restart |
| `KillSwitch.dfy` | holding Escape to release the screen |
| `DesktopShell.dfy` | the desktop shell against the server, through late answers, crashes and restarts |
| `Importer.dfy` | corpus import: upserts, kept runtimes, deactivation, running it twice |
| `ShellQuote.dfy` | passing a command to `sh -c` as one argument |
| `Wrappers.dfy` | an optional value |

Objects that the program updates in place are classes here, and each of their methods is proved against a
function of the old state; the theorems are about those functions and about runs of them. Requests that
read and later write are two steps with anything in between. Clocks, random tokens, answers from the
network and the fate of a file write are inputs, and all their values are covered.

Where a property the program or its comments promise does not hold of the code, the model keeps the code
and proves exactly when it does hold, with a concrete run that shows the failure. Those are:

- A printed matrix holding a single empty row reads back as no rows, and Java's reader drops trailing
  empty rows (`ArrayCodec.MatRoundTrip`, `ArrayCodec.JavaMatrix`).
- The JavaScript tokenizer reads a leading or trailing comma as an extra 0, the others do not, and trims
  blanks beyond ASCII that C++ keeps (`Text.TokenizersAgree`); a `get` before the constructor answers in Go
  and crashes elsewhere (`LruCache.SameOutcome`).
- A job that the judge's sweep expires is deleted in the same visit, its "expired" result never served,
  exactly if it was overdue already when the sweep read its cutoff (`Judge.SweepExactly`); a job that
  becomes overdue between the two readings of the clock keeps its result (`Judge.ExpiredResultServed`).
- `apps/api/src/routes/lock.ts:160-161` says a resume gives back exactly the time paused. The credit runs
  from the clock reading before the pause was written, so it can exceed the pause, and even all the time
  that has passed (`LockTimer.CreditBeyondElapsed`). A resume credits exactly the time its pause stood if
  and only if both writes landed equally late (`LockTimer.CreditPerResume`, and over whole runs
  `LockTimer.CreditAgainstPause`). Two pauses stamped in the same millisecond defeat the guard of lines
  179-187 (`LockTimer.SameMillisecond`). The
  accounting law holds at every moment exactly if no resume lands on a deadline other than the one it read
  (`LockTimer.LawExactly`). Lines 201-203 say a shorten only moves the deadline towards now, which for an
  overdue deadline means later (`LockTimer.ShortenTowardsNow`).
- The last of the four claims an abandon makes can never win (`LockEndings.FourthClaimNeverWins`).
- Reclaiming a grading slot does not wake a waiter, and a woken waiter can be overtaken, one over the
  ceiling (`GradeQueue.ReclaimLosesWakeUp`, `GradeQueue.HandOffOvertaken`). Which arrivals and releases do
  so is stated exactly, step by step and for whole runs (`GradeQueue.WaitersExactly`,
  `GradeQueue.CeilingExactly`).
- `apps/api/src/routes/learn.ts:574-576` says the practice write only moves the step forward; it can undo a
  draft (`LearnSession.PracticeStep`, `LearnSession.PracticeUndoesADraft`).
- `apps/desktop/src/kill-switch.ts:25` says a full ring means the hold has fired; another key coming up can
  draw a full ring before that (`KillSwitch.FullRingNotFired`), and `KillSwitch.FullUnfiredExactly` says
  when.
- `apps/desktop/src/main.ts:155-159` says a lock found on disk is restored even without an unlock key. The
  code goes through the check that refuses, so it is not (`DesktopShell.CrashAndRestart`).
- `apps/desktop/src/main.ts:225-236` says the screen is taken only once the server agrees the lock is on.
  The server answers an engage whose claim matched nothing with success too
  (`apps/api/src/services/lockSessions.ts:159-165`), so the screen can be taken for a session that is still
  ARMED (`DesktopShell.HollowConfirmation`), or that was cancelled and never locked
  (`DesktopShell.CancelledConfirmation`).
  - The taking: the server had the session LOCKED when it confirmed exactly if the confirmation shows it
    LOCKED (`DesktopShell.TakenExactly`). Every confirmation of a run does exactly if, for every row read
    back after a claim, the session was LOCKED at the claim or was locked by it or after it, and nothing
    ended it before it was read back (`DesktopShell.HollowExactly`, `DesktopShell.ReadBackExactly`).
  - What follows: after a hollow confirmation the watchdog can free the screen though nothing has ended.
    An answer asks for that exactly when it is given while the session is ARMED
    (`DesktopShell.WatchdogExactly`, `DesktopShell.AnswersExactly`). Turning down confirmations that show
    ARMED would rule out this wrongful release (`DesktopShell.WatchdogOnlyAfterTheEnd`), but not the taking
    for a cancelled session; only turning down all that do not show LOCKED would.
- A confirmation is acted on without looking again whether the screen is held (main.ts:241-259), so a late
  one can take over a screen held for the next session (`DesktopShell.LateConfirmation`). The session the
  screen is held for stays the same exactly if no confirmation lands while it is held for another
  (`DesktopShell.SteadyExactly`).
- `apps/api/src/corpus/importer.ts:13-16` promises the same rows with the same ids on a second import; the
  ids of some test cases change exactly if a definition has fewer tests than the last definition of its
  slug (`Importer.SameRowsIff`). A
  partial measurement replaces the stored one (`Importer.PartialMeasurementDeactivates`).

## Model

| member | source | states |
|---|---|---|
| Text.NumberRoundTrip | apps/api/src/corpus/drivers.ts:76 | printing a number and reading it back is the identity, and the text is one token, never `null`, and `NaN` exactly for what is not a number |
| Text.NatTextCanonical | apps/api/src/corpus/drivers.ts:76 | the printed text is the one decimal numeral of its value without leading zeros |
| Text.TokensOfJoin | apps/api/src/corpus/drivers.ts:49 | splitting a printed line gives exactly the words printed, with either tokenizer |
| Text.SplitAtJoin | apps/api/src/corpus/drivers.ts:51 | splitting at the separator undoes joining with it, empty pieces included |
| Text.TokenizersAgree | apps/api/src/corpus/drivers.ts:301-310 | the JavaScript and the C++ tokenizer agree on a line if and only if JavaScript's trim takes off ASCII blanks only, and the trimmed line has no ASCII blank but spaces and no comma at either end |
| ArrayCodec.IntsRoundTrip | apps/api/src/corpus/drivers.ts:80 | every array of numbers survives print-then-parse, with either tokenizer |
| ArrayCodec.PrintedPieces | apps/api/src/corpus/drivers.ts:80 | the numbers stand in a printed array in order with one space between any two |
| ArrayCodec.MatRoundTrip | apps/api/src/corpus/drivers.ts:82 | a matrix survives print-then-parse if and only if it is not the one with a single empty row; the C++ reader agrees with the JavaScript one on every printed matrix |
| ArrayCodec.JavaMatrix | apps/api/src/corpus/drivers.ts:189-196 | the Java reader returns the printed matrix without its trailing empty rows, so it agrees with the others exactly when there are none |
| ArrayCodec.SplitLoop | apps/api/src/corpus/drivers.ts:311-314 | the C++ character loop computes the pieces between separators |
| ArrayCodec.ParseList | apps/api/src/corpus/drivers.ts:70-75 | the list built back to front spells the parsed numbers, in fresh nodes |
| ArrayCodec.PrintList | apps/api/src/corpus/drivers.ts:83 | what is printed for a chain of nodes parses back to its values |
| TreeCodec.GrowForest | apps/api/src/corpus/drivers.ts:61-67 | parsing what the printer's queue loop emits for the children of any queue of nodes rebuilds exactly those nodes' subtrees |
| TreeCodec.GrowTrimmed | apps/api/src/corpus/drivers.ts:94 | popping trailing `null`s from the printed tokens changes nothing that is parsed |
| TreeCodec.TreeRoundTrip | apps/api/src/corpus/drivers.ts:84-96 | for every binary tree, parsing the printed line gives back that tree, with either tokenizer |
| TreeCodec.PrintedTrimmed | apps/api/src/corpus/drivers.ts:84-96 | a printed tree is its level order, one space between two words, cut exactly before the `null`s at the end |
| TreeCodec.PrintTreeInjective | apps/api/src/corpus/drivers.ts:84-96 | no two trees print the same line |
| TreeCodec.PrintNodes | apps/api/src/corpus/drivers.ts:84-96 | the loop over linked nodes prints the line of the tree those nodes show |
| TreeCodec.Flatten | apps/api/src/corpus/drivers.ts:88-93 | the queue loop emits the level order of the tree the nodes show |
| TreeCodec.ParseNodes | apps/api/src/corpus/drivers.ts:54-69 | the parser builds fresh linked nodes that show exactly the parsed tree, or null for an empty line |
| TreeCodec.Fill | apps/api/src/corpus/drivers.ts:61-67 | the breadth-first loop completes the root to the tree the tokens spell, whatever tokens are left over or missing |
| LruCache.StepsFit | apps/api/scripts/verify-drivers.ts:63-74 | every operation keeps the recency list free of duplicates and no longer than max(capacity, 0) |
| LruCache.NewestTouch | apps/api/scripts/verify-drivers.ts:70-74 | evicting the oldest after each touch always keeps exactly the newest distinct touches |
| LruCache.LeastRecentlyUsed | apps/api/scripts/verify-drivers.ts:58-75 | after any history and for any capacity the cache holds exactly the max(capacity, 0) most recently touched keys, each with the value of its last put, where which gets touch is counted on the history alone |
| LruCache.GetAnswers | apps/api/scripts/verify-drivers.ts:63-69 | after any history a get answers the value of the last put of its key if the key is among the max(capacity, 0) most recently touched, and -1 otherwise |
| LruCache.MapCache.Get | apps/api/scripts/verify-drivers.ts:63-69 | the ordered-map cache answers the value stored for the key, or -1, and reorders as the recency list does |
| LruCache.MapCache.Put | apps/api/scripts/verify-drivers.ts:70-74 | the ordered-map cache stores and evicts as the recency list does |
| LruCache.IndexCache.Get | apps/api/scripts/verify-drivers.ts:148-155 | the linked-list-and-index cache answers the value stored for the key, or -1, and reorders as the recency list does, every stored iterator staying valid |
| LruCache.IndexCache.Put | apps/api/scripts/verify-drivers.ts:157-167 | the linked-list-and-index cache stores and evicts as the recency list does |
| LruCache.SliceCache.TouchKey | apps/api/scripts/verify-drivers.ts:179-187 | the scan removes the one earlier place of the key and puts it last |
| LruCache.SliceCache.Get | apps/api/scripts/verify-drivers.ts:189-196 | the slice-and-map cache answers the value stored for the key, or -1, and reorders as the recency list does |
| LruCache.SliceCache.Put | apps/api/scripts/verify-drivers.ts:198-206 | the slice-and-map cache stores and evicts as the recency list does |
| LruCache.OneLineEach | apps/api/src/corpus/drivers.ts:772-783 | a log that does not crash prints exactly one line per operation |
| LruCache.LiveNeverCrashes | apps/api/src/corpus/drivers.ts:772-783 | once an object exists no log crashes, and how the driver started makes no difference |
| LruCache.SameOutcome | apps/api/src/corpus/drivers.ts:771-783 | Go and the other drivers end alike if and only if the log has no `get` before the first constructor while no `put` is |
| LruCache.ReplayExactly | apps/api/src/corpus/drivers.ts:769-783 | a log crashes if and only if it calls a method on no object; otherwise the line of each `get` is the answer owed after the uses since the last constructor, -1 on Go's empty object, and every other line is `null` |
| LruCache.ReplayMap | apps/api/src/corpus/drivers.ts:769-783 | replaying any log against the ordered-map cache prints what the recency list prints |
| LruCache.ReplayIndex | apps/api/src/corpus/drivers.ts:769-783 | replaying any log against the list-and-index cache prints what the recency list prints |
| LruCache.ReplaySlice | apps/api/src/corpus/drivers.ts:769-783 | replaying any log against the slice-and-map cache prints what the recency list prints, from Go's zero object |
| Judge.EvictedShortest | apps/judge/src/index.ts:140-147 | the eviction loop removes exactly the shortest prefix of the finished jobs that restores the cap, or all of them |
| Judge.TrimIsShortest | apps/judge/src/index.ts:140-147 | a trim does nothing under the cap, and otherwise evicts exactly that shortest submission-order prefix, never the protected job |
| Judge.StoredInv | apps/judge/src/index.ts:127-133 | storing a result keeps the global invariant: retained bytes equal the sum of the result sizes in the map |
| Judge.ClosedInv | apps/judge/src/index.ts:114-119 | completing a job gives back exactly its payload; the clamp at zero never acts |
| Judge.ExpiredInv | apps/judge/src/index.ts:101-112 | expiring a queued job keeps the global invariant |
| Judge.StartedInv | apps/judge/src/index.ts:160-161 | starting a job taken off its queue keeps the invariant: `active` equals the number of active jobs, within the cap |
| Judge.FinishedInv | apps/judge/src/index.ts:177-181 | finishing a job keeps the invariant, frees one place, and keeps the job in the map |
| Judge.DeletedInv | apps/judge/src/index.ts:135-138 | deleting a finished job keeps the invariant; the clamp at zero never acts |
| Judge.CompactedSame | apps/judge/src/index.ts:90-99 | compaction changes neither live suffix, and keeps the invariant |
| Judge.CompactedBound | apps/judge/src/index.ts:90-99 | after it at most a thousand consumed entries, or half the array, are still held, and before that bound nothing moves |
| Judge.NextIsFirstRunnable | apps/judge/src/index.ts:71-88 | `nextJob` returns the first queued job still in time, interactive before bulk, and expires exactly the overdue ones before it; nothing if there is none |
| Judge.NextInTime | apps/judge/src/index.ts:71-88 | the job returned is the first of the line still queued that has waited ten minutes at most, and there is none if nothing is returned |
| Judge.PumpedInv | apps/judge/src/index.ts:154-185 | a pump keeps the invariant and stops only when the cap is reached or nobody waits |
| Judge.PumpedInLineOrder | apps/judge/src/index.ts:154-185 | a pump consumes a prefix of the line, starting or expiring each queued job in it and touching no other |
| Judge.EnqueuedLane | apps/judge/src/index.ts:379-382 | an accepted batch stands, whole and in order, behind everybody of its class and nowhere else |
| Judge.EnqueuedInv | apps/judge/src/index.ts:365-383 | admitting a batch keeps the invariant, in-flight payload at most 64 MiB included |
| Judge.EnqueuedFrame | apps/judge/src/index.ts:365-383 | a batch takes the next tokens in order in the map, adds its bytes to the budget and changes no other job |
| Judge.EnqueuedJob | apps/judge/src/index.ts:365-383 | each entry becomes a queued job of its class with its own payload and its own clock reading |
| Judge.AdmitExactly | apps/judge/src/index.ts:325-364 | a batch is accepted if and only if it has 1 to 250 well-formed entries and, all admitted, no more than 5000 jobs wait, 2000 are kept and 64 MiB of payload are in flight |
| Judge.RefusedWhy | apps/judge/src/index.ts:325-364 | a refusal names the first of those limits that would be broken |
| Judge.SweptFacts | apps/judge/src/index.ts:188-195 | a sweep keeps the invariant, does nothing to a job object but expire a queued one, and leaves no finished entry older than the cutoff in the map, the clock being read again for each entry |
| Judge.SweepExactly | apps/judge/src/index.ts:188-193 | a queued job is expired exactly if overdue when the pass comes to it, and then gone with its own visit if and only if it was overdue already at the cutoff reading |
| Judge.ExpiredResultServed | apps/judge/src/index.ts:189-192 | a job that reaches the limit between the two clock readings is expired and stays in the map with its result |
| Judge.PumpedLeft | apps/judge/src/index.ts:140-185 | a pump drops a token only with a finished job, and only if the results would pass the cap |
| Judge.SweptLeft | apps/judge/src/index.ts:188-193 | a sweep drops a token only with a finished job, created before the cutoff or squeezed out by the cap |
| Judge.Judge.CompactQueues | apps/judge/src/index.ts:90-99 | the arrays and cursors become the compacted ones, the live suffixes unchanged |
| Judge.Judge.ReleasePayload | apps/judge/src/index.ts:114-119 | the request is dropped and its bytes returned, once |
| Judge.Judge.DeleteJob | apps/judge/src/index.ts:135-138 | the job leaves the map and its result bytes are returned |
| Judge.Judge.TrimRetainedResults | apps/judge/src/index.ts:140-147 | the loop computes the trim |
| Judge.Judge.StoreResult | apps/judge/src/index.ts:127-133 | the result replaces the old one, is accounted, and older results are trimmed |
| Judge.Judge.ExpireJob | apps/judge/src/index.ts:101-112 | the job completes with the expiry result and gives its payload back |
| Judge.Judge.NextJob | apps/judge/src/index.ts:71-88 | the loop terminates and computes the scan |
| Judge.Judge.Start | apps/judge/src/index.ts:160-161 | the job becomes active and is counted |
| Judge.Judge.Pump | apps/judge/src/index.ts:154-185 | the loop terminates, computes the dispatch and keeps the invariant |
| Judge.Judge.Settle | apps/judge/src/index.ts:162-176 | the sandbox's answer, or its failure, is stored for an active job |
| Judge.Judge.CleanUp | apps/judge/src/index.ts:177-181 | the job completes, gives its payload back and stays in the map with its result; a place is free again |
| Judge.Judge.Finish | apps/judge/src/index.ts:177-183 | a finished run completes the job, frees the place and pumps again |
| Judge.Judge.Submit | apps/judge/src/index.ts:304-387 | a batch is refused for the first reason that applies, changing nothing, or admitted whole and pumped |
| Judge.Judge.Create | apps/judge/src/index.ts:365-383 | the admitted entries become queued jobs, in order, each with its own reading of the clock |
| Judge.Judge.AddJob | apps/judge/src/index.ts:369-381 | one new job enters the map, the budget and the end of its queue |
| Judge.Judge.Sweep | apps/judge/src/index.ts:188-195 | the timer's pass computes the sweep and compacts |
| Judge.TotalBytes | apps/judge/src/index.ts:354-360 | the reduction is the sum of the payload sizes |
| JudgeRuns.AlwaysSafe | apps/judge/src/index.ts:60-66 | in every run of submissions, endings and sweeps, both byte counters equal the sums over the jobs and stay in bounds, `active` counts the running jobs within the cap, every queued job waits exactly once in its class and is in the map, no place is free while anybody waits, and the sandbox runs under way are exactly those of the active jobs |
| JudgeRuns.OnlyForward | apps/judge/src/index.ts:160-184 | from any moment of a run to any later one phases only move forward, a stored result stays the same result, tokens are not reused, and a job dropped from the map never returns |
| JudgeRuns.SettledOnce | apps/judge/src/index.ts:160-184 | once the sandbox run of a token has settled, no run is under way for that token at any later moment |
| JudgeRuns.LeavesOnly | apps/judge/src/index.ts:135-147 | in every run a token leaves the map, or never makes it there, only with a finished job, and only because a sweep found it created more than ten minutes before its cutoff reading, or because the results of the jobs in the map would pass 64 MiB |
| JudgeRuns.FinishedServed | apps/judge/src/index.ts:177-183 | a run that ends leaves its job in the map, complete and with the result it settled with, unless the results would pass that cap |
| LockTimer.SessionRow.BeginPause | apps/api/src/routes/lock.ts:142-152 | pause is refused unless ARMED, answered as it stands when paused, else a write guarded on being unpaused |
| LockTimer.SessionRow.BeginResume | apps/api/src/routes/lock.ts:169-191 | resume is refused unless ARMED, answered as it stands when running, else a write guarded on the pause read |
| LockTimer.SessionRow.BeginShorten | apps/api/src/routes/lock.ts:219-243 | shorten is refused unless ARMED and running, else a write guarded on the deadline read, never below now |
| LockTimer.SessionRow.UpdateMany | apps/api/src/routes/lock.ts:188-191 | the conditional write moves the row exactly when its guard holds: a pause stamps it, a resume gives back the time since the stamp, a shorten takes off its minutes or stops at its clock reading |
| LockTimer.DeadlineLaw | apps/api/src/routes/lock.ts:136-247 | in every run the deadline is the armed one plus credits minus reductions plus the drift of stale resumes, the credits equal the time really paused plus the lag of pause writes minus the lag of resume writes, and a locked row is unpaused with its deadline passed |
| LockTimer.DeadlineExact | apps/api/src/routes/lock.ts:173-191 | with distinct pause stamps nothing drifts and no pause is credited twice, so the deadline is exactly the armed one plus credits minus reductions |
| LockTimer.LawExactly | apps/api/src/routes/lock.ts:188-191 | at every moment of a run the deadline is the armed one plus credits minus reductions, if and only if no resume of the run lands on a deadline other than the one it read |
| LockTimer.CreditPerResume | apps/api/src/routes/lock.ts:173-191 | the pause a landed resume ends was landed at an earlier moment of the run and stood ever since; the resume credits exactly the time from that moment to its own landing if and only if its write landed as long after its clock reading as the pause's write did after its stamp |
| LockTimer.CreditAgainstPause | apps/api/src/routes/lock.ts:160-161 | the credits exceed the time paused if and only if pause writes lagged behind their stamps more than resume writes did |
| LockTimer.FrozenOnceLocked | apps/api/src/routes/lock.ts:254-264 | once the row has left ARMED no control, however late its write, moves its deadline or pause mark, and a locked row can only end |
| LockTimer.ResumeDrifts | apps/api/src/routes/lock.ts:188-191 | a resume that lands keeps the deadline law if and only if the deadline it read still stands |
| LockTimer.ShortenTowardsNow | apps/api/src/routes/lock.ts:229-243 | a shorten never takes the deadline past the later of where it was and now; an overdue deadline moves up to now |
| LockTimer.ShortenExactly | apps/api/src/routes/lock.ts:229-243 | a shorten that lands takes exactly its minutes off the deadline if that leaves it at or after its clock reading, and otherwise leaves it there |
| LockTimer.LedgerFromEvents | apps/api/src/routes/lock.ts:173-247 | over a run the reductions and credits are the sums, over the writes that landed, of the minutes asked for or what the clamp left of them, and of clock reading less pause stamp |
| LockTimer.ReadExactly | apps/api/src/routes/lock.ts:136-227 | which controls are refused, answered as they stand or go on, and that one which goes on holds a write the row as read would let through |
| LockTimer.WriteGiven | apps/api/src/routes/lock.ts:136-247 | every write that lands holds what its own request asked for, read off the row on arrival and read off the clock after that |
| LockTimer.EngagesExactly | apps/api/src/services/lockSessions.ts:483-492 | a session is locked exactly by a sweep that finds it ARMED, unpaused and due by a time not in the future |
| LockTimer.ShortenOnce | apps/api/src/routes/lock.ts:231-243 | of two shortens that read the same deadline, the second to land after it moved does nothing |
| LockTimer.SameMillisecond | apps/api/src/routes/lock.ts:179-191 | a run with two pauses in one millisecond breaks the deadline law |
| LockTimer.CreditBeyondElapsed | apps/api/src/routes/lock.ts:173-191 | a run with distinct stamps whose credits exceed all the time that passed |
| LockEndings.EndsOnce | apps/api/src/routes/lock.ts:382-438 | in every run a session ends at most once; an abandon answers conflict only if another caller ended it; a failure is recorded once for an abandon from LOCKED and never otherwise |
| LockEndings.EndingStands | apps/api/src/services/lockSessions.ts:189-215 | an ending, once there, is never replaced |
| LockEndings.EndedProperly | apps/api/src/services/lockSessions.ts:189-215 | in every run a cancel ends from ARMED only, a solve or a skip from LOCKED only, each leaving its own state, and only a solve leaves UNLOCKED |
| LockEndings.ClaimWins | apps/api/src/services/lockSessions.ts:189-215 | a claim ends a live session if and only if it is one that may end it in that state |
| LockEndings.FourthClaimNeverWins | apps/api/src/routes/lock.ts:384-395 | the second ARMED claim of an abandon finds the session over |
| LockEndings.RetryNeeded | apps/api/src/routes/lock.ts:373-381 | a run in which one pair of claims would miss a live session and the retry ends it |
| LockEndings.Session.ClaimResolution | apps/api/src/services/lockSessions.ts:189-215 | the claim moves the row and reports success exactly when its state is one of those allowed |
| LockEndings.Session.AbandonRoute | apps/api/src/routes/lock.ts:382-398 | with anything done by others between its claims, other abandon requests included, the loop ends the session itself unless another caller did, and `wasLocked` is exactly whether the row moved from LOCKED |
| GradeQueue.Admission | apps/api/src/services/gradeQueue.ts:74-127 | in every interleaving no user holds two slots, a waiter is behind enough running grades and hand-offs to fill the ceiling, and slots plus hand-offs exceed it by at most the overtakings and the late releases |
| GradeQueue.NoLostWakeUp | apps/api/src/services/gradeQueue.ts:109-127 | two sufficient conditions on the state reached: while no running grade lost its slot nobody waits beside a free place, and without overtakings and late releases the ceiling holds |
| GradeQueue.CeilingExactly | apps/api/src/services/gradeQueue.ts:83-127 | slots plus hand-offs stay within the ceiling at every moment of a run if and only if no arrival is admitted while they already fill it and no reclaimed slot is released while somebody waits, a slot is free and they fill it |
| GradeQueue.WaitersExactly | apps/api/src/services/gradeQueue.ts:51-59 | nobody waits beside a free place at any moment of a run if and only if no arrival reclaims slots while somebody waits and leaves slots, hand-offs and itself below the ceiling |
| GradeQueue.StepExactly | apps/api/src/services/gradeQueue.ts:74-127 | the same for a single step, from any state |
| GradeQueue.AskAnswers | apps/api/src/services/gradeQueue.ts:74-107 | an arrival is refused if and only if its user holds a slot within the limit, admitted if and only if a place is free besides, queued if and only if there is room; the token answered is a new slot of that user, and no other slot changes |
| GradeQueue.ResumeAnswers | apps/api/src/services/gradeQueue.ts:96-107 | a woken waiter is refused if and only if its user got a slot meanwhile, and then the next is woken; otherwise the token answered is a new slot of its user |
| GradeQueue.ReleaseFrees | apps/api/src/services/gradeQueue.ts:109-127 | the first release frees that slot and no other and wakes one waiter if and only if one waits and a place is then free; a second does nothing |
| GradeQueue.ReclaimsExactly | apps/api/src/services/gradeQueue.ts:51-59 | exactly the slots acquired more than three minutes ago go |
| GradeQueue.AskLine | apps/api/src/services/gradeQueue.ts:83-95 | an arrival joins the end of the line exactly when it is queued, and moves nobody |
| GradeQueue.ResumeLine | apps/api/src/services/gradeQueue.ts:96-107 | a woken waiter leaves the line when its code runs, and nobody else moves |
| GradeQueue.ReleaseLine | apps/api/src/services/gradeQueue.ts:110-116 | a release drops nobody from the line and reorders nobody |
| GradeQueue.ReclaimLosesWakeUp | apps/api/src/services/gradeQueue.ts:51-59 | a run after which a waiter sits beside a free place because the reclaim does not pump |
| GradeQueue.HandOffOvertaken | apps/api/src/services/gradeQueue.ts:121-125 | a run in which an arrival takes the place of a woken waiter and one grade too many runs |
| GradeQueue.Queue.ReclaimExpired | apps/api/src/services/gradeQueue.ts:51-59 | exactly the slots older than the limit are removed |
| GradeQueue.Queue.HasActiveFor | apps/api/src/services/gradeQueue.ts:61-66 | true exactly when the user holds a slot |
| GradeQueue.Queue.Pump | apps/api/src/services/gradeQueue.ts:119-127 | one waiter, the oldest, is woken if a place is free |
| GradeQueue.Queue.AcquireGradeSlot | apps/api/src/services/gradeQueue.ts:74-107 | refused for a second grade or a full queue, queued, or admitted with a new slot |
| GradeQueue.Queue.AfterAwait | apps/api/src/services/gradeQueue.ts:96-107 | the woken waiter registers, or gives its turn on if its user was admitted meanwhile |
| GradeQueue.Queue.Release | apps/api/src/services/gradeQueue.ts:109-116 | the first call frees the slot and pumps, any other does nothing |
| LearnSession.ExactlyOnce | apps/api/src/routes/learn.ts:469-505 | in every interleaving an attempt is stored exactly when it has exactly one check event, none has two, there are as many finish events as times an active row stopped being active, and the version is one more than the times the row changed |
| LearnSession.ResultsStand | apps/api/src/routes/learn.ts:414-418 | a stored result neither changes nor disappears, restarts included |
| LearnSession.WrittenOnlyOnWhatWasRead | apps/api/src/routes/learn.ts:368-379 | a draft or finish is written only if nothing was since the version it was built on |
| LearnSession.RetriesAgree | apps/api/src/routes/learn.ts:469-505 | of two retries in flight, with anything landing in between, one writes an event and both answer with the result that landed first |
| LearnSession.NothingNewWhenFinished | apps/api/src/routes/learn.ts:478-480 | an attempt not stored when the lesson was finished is not stored later without a restart |
| LearnSession.StoredFromCommit | apps/api/src/routes/learn.ts:469-505 | every stored result is the verdict of a commit of the run that landed it, on an active row that had no result of that attempt |
| LearnSession.LandsOnce | apps/api/src/routes/learn.ts:469-505 | and of one only |
| LearnSession.FlightFromBegin | apps/api/src/routes/learn.ts:401-470 | a request in flight holds the attempt and kind it began with, or the row as it was then |
| LearnSession.ClaimExactly | apps/api/src/routes/learn.ts:469-505 | a new attempt on an active row is answered and stored with the judge's own verdict, logged once, and moves the row to the prediction or task step, never back |
| LearnSession.ClaimTurnedAway | apps/api/src/routes/learn.ts:469-480 | otherwise nothing is written: a stored attempt is answered as stored, a finished row refuses |
| LearnSession.StartExactly | apps/api/src/routes/learn.ts:324-340 | a start activates the row in its language and resets the step if and only if it was read finished; draft and results stay |
| LearnSession.DraftExactly | apps/api/src/routes/learn.ts:368-375 | a draft that lands replaces what it carries and nothing else |
| LearnSession.FinishExactly | apps/api/src/routes/learn.ts:610-619 | a finish that lands closes the row at the last step, keeps draft and results and logs one event |
| LearnSession.PracticeExactly | apps/api/src/routes/learn.ts:574-580 | a practice write sets only the step, to the later of the practice step and the step read |
| LearnSession.PracticeStep | apps/api/src/routes/learn.ts:574-580 | the practice write moves the step back if and only if the row is active and stands beyond both the practice step and the step read |
| LearnSession.PracticeUndoesADraft | apps/api/src/routes/learn.ts:574-580 | a run in which it undoes a saved step |
| LearnSession.Lesson.StartWrite | apps/api/src/routes/learn.ts:324-340 | a new row, or the row reopened in the new language, at the first step if it was read finished |
| LearnSession.Lesson.DraftWrite | apps/api/src/routes/learn.ts:368-375 | the draft lands exactly on an active row of that version, and says so |
| LearnSession.Lesson.CheckTransaction | apps/api/src/routes/learn.ts:469-505 | under the lock a stored attempt is returned, a finished row refuses, and otherwise the judge's verdict is stored and answered and step, version and event land with it |
| LearnSession.Lesson.PracticeWrite | apps/api/src/routes/learn.ts:577-580 | the step becomes the later of practice and the step read |
| LearnSession.Lesson.FinishTransaction | apps/api/src/routes/learn.ts:610-619 | finish and its event land together, exactly on an active row of that version |
| KillSwitch.FiresExactly | apps/desktop/src/kill-switch.ts:40-55 | an Escape fires if and only if it completes an unbroken hold of the full time that no earlier Escape completed |
| KillSwitch.OncePerHold | apps/desktop/src/kill-switch.ts:36-39 | between two firings the hold was broken |
| KillSwitch.Ring | apps/desktop/src/kill-switch.ts:61-66 | the ring is full exactly when nothing remains, and at least zero exactly when the clock has not run back |
| KillSwitch.RingExactly | apps/desktop/src/kill-switch.ts:61-66 | until it is full the ring shows exactly the part of the hold time that has passed, and the rest remains; nothing with no hold under way |
| KillSwitch.RingAtEscape | apps/desktop/src/kill-switch.ts:25-27 | the ring an Escape leaves is full only if the hold has fired, and is full whenever it has on a clock that runs forward |
| KillSwitch.FullUnfiredExactly | apps/desktop/src/kill-switch.ts:25-27 | after any history, a ring redrawn at any time is full with nothing fired if and only if the hold under way began the full time ago or more and no Escape in it has come that late |
| KillSwitch.FullRingNotFired | apps/desktop/src/kill-switch.ts:57-66 | a full ring that has not fired |
| KillSwitch.HoldToRelease.KeyDown | apps/desktop/src/kill-switch.ts:40-55 | returns true exactly when this event completes a hold, judged on the whole history of events |
| KillSwitch.HoldToRelease.KeyUp | apps/desktop/src/kill-switch.ts:57-59 | Escape coming up forgets the hold, another key does not |
| KillSwitch.HoldToRelease.GetProgress | apps/desktop/src/kill-switch.ts:61-66 | reports the ring and changes nothing |
| KillSwitch.HoldToRelease.Clear | apps/desktop/src/kill-switch.ts:68-71 | the hold is forgotten and may fire again |
| DesktopShell.FreedBy | apps/desktop/src/main.ts:295-311 | one step frees the screen only by a token for the session held, a poll about the session held that came back not locked, a completed hold, or a crash; an unnamed lock only by the last two |
| DesktopShell.FreesExactly | apps/desktop/src/main.ts:295-311 | and it is freed if and only if one of those happens |
| DesktopShell.UnlockExactly | apps/desktop/src/main.ts:723-744 | a verified token frees a held screen if and only if it names the session held; then nothing is held, the hold is forgotten and the record goes if its deletion succeeds; any other changes nothing |
| DesktopShell.ScreenTaken | apps/desktop/src/main.ts:237-260 | a free screen is taken if and only if a confirmation comes in or a lock that names no session is allowed |
| DesktopShell.EngagedExactly | apps/desktop/src/main.ts:561-600 | an engaged session is the one held, under a record written now that is good for twelve hours; the hold starts afresh only if the screen was free |
| DesktopShell.AskedExactly | apps/desktop/src/main.ts:237-241 | the server is asked to confirm a session if and only if the screen is wanted for it while free and with a key configured |
| DesktopShell.ReadExactly | apps/api/src/services/lockSessions.ts:130-151 | read for an engage, a LOCKED session is confirmed, a due ARMED one goes on to the claim, any other is refused |
| DesktopShell.EveryRelease | apps/desktop/src/main.ts:499-515 | in every run a held screen goes free if and only if a token names the session held, a poll about it came back not locked, Escape was held ten uninterrupted seconds on the held screen, or the process dies |
| DesktopShell.VerdictExact | apps/desktop/src/lock-watchdog.ts:38-56 | a readable answer releases a named lock if and only if the server has ended that session or never locked it; for a session the server knows, if and only if it is over or still ARMED; no answer and no name release nothing |
| DesktopShell.WatchdogOnlyAfterTheEnd | apps/desktop/src/main.ts:295-311 | if re-assertions name the session held and no confirmation acted on shows its session ARMED, the watchdog lets go only of a session the server had already ended, however late the answer |
| DesktopShell.WatchdogExactly | apps/desktop/src/lock-watchdog.ts:38-56 | whatever was confirmed: whenever the watchdog lets go, the server had ended the session when it gave the answer if and only if the answer does not show the session ARMED; it had if the session was ever locked, as after any confirmation from a claim that hit |
| DesktopShell.AnswersExactly | apps/desktop/src/lock-watchdog.ts:38-56 | no answer of a run asks for the release of a session that has not ended if and only if no poll of the run is answered while its session is ARMED |
| DesktopShell.ArmedMeansUnclaimed | apps/api/src/services/lockSessions.ts:153-165 | a session the server has ARMED was only ever confirmed after a claim that matched nothing |
| DesktopShell.HollowConfirmation | apps/api/src/services/lockSessions.ts:153-165 | a reachable run in which a pause between read and claim makes the shell take the screen for a session never locked, and the watchdog free it though nothing ended |
| DesktopShell.CancelledConfirmation | apps/api/src/services/lockSessions.ts:153-165 | a reachable run in which a cancel between read and claim makes the shell take the screen for a session that is over and was never locked, on a confirmation that does not show ARMED |
| DesktopShell.TakenExactly | apps/desktop/src/main.ts:225-260 | every confirmation that comes in was read off the row at an earlier moment; the server had the session LOCKED then if and only if the confirmation shows it LOCKED, and has it LOCKED when it comes in if and only if it had or locked it since, and has not ended it since |
| DesktopShell.ReadBackExactly | apps/api/src/services/lockSessions.ts:153-166 | the row read back after a claim is LOCKED if and only if the session was LOCKED at the claim, or ARMED and due at it or at an engage after it, and nothing ended it before the read-back |
| DesktopShell.HollowExactly | apps/api/src/services/lockSessions.ts:153-166 | no confirmation of a run is for a session that was not LOCKED if and only if every read-back finds the row LOCKED, that is, if and only if that condition holds of every read-back and every claim before it |
| DesktopShell.HeldChanges | apps/desktop/src/main.ts:241-259 | while the screen stays held, the session held for stays the same if and only if no confirmation for another lands and no re-assertion names another |
| DesktopShell.SteadyExactly | apps/desktop/src/main.ts:241-259 | the same over any stretch of a run without a release |
| DesktopShell.ReleasedWasTaken | apps/desktop/src/main.ts:295-311 | without such a landing a watchdog release is about the session the screen was taken for; with checked confirmations that session had ended, so no live lock is lost |
| DesktopShell.TakeOverLoses | apps/desktop/src/main.ts:241-259 | wherever a confirmation takes over a screen held for a session the server has locked, the watchdog can free it while that session is still locked |
| DesktopShell.ForeignReassertion | apps/desktop/src/main.ts:691-698 | re-asserting another session makes the watchdog free the screen while the server still has the first one locked |
| DesktopShell.LateConfirmation | apps/desktop/src/main.ts:237-260 | a reachable run in which a late confirmation takes over a held screen and the watchdog then frees it though the next session is still locked |
| DesktopShell.DiskNamesHeld | apps/desktop/src/main.ts:561-570 | if writes succeed, whenever the screen is held for a session the record on disk names it |
| DesktopShell.ReleaseClears | apps/desktop/src/main.ts:612-619 | a release whose deletion succeeds clears memory and disk, and the next start wants nothing |
| DesktopShell.ReleaseThenStart | apps/desktop/src/main.ts:612-619 | after a release, or a death in the middle of one, the next start wants nothing if and only if the record was deleted, there was none, or the start is past its lifetime |
| DesktopShell.CrashAndRestart | apps/desktop/src/main.ts:937-958 | after a crash while a session is held and a restart, the shell asks for the same session if and only if the start is within twelve hours either way of the record and an unlock key is configured; the record is dated and its interruptions counted one up, or removed |
| DesktopShell.CrashWhileEngaging | apps/desktop/src/main.ts:557-570 | a crash after the record is written and before the screen is taken loses nothing: the next start asks for that session under the same conditions |
| DesktopShell.Recovered | apps/desktop/src/main.ts:569 | if the server still has it locked, the screen is held again, under a fresh record without the interruption count |
| DesktopShell.Desktop.EngageLock | apps/desktop/src/main.ts:561-600 | names the session in memory and on disk, and takes the screen and resets the hold only if it was free |
| DesktopShell.Desktop.ReleaseLock | apps/desktop/src/main.ts:612-638 | memory, hold and disk are cleared |
| DesktopShell.Desktop.TakeScreenFor | apps/desktop/src/main.ts:237-241 | the server is asked exactly when the screen is free and a key is configured |
| DesktopShell.Desktop.EngageAnswered | apps/desktop/src/main.ts:243-259 | only a confirmation takes the screen, whatever happened meanwhile |
| DesktopShell.Desktop.PollAnswered | apps/desktop/src/main.ts:300-308 | released exactly on a release verdict about the session still held |
| DesktopShell.Desktop.BeforeInput | apps/desktop/src/main.ts:499-515 | keys count only while the screen is held, and release it exactly when the hold fires |
| DesktopShell.Desktop.HandleLock | apps/desktop/src/main.ts:691-713 | re-asserts when held, asks the server for a named lock, engages an unnamed one at once |
| DesktopShell.Desktop.HandleUnlock | apps/desktop/src/main.ts:723-744 | opens exactly for a token naming the session held, and then the screen is free, nothing is held and the record goes if its deletion succeeds |
| DesktopShell.Desktop.Start | apps/desktop/src/main.ts:937-958 | stamps an interrupted record, wants the session of a live one, removes an expired one |
| Importer.Servable | apps/api/src/corpus/importer.ts:49-88 | no gap if and only if there are tests, a signature, and a runtime and a non-blank solution in all six languages |
| Importer.RuntimeGaps | apps/api/src/corpus/importer.ts:66-75 | the runtime gap names exactly the unmeasured languages, or that none is measured |
| Importer.SolutionGaps | apps/api/src/corpus/importer.ts:77-85 | the solution gap names exactly the languages without a solution, or that there is none |
| Importer.OneReplaced | apps/api/src/corpus/importer.ts:137-251 | one transaction changes only its slug's row and that row's cases, which become exactly the definition's, old rows keeping their ids |
| Importer.PartialMeasurementDeactivates | apps/api/src/corpus/importer.ts:144-157 | a measurement that lacks a language takes the problem out of service whatever was stored |
| Importer.ImportCatalogue | apps/api/src/corpus/importer.ts:113-281 | what any import leaves behind, ids aside, complete, refused part-way, empty or dry, whatever the database held and however often a slug is defined |
| Importer.ActiveExactly | apps/api/src/corpus/importer.ts:151-157 | after a complete import a row is active if and only if its slug is in the corpus and its definition has no gap for the runtimes stored |
| Importer.TestsExactly | apps/api/src/corpus/importer.ts:224-248 | the cases of an imported slug are exactly the ordinals 0 to n-1 with the definition's tests |
| Importer.RuntimesKept | apps/api/src/corpus/importer.ts:144-149 | no row is lost or renumbered, and one that was not measured keeps its runtimes |
| Importer.SameRows | apps/api/src/corpus/importer.ts:10-16 | a second import leaves the same problem rows, ids included, and the same cases |
| Importer.SameRowsIff | apps/api/src/corpus/importer.ts:13-16 | and the same case ids if and only if nothing is written or no accepted definition has fewer tests than the last definition of its slug |
| Importer.DistinctNoneOutgrown | apps/api/src/corpus/importer.ts:13-16 | which distinct slugs guarantee |
| Importer.DryRunExactly | apps/api/src/corpus/importer.ts:215 | a dry run changes nothing, and reports what the real run would if and only if a definition is refused or no new slug is defined twice |
| Importer.RefusedExactly | apps/api/src/corpus/importer.ts:90-110 | an import reports if and only if every definition has a known signature, a named source, address, licence and reference, and an attribution unless the licence is CC0; otherwise it ends at the first that has not, with what came before imported |
| Importer.ReportExactly | apps/api/src/corpus/importer.ts:137-215 | a definition is reported created exactly if its slug is new, active exactly if the row it leaves is, and blocked by exactly what is missing; the row keeps the runtimes stored unless this run measured some |
| Importer.ReportsInOrder | apps/api/src/corpus/importer.ts:113-254 | the definitions are reported in order, each against what the ones before it left |
| Importer.Tables.WriteProblem | apps/api/src/corpus/importer.ts:217-222 | the row of the slug is created or overwritten, keeping its id |
| Importer.Tables.WriteCase | apps/api/src/corpus/importer.ts:228-242 | the case of that ordinal is created or overwritten, keeping its id |
| Importer.Tables.WriteCases | apps/api/src/corpus/importer.ts:227-248 | the loop and the deletion behind it |
| Importer.Tables.ImportOne | apps/api/src/corpus/importer.ts:137-251 | the transaction and its report, none of it written in a dry run |
| Importer.Tables.ImportProblems | apps/api/src/corpus/importer.ts:113-281 | the whole run, ended by the first refused definition |
| Importer.Tables.DeactivateMissing | apps/api/src/corpus/importer.ts:273-278 | exactly the active rows outside the corpus become inactive |
| ShellQuote.QuoteRemoval | apps/judge/src/sandbox.ts:307-309 | before any text at all, the quoted form adds exactly the original characters to the current word, every one of them quoted, and leaves the shell unquoted |
| ShellQuote.QuotedInjective | apps/judge/src/sandbox.ts:307-309 | no two strings have the same quoted form |
| ShellQuote.UnquotedIff | apps/judge/src/sandbox.ts:306 | without quotes a string arrives as one word of itself with nothing left to expand if and only if it is not empty and has no delimiter, quote, backslash or special character |
| ShellQuote.DecimalIsBareword | apps/judge/src/sandbox.ts:286 | the text of a time limit, whole or with decimals, is a word that needs no quoting |
| ShellQuote.CommandIsOneArgument | apps/judge/src/sandbox.ts:286 | whatever the command holds and whatever number the limit is, `timeout` gets six arguments with the command last, character for character and with nothing in it left for the shell to expand, and the rest of the script is untouched |

## Left out

- Jobs and tree or list nodes: a judge job is a value in a table by token, so two variables naming one job object are not modelled; linked tree and list nodes are real objects.
- Judge: serialising answers, decoding base64 and running the sandbox are not modelled. After its own visit an expired job that stayed may still be evicted for space later in the same sweep.
- JudgeRuns.OnlyForward: a result is an opaque body and its size; that one started sandbox run settles, and is cleaned up, once comes from the promise and is taken for granted; that no token is started twice is proved (`JudgeRuns.SettledOnce`).
- Text.NumberRoundTrip: covers integers and NaN; integers are unbounded, where JavaScript loses precision beyond 2^53 and prints an exponent from 1e21 on; any token that is not a plain decimal integer reads as NaN, where JavaScript also accepts other notations.
- ArrayCodec.JavaMatrix: the Java, C++, Go and Python readers fail on a token that is not a number and overflow at their integer width, which is not modelled; the property is about printed text.
- Text.TokenizersAgree: about JavaScript and C++, the latter in the C locale and character by character rather than byte by byte; which further blanks Java, Go and Python know is not modelled.
- LruCache.SameOutcome: the Python and Java caches and the cutting of an operation line into tokens are not modelled; a C++ call on a null object counts as a crash.
- LockTimer: skips, solves and the sweep appear as endings and as the step that engages a due timer; reading the session back for the answer is not modelled.
- LockTimer.DeadlineExact: that pause stamps are distinct is a condition on the run; `LockTimer.SameMillisecond` shows it is needed.
- LockEndings: the audit row, withdrawing a failure through `/reason`, and the difficulty ladder.
- GradeQueue: the health endpoint and the test-only reset.
- LearnSession: start and practice events, hints, choosing a practice problem, and grading itself, whose result is any result.
- DesktopShell: the pauses, shortens and deadlines of a session appear as whether it is due; windows, covers, tray, updater, scheduling and retry timers; any request to take the screen may come at any time instead. The window is taken to exist.
- DesktopShell.WatchdogOnlyAfterTheEnd: holds under its two conditions only, since without them it is false (`DesktopShell.HollowConfirmation`, `DesktopShell.ForeignReassertion`); tokens are facts naming a session; signatures, their expiry and how they are issued are not modelled.
- DesktopShell.CrashAndRestart: startup reads the clock once where the source reads it three times in a row.
- Importer: one transaction is one step, so two imports running at once are not modelled; ranking and generated drivers are part of what a row keeps of its definition, and the notice file is left out.
- ShellQuote: expansions are not carried out, only marked as possible, one character at a time; here-documents, comments and NUL characters are not modelled, nor is stripping the timing probe from stderr.
- Stats, medians, environment validation, rate limits, prompts, HTTP routing, the database driver, Docker and all user interface code: they would only add easy members.
