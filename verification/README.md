# Rekall's decisions, proved

A model of the parts of Rekall that decide, with proofs of what they keep. `dafny verify dfyconfig.toml` checks all of it.

**The run queue.** `RunQueueWorld.dfy` describes what the queue's worker decides over: the queue, its items in order,
the tasks, the terminals and the commands in flight, and `ConsoleMay`, everything that may happen to
them from outside at any moment. `RunQueueProtocol.dfy` is the worker as a transition system with its invariant;
`RunQueueRuns.dfy` holds the theorems about every run. `RunQueueWorker.dfy` is the worker itself, a class over
`active`, `parked` and `generation`. Wherever the program waits for an answer, the world moves on first
(`Interfere`), any read or write may fail, and delayed commands come back in any order. Each method is
proved to lead from one state to another by moves of the protocol alone, so `Valid()` is "this state is
reachable" and every theorem about runs holds of it. `UsageCeiling.dfy` is the verdict it holds on.

**Chat.** `EventJournal.dfy`: the byte-budgeted ring and its listeners, against the whole history.

**Transcripts.** `SessionLedger.dfy`: which unit of work each call is charged to, and what a session spent.

**Memories.** `MemoryClusters.dfy`: union-find with path compression on an array, and the groups it gives.

**Terminals.** `PtyResize.dfy`: every interleaving of pane resizes and repaint kicks. The guard in `kick_resize` is
gone before the shrink, so the shrink is a step of its own outside the lock.

**Text and settings.** `WorkingDirectory.dfy` searches for a flattened folder name, `GuardHooks.dfy` edits Claude
Code's settings, `Slug.dfy` makes identifiers and `JavaString.dfy` counts in UTF-16. `Numbers.dfy`, `Options.dfy`,
`Sequences.dfy` and `Sets.dfy` hold what several share.

## What the proofs found

- "No session lacks an item" fails, besides deleted tasks, in one family of runs: `remove` refuses only running items, so one
  that falls between `next_turn` and `mark_item(Running)` leaves a session on an item no longer listed
  (`RemovalDuringLaunchLeavesASession`). `ItemLostExactlyDuringLaunch` proves that a session lacks its
  item if and only if that happened.
- Uninstalling the hooks is documented as leaving everything else alone. It also drops groups, events and a `hooks`
  object that were empty before Rekall came; `UninstallingRestores` says exactly when the round trip is the identity.
- A repaint kick whose restore the operating system refuses can leave a window at rest a row short
  (`ARefusedRestoreLeavesTheWindowShort`). `QuietWindowIsRightExactlyWhen` says when: nothing was applied under the lock
  since the last shrink, and that shrink did not leave the recorded size. Refused resizes and shrinks do no harm.
- `unit_at` and `current` agree when stamps do not decrease and can differ when they do (`DisorderedStampsDisagree`);
  `UnitAtAgreesExactlyWhen` gives the condition for any transcript.

## What is assumed

- A successful write of an item's state is assumed only where a statement says `intact`: the tie between running items
  and sessions, and what an item is recorded as. Generations, closing, terminals, places and termination are proved with any write failing.
- A usage reading and what `open`, `renew`, `has_live_for`, `ensure` and a task's read answer may be anything at any time; the
  contracts say what follows from the answer. `open` and `renew` give a terminal the worker never had before.
- A tick, a task move, a stop or the end of a terminal may be sent at any time; the end of a terminal is sent only
  once it is no longer live. `Settle`, `Pause` and `Renew` are sent by the worker alone.
- An unsettled item is the only one on its task, as `enqueue` sees to, and deleting a task deletes its items
  (`rekall-store/src/migration/baseline.sql`).
- The console adds finitely many items during one `advance` (`arrivals`); otherwise the loop has no reason to end.

## Model

| member | source | states |
|---|---|---|
| `RunQueueRuns.RunningItemsAreThoseInHand` | rekall-infra/src/queue/run_queue_worker.rs:110-147 | in every reachable state between two commands, with the item writes having gone through, the running items are exactly the listed items of `active`, each once; an entry's item is listed exactly when its task was not deleted and the console did not take it off |
| `RunQueueRuns.RemovalDuringLaunchLeavesASession` | rekall-infra/src/queue/run_queue_worker.rs:266-275 | that exception is real: a run without failures or deletions in which `remove` falls between `next_turn` and `mark_item` ends with a session whose item is gone |
| `RunQueueRuns.ItemLostExactlyDuringLaunch` | rekall-infra/src/queue/run_queue_worker.rs:191-275 | over every run with the item writes gone through, a session whose task was not deleted lacks its item if and only if that item was taken off from outside after the worker chose it and before it was marked running |
| `RunQueueRuns.SettledStaysSettled` | rekall-core/src/queue/service/run_queue_service.rs:317-327 | over every run with the item writes gone through, an item once finished, skipped or failed keeps that state as long as it is listed |
| `RunQueueRuns.NoSessionWithoutItem` | rekall-infra/src/queue/run_queue_worker.rs:221-279 | with neither deletions nor removals, running items and sessions are the same set, of the same size as `active` |
| `RunQueueRuns.ClosingMeansOneEndInFlight` | rekall-infra/src/queue/run_queue_worker.rs:295-334 | on every path, failures included, an entry is closing if and only if exactly one `Settle` or `Pause` of its generation is in flight, and open if and only if none is |
| `RunQueueRuns.ForgottenStaysForgotten` | rekall-infra/src/queue/run_queue_worker.rs:396-399 | over every run, a generation given out and no longer in hand never comes back |
| `RunQueueRuns.LostIsNeverClosed` | rekall-infra/src/queue/run_queue_worker.rs:439-458 | a session is given up as ended only when its terminal ended, and the worker closed or renewed that terminal at no point of the run, before or after |
| `RunQueueRuns.ClosedIsNobodysTerminal` | rekall-infra/src/queue/run_queue_worker.rs:470-474 | a terminal the worker closed or renewed is no session's terminal in any reachable state |
| `RunQueueRuns.PlacesAreNeverExceeded` | rekall-infra/src/queue/run_queue_worker.rs:501-503 | over every run with `parallel_sessions` fixed, `active` never holds more than that many sessions, or than one when it is less than one |
| `RunQueueRuns.QueueRestsEmptyHanded` | rekall-infra/src/queue/run_queue_worker.rs:185-219 | in every reachable state, on failing paths too, a queue that is idle, scheduled or holding has no session in hand and none being launched |
| `RunQueueRuns.SessionsStartInTurn` | rekall-infra/src/queue/run_queue_worker.rs:185-279 | over every run, a session starts only after the settings of an armed queue with a free place were read, then its item was the first in order that waits, is not parked and has its dependencies accepted, and then the usage was found clear of the ceiling of those settings |
| `RunQueueRuns.RunKeepsInvariant` | rekall-infra/src/queue/run_queue_worker.rs:97-106 | the whole invariant holds at every point of every run, in the middle of a decision too |
| `RunQueueProtocol.MoveKeepsInvariant` | rekall-infra/src/queue/run_queue_worker.rs:110-147 | every move of the worker and of the world keeps the invariant |
| `RunQueueProtocol.MoveKeepsCore` | rekall-infra/src/queue/run_queue_worker.rs:266-275 | generations, ends in flight, terminals and places survive every move, failed writes included |
| `RunQueueProtocol.MoveKeepsTied` | rekall-core/src/queue/service/run_queue_service.rs:317-327 | the tie between running items and sessions survives every move as long as item writes go through |
| `RunQueueProtocol.OutsideKeepsTied` | rekall-core/src/queue/service/run_queue_service.rs:363-378 | additions, removals, deletions and settings from the console keep the tie |
| `RunQueueWorld.ConsoleNeverGrowsTheBacklog` | rekall-core/src/queue/service/run_queue_service.rs:225-244 | what may still be taken up, with what is still to come, never grows by anything the console does |
| `RunQueueWorker.Worker.constructor` | rekall-infra/src/queue/run_queue_worker.rs:78-94 | a new worker over any queue a previous process left behind |
| `RunQueueWorker.Worker.Run` | rekall-infra/src/queue/run_queue_worker.rs:97-106 | what was marked running waits again and the other items stay; then command after command is handled, always by moves of the protocol |
| `RunQueueWorker.Worker.Handle` | rekall-infra/src/queue/run_queue_worker.rs:110-147 | each command comes to what its own contract says of the state it was delivered in; a stale command and the end of a terminal the worker closed change nothing at all; a decision fails only when an answer failed to come, or a renewed task is gone |
| `RunQueueWorker.Worker.Tick` | rekall-infra/src/queue/run_queue_worker.rs:149-180 | without a failure the places are filled as far as they can be, for the reason given, and no session is left open in a terminal that was gone when the tick came |
| `RunQueueWorker.Worker.LookAt` | rekall-infra/src/queue/run_queue_worker.rs:169-178 | a terminal that is gone has nobody open in it afterwards; otherwise the task is looked at as `Review` says, and then only this session's waiting mark changes |
| `RunQueueWorker.Worker.Advance` | rekall-infra/src/queue/run_queue_worker.rs:185-219 | terminates for every queue; it ends because the queue is not armed, the places are full, nothing may start (and then an empty-handed queue is idle or an item waits), or the ceiling holds |
| `RunQueueWorker.Worker.FillAPlace` | rekall-infra/src/queue/run_queue_worker.rs:186-218 | a round that is not the last strictly shortens the backlog of queued, unparked items |
| `RunQueueWorker.Worker.TakeUp` | rekall-infra/src/queue/run_queue_worker.rs:208-217 | when the reading is over the ceiling no session, generation or terminal is added and an empty-handed queue holds; when it is not, the item is launched and the backlog gets shorter |
| `RunQueueWorker.Worker.ReadCeiling` | rekall-infra/src/queue/run_queue_worker.rs:460-466 | clear exactly when no ceiling is set or the usage reading does not hold |
| `RunQueueWorker.Worker.RestUnstarted` | rekall-infra/src/queue/run_queue_worker.rs:192-206 | finish or stop as blocked only with no session in hand |
| `RunQueueWorker.Worker.Launch` | rekall-infra/src/queue/run_queue_worker.rs:221-279 | by the answers: an unknown task or one already worked fails and gets no terminal, one with nothing left is skipped, side by side without a worktree it is parked, refused it fails, and opened it is taken up under the next generation with the steps settled so far; each time it leaves the backlog |
| `RunQueueWorker.Worker.LaunchIn` | rekall-infra/src/queue/run_queue_worker.rs:246-279 | opened, refused or failed: taken up, dismissed as failed, or left waiting |
| `RunQueueWorker.Worker.Begin` | rekall-infra/src/queue/run_queue_worker.rs:266-278 | the session is remembered under a new generation before the item is marked running |
| `RunQueueWorker.Worker.Park` | rekall-infra/src/queue/run_queue_worker.rs:403-408 | the item keeps waiting, is passed over, and has left the backlog |
| `RunQueueWorker.Worker.Review` | rekall-infra/src/queue/run_queue_worker.rs:295-334 | what a look does follows from what it saw: let go and closed when deleted, settled when nothing is left, paused exactly on a new claim over the ceiling, else renewed when spent; claimed steps are noted, no other entry changes, and a closing or unknown session is left alone |
| `RunQueueWorker.Worker.LookAtClaim` | rekall-infra/src/queue/run_queue_worker.rs:316-332 | the settled steps are noted, and with a reading over the ceiling of the settings read, exactly this session becomes closing with its `Pause` in flight |
| `RunQueueWorker.Worker.Renew` | rekall-infra/src/queue/run_queue_worker.rs:343-375 | a stale or closing session, a failed read or a session that went on is left as it is; otherwise the terminal opened takes over and the old one is closed, or none was and the session is let go, its item failed and its place filled |
| `RunQueueWorker.Worker.Settle` | rekall-infra/src/queue/run_queue_worker.rs:411-419 | the session is let go, its terminal closed, its item recorded with the outcome and its place filled; a stale generation changes nothing |
| `RunQueueWorker.Worker.Pause` | rekall-infra/src/queue/run_queue_worker.rs:422-436 | exactly that session is let go and closed, its item waits again, and with none left the queue holds; a stale generation changes nothing |
| `RunQueueWorker.Worker.SessionEnded` | rekall-infra/src/queue/run_queue_worker.rs:439-458 | an unknown, closing or worker-closed terminal changes nothing; otherwise the session is let go and its place filled, and its item is finished if a read says nothing is left, and failed if work is left, the task is gone or the read fails |
| `RunQueueWorker.Worker.Stop` | rekall-infra/src/queue/run_queue_worker.rs:138-145 | no session in hand, nothing parked, every terminal closed; after a successful write what ran waits again, the other items stay, and the queue is idle |
| `RunQueueWorker.Worker.Forget` | rekall-infra/src/queue/run_queue_worker.rs:396-399 | the session's generation and terminal are in hand no more |
| `RunQueueWorker.Worker.CloseSession` | rekall-infra/src/queue/run_queue_worker.rs:470-474 | the terminal is closed by the worker |
| `RunQueueWorker.Worker.DecideToEnd` | rekall-infra/src/queue/run_queue_worker.rs:490-497 | marked closing and the delayed command put in flight, together |
| `RunQueueWorker.Worker.NotePermissionWait` | rekall-infra/src/queue/run_queue_worker.rs:283-292 | only this session's waiting mark changes, to what its terminal shows; an unknown generation changes nothing |
| `RunQueueWorker.Worker.ReadNextTurn` | rekall-core/src/queue/service/run_queue_service.rs:225-244 | the first item in order that is queued, unparked and has its dependencies accepted; `Blocked` exactly when none is ready and one waits, `Empty` when none waits |
| `RunQueueWorker.Worker.MarkItem` | rekall-core/src/queue/service/run_queue_service.rs:317-327 | that item has the outcome and the others are as they were; a failed write leaves all as they were |
| `RunQueueWorker.Worker.RequeueRunning` | rekall-core/src/queue/service/run_queue_service.rs:331-349 | every item known and still listed keeps its task, is queued if it was running, and otherwise keeps its state; a stop also disarms |
| `RunQueueWorker.Worker.FinishQueue` | rekall-core/src/queue/service/run_queue_service.rs:304-314 | idle if nothing waits, otherwise as it was |
| `RunQueueWorker.Worker.ResumeQueue` | rekall-core/src/queue/service/run_queue_service.rs:277-286 | a scheduled or holding queue runs |
| `RunQueueWorker.Worker.HoldQueue` | rekall-core/src/queue/service/run_queue_service.rs:288-300 | holding, unless it was idle |
| `RunQueueWorker.Worker.StopBlocked` | rekall-core/src/queue/service/run_queue_service.rs:248-261 | the queue is idle |
| `RunQueueWorker.TakingUpShortens` | rekall-infra/src/queue/run_queue_worker.rs:191-207 | taking the item whose turn it is out makes the backlog strictly shorter |
| `RunQueueWorker.WrittenLeavesTheBacklog` | rekall-infra/src/queue/run_queue_worker.rs:403-408 | an item marked anything but queued, or parked, has left the backlog |
| `UsageCeiling.Check` | rekall-infra/src/queue/usage_ceiling.rs:39-76 | holds exactly when a ceiling is set and the reading is unusable or a counted window is at or over it; resumes strictly after now and a minute past every known reset; names the first worst window |
| `UsageCeiling.FirstWorst` | rekall-infra/src/queue/usage_ceiling.rs:58-64 | the first of the highest percentages |
| `UsageCeiling.ResumeAt` | rekall-infra/src/queue/usage_ceiling.rs:70-75 | strictly after now; fifteen minutes when a reset is unknown; else at least a minute after every reset |
| `UsageCeiling.Over` | rekall-infra/src/queue/usage_ceiling.rs:49-54 | exactly the counted windows at or over the ceiling |
| `UsageCeiling.RaisingTheCeilingNeverHolds` | rekall-infra/src/queue/usage_ceiling.rs:49-57 | raising the ceiling never turns a clear verdict into a hold |
| `UsageCeiling.WindowsThatHold` | rekall-infra/src/queue/usage_ceiling.rs:83-88 | a session, weekly or own-model window exactly at the ceiling holds for any model; the window of another model alone never does |
| `EventJournal.Journal.constructor` | rekall-infra/src/chat/event_journal.rs:19-22 | an empty journal with its budget |
| `EventJournal.Journal.Publish` | rekall-infra/src/chat/event_journal.rs:24-32 | the event gets the next number, the history grows by it, the ring is the longest suffix that fits or the newest event alone, held bytes are exact, and every listener receives it and still follows |
| `EventJournal.Journal.Attach` | rekall-infra/src/chat/event_journal.rs:36-39 | any listener, also one already attached: a subscription of its own that follows the history from the event after the given number, or from the oldest held |
| `EventJournal.Journal.Detach` | rekall-infra/src/chat/event_journal.rs:41-43 | exactly the subscriptions of the token go, the others stay in order |
| `EventJournal.Journal.TakeListeners` | rekall-infra/src/chat/event_journal.rs:45-47 | every listener in order, and none left |
| `EventJournal.Journal.Remember` | rekall-infra/src/chat/event_journal.rs:49-58 | numbers stay consecutive, bytes exact and the ring kept to the budget |
| `EventJournal.KeptIsLongest` | rekall-infra/src/chat/event_journal.rs:49-58 | a ring kept by dropping the oldest while over budget is the longest suffix of the whole history that fits |
| `EventJournal.LongestIsUnique` | rekall-infra/src/chat/event_journal.rs:49-58 | at most one ring meets that description |
| `EventJournal.RingAfterIsASuffix` | rekall-infra/src/chat/event_journal.rs:36-39 | filtering the ring by number gives a suffix of the history, whatever number is asked |
| `EventJournal.StillFollows` | rekall-infra/src/chat/event_journal.rs:24-32 | backlog and live events stay the history from where the listener joined, none missing or repeated |
| `EventJournal.ReconnectingContinues` | rekall-infra/src/chat/event_journal.rs:36-39 | what a subscription had up to an event, with the backlog a new one gets for that number, is the history from where the first joined if and only if nothing since was evicted |
| `SessionLedger.UnitAtAgreesExactlyWhen` | rekall-infra/src/transcript/session_ledger.rs:115-124 | for any transcript and time, `unit_at(t)` is the unit after the last line stamped by then if and only if nothing moved the session, its last move is stamped by then, or the earlier stamped moves end on the same unit |
| `SessionLedger.UnitAtIsTheUnitThen` | rekall-infra/src/transcript/session_ledger.rs:115-124 | so with moving lines stamped and stamps in order the two always agree |
| `SessionLedger.UnitAtIsCurrent` | rekall-infra/src/transcript/session_ledger.rs:115-124 | once every move is stamped and past, `unit_at` is `current` |
| `SessionLedger.DisorderedStampsDisagree` | rekall-infra/src/transcript/session_ledger.rs:122-124 | without ordered stamps the two can differ |
| `SessionLedger.Ledger.ReadLine` | rekall-infra/src/transcript/session_ledger.rs:31-52 | an assistant line is charged to the unit before it; a step taken up is where the session then is, a step claimed or reopened leaves it on the task, asking for another task moves it there, a prompt likewise, and anything else and every sidechain line leaves it; every accounting invariant is kept |
| `SessionLedger.LastMovingCallDecides` | rekall-infra/src/transcript/session_ledger.rs:94-105 | after a line the session is where its last moving call leads |
| `SessionLedger.Ledger.ReadSubagentLine` | rekall-infra/src/transcript/session_ledger.rs:55-61 | charged to the unit the session was on at the line's time, or to none without a time |
| `SessionLedger.Ledger.ChargeTo` | rekall-infra/src/transcript/session_ledger.rs:79-91 | every message is accounted once |
| `SessionLedger.Ledger.FollowCalls` | rekall-infra/src/transcript/session_ledger.rs:44-48 | each call moves on from where the one before left the session |
| `SessionLedger.EnteringKeepsAccounts` | rekall-infra/src/transcript/session_ledger.rs:79-91 | reading one more line keeps each message's unit and time from its first line and its tokens the component-wise maximum of its lines |
| `SessionLedger.AccountIsDetermined` | rekall-infra/src/transcript/session_ledger.rs:79-91 | the lines allow one charge per message only |
| `SessionLedger.Largest` | rekall-infra/src/transcript/session_ledger.rs:128-135 | the least count above both, in every component |
| `SessionLedger.Spent` | rekall-infra/src/transcript/session_ledger.rs:64-77 | one entry per unit and day, each with all that was charged to it, none missing or invented, the total conserved, in order of task, step and day |
| `SessionLedger.TotalsAreSums` | rekall-core/src/token/model/token_count.rs:19-26 | totals are arithmetic sums, kind of token by kind |
| `SessionLedger.Sort` | rekall-infra/src/transcript/session_ledger.rs:75-75 | sorted, with entries and totals still in balance |
| `SessionLedger.Add` | rekall-infra/src/transcript/session_ledger.rs:67-74 | one more charge keeps entries and totals in balance |
| `SessionLedger.SpentIsDetermined` | rekall-infra/src/transcript/session_ledger.rs:64-77 | whatever order the map gives its messages in, the same entries come out |
| `SessionLedger.StartOfDay` | rekall-kernel/src/instant.rs:76-78 | midnight of the day the instant falls on |
| `MemoryClusters.Clusters.constructor` | rekall-infra/src/resources/memory_analyzer.rs:173-175 | everyone represents itself |
| `MemoryClusters.Clusters.Root` | rekall-infra/src/resources/memory_analyzer.rs:177-183 | terminates, returns the representative and changes nobody's |
| `MemoryClusters.Clusters.Join` | rekall-infra/src/resources/memory_analyzer.rs:185-188 | exactly the two groups become one |
| `MemoryClusters.Clusters.Members` | rekall-infra/src/resources/memory_analyzer.rs:190-197 | every position once, in order, under its representative |
| `MemoryClusters.CompressionKeepsRoots` | rekall-infra/src/resources/memory_analyzer.rs:177-183 | pointing a position at its root changes no root |
| `MemoryClusters.LinkingMergesTwoTrees` | rekall-infra/src/resources/memory_analyzer.rs:185-188 | hanging one root below another moves exactly its tree |
| `MemoryClusters.MergingRepresents` | rekall-infra/src/resources/memory_analyzer.rs:185-188 | representatives stay those of the connected components once a pair is joined |
| `MemoryClusters.SameRepresentativeMeansConnected` | rekall-infra/src/resources/memory_analyzer.rs:168-198 | one representative if and only if a chain of joined pairs connects the two |
| `MemoryClusters.JoinOrderDoesNotMatter` | rekall-infra/src/resources/memory_analyzer.rs:107-115 | the order of the joins does not change who is grouped with whom |
| `MemoryClusters.SayingTheSameIsMutual` | rekall-infra/src/resources/memory_analyzer.rs:122-126 | the relation is symmetric |
| `MemoryClusters.SayTheSameMeans` | rekall-infra/src/resources/memory_analyzer.rs:122-126 | five words shared, 45 in a hundred of the shorter and 15 in a hundred of all |
| `MemoryClusters.RelatedMeansConnected` | rekall-infra/src/resources/memory_analyzer.rs:107-126 | a chain of memories saying the same is a chain of joined pairs, and back |
| `MemoryClusters.Compare` | rekall-infra/src/resources/memory_analyzer.rs:108-115 | exactly the pairs that say the same are joined |
| `MemoryClusters.GroupingIsByTopic` | rekall-infra/src/resources/memory_analyzer.rs:107-126 | groups partition the memories, two sharing one exactly when a chain of saying the same connects them |
| `MemoryClusters.PromotesMeansTwoProjects` | rekall-infra/src/resources/memory_analyzer.rs:128-132 | a group is promoted exactly when some member belongs to another project than a given one |
| `MemoryClusters.Recurring` | rekall-infra/src/resources/memory_analyzer.rs:107-120 | the partition by topic, and exactly the groups that span projects promoted |
| `PtyResize.QuietWindowHasTheRecordedSize` | rekall-infra/src/pty/pty_process.rs:117-138 | in every interleaving with every restore accepted, whenever no kick is between shrink and restore and nobody holds the lock, the window has the recorded size |
| `PtyResize.QuietWindowIsRightExactlyWhen` | rekall-infra/src/pty/pty_process.rs:117-138 | in every interleaving, whatever is refused, a quiet window has the recorded size if and only if it was given a size under the lock since the last effective shrink, or that shrink left it at the recorded size |
| `PtyResize.StepKeepsAccount` | rekall-infra/src/pty/pty_terminal_manager.rs:245-256 | every step of every thread keeps the account of the window's size |
| `PtyResize.RunIsAccounted` | rekall-infra/src/pty/pty_process.rs:117-138 | at every point of every interleaving the last shrink not made good, or else the lock's holder, gives the real size |
| `PtyResize.ARefusedRestoreLeavesTheWindowShort` | rekall-infra/src/pty/terminal.rs:114-123 | a refused restore can leave a quiet window a row short |
| `PtyResize.Clamp` | rekall-infra/src/pty/pty_terminal_manager.rs:247-248 | the nearest value from 1 to 1000 |
| `PtyResize.RecordedSizeWasAsked` | rekall-infra/src/pty/pty_terminal_manager.rs:245-256 | in every interleaving the size on record is, columns and rows, one a pane asked for or the first one, and only an accepted resize changes it |
| `PtyResize.AcceptedResizeIsRecorded` | rekall-infra/src/pty/pty_terminal_manager.rs:245-256 | an accepted resize to a size in range applies and records just that size; asking for the recorded size changes nothing |
| `WorkingDirectory.FoundExactlyWhenThere` | rekall-infra/src/resources/working_directory.rs:57-74 | a folder is found if and only if some path through readable directories flattens to the name, on any graph, cyclic ones included |
| `WorkingDirectory.FoundFlattensToTheName` | rekall-infra/src/resources/working_directory.rs:57-60 | what is found is there and flattens to the asked name |
| `WorkingDirectory.DescendIsSound` | rekall-infra/src/resources/working_directory.rs:62-74 | the search returns a walk whose segments flatten to what was left |
| `WorkingDirectory.DescendIsComplete` | rekall-infra/src/resources/working_directory.rs:62-74 | whenever a walk flattens to what is left, the backtracking search finds one |
| `WorkingDirectory.PathFlattensToJoined` | rekall-infra/src/transcript/transcript_folder.rs:50-52 | a path flattens to its flattened segments joined by `-` |
| `WorkingDirectory.PathsAreWrittenOut` | rekall-infra/src/resources/working_directory.rs:57-60 | a path is its names, each after a slash |
| `GuardHooks.Install` | rekall-infra/src/installer/guard_hook_installer.rs:111-121 | refused exactly when an event has no list to add to; otherwise both hooks put in |
| `GuardHooks.Uninstall` | rekall-infra/src/installer/guard_hook_installer.rs:123-136 | refused exactly when an event to edit is no list; otherwise both hooks taken out |
| `GuardHooks.UninstallingLeavesTheRest` | rekall-infra/src/installer/guard_hook_installer.rs:123-136 | for any settings, installed or not: no other setting changes, an event stays exactly when something remains in it, the others as they were, and `hooks` goes only when nothing of it remains |
| `GuardHooks.UninstallingKeepsForeignHandlers` | rekall-infra/src/installer/guard_hook_installer.rs:160-167 | for any settings, the handlers left in the two events are the foreign ones that were there, in order |
| `GuardHooks.WithoutRekallTrims` | rekall-infra/src/installer/guard_hook_installer.rs:160-167 | groups stay in order with all their other fields and their foreign handlers, but for those left with no handler |
| `GuardHooks.UsableExactlyWhen` | rekall-infra/src/installer/guard_hook_installer.rs:149-158 | what can be installed into and taken out of, by the shape of `hooks` and the two events |
| `GuardHooks.InstalledGroupsAre` | rekall-infra/src/installer/guard_hook_installer.rs:140-146 | the group added to each event, matcher, handler and command written out |
| `GuardHooks.RekallHandlersAre` | rekall-infra/src/installer/guard_hook_installer.rs:192-197 | a handler is Rekall's exactly when its command is anything followed by one of the two endings |
| `GuardHooks.ShellReadsTheProgram` | rekall-infra/src/installer/guard_hook_installer.rs:199-201 | a POSIX shell reads the quoted program back, whatever quotes it has |
| `GuardHooks.InstallingIsRecognised` | rekall-infra/src/installer/guard_hook_installer.rs:96-98 | after installing, both hooks are recognised |
| `GuardHooks.InstallingAgainReplaces` | rekall-infra/src/installer/guard_hook_installer.rs:111-121 | installing over any earlier install equals installing once |
| `GuardHooks.InstallingKeepsForeignHandlers` | rekall-infra/src/installer/guard_hook_installer.rs:160-167 | the foreign groups and handlers stay, in their places and order |
| `GuardHooks.InstallingLeavesTheRest` | rekall-infra/src/installer/guard_hook_installer.rs:149-158 | every other setting and event is as it was |
| `GuardHooks.ForeignHandlersStay` | rekall-infra/src/installer/guard_hook_installer.rs:160-167 | taking Rekall's entries out leaves exactly the foreign handlers, in order |
| `GuardHooks.UninstallingRestores` | rekall-infra/src/installer/guard_hook_installer.rs:123-136 | uninstalling undoes installing if and only if the settings held no Rekall entry and no empty group, event or `hooks` object |
| `GuardHooks.NoRekallHandlerIsLeft` | rekall-infra/src/installer/guard_hook_installer.rs:160-167 | after uninstalling, neither event has a Rekall handler, from whatever program |
| `GuardHooks.UninstalledIsNotRecognised` | rekall-infra/src/installer/guard_hook_installer.rs:96-98 | after uninstalling, neither hook's command is found, whatever the program |
| `GuardHooks.DroppedIsNeverEmpty` | rekall-infra/src/installer/guard_hook_installer.rs:169-177 | no event with an empty list and no empty `hooks` object stays |
| `Slug.AcceptedMatches` | rekall-store/src/slug.rs:17-35 | an accepted value matches the pattern and keeps the letters and digits in order; a present value is refused exactly when it has none |
| `Slug.OfLoweredIsJoined` | rekall-store/src/slug.rs:25-28 | the chain of rewrites is the words of the text in order, joined by the separator that stood alone between two of them, else by a `-` |
| `Slug.AcceptedCharacters` | rekall-store/src/slug.rs:12-12 | only a-z, 0-9 and single separators, none first or last |
| `Slug.TrimIsTheMiddle` | rekall-kernel/src/jstr.rs:46-48 | exactly the characters up to a space go, at both ends |
| `Slug.MatchingIsUnchanged` | rekall-store/src/slug.rs:17-35 | every matching value comes back unchanged |
| `Slug.OfIsIdempotent` | rekall-store/src/slug.rs:17-35 | making a slug of a slug changes nothing |
| `Slug.MatchesIsLabel` | rekall-store/src/slug.rs:37-40 | a match has letters at both ends and no two separators side by side |
| `Slug.LabelMatches` | rekall-store/src/slug.rs:37-40 | and every such text matches |
| `JavaString.ByteOffset` | rekall-kernel/src/jstr.rs:57-67 | the loop stops at the bytes of the one boundary at or just before the index |
| `JavaString.CutIsUnique` | rekall-kernel/src/jstr.rs:57-67 | there is only one such boundary |
| `JavaString.CutInvertsLen` | rekall-kernel/src/jstr.rs:51-67 | on character boundaries the offset inverts the length |
| `JavaString.LenCounts` | rekall-kernel/src/jstr.rs:51-53 | one unit per character and one more for each outside the basic plane |
| `JavaString.BackwardsIsEmpty` | rekall-kernel/src/jstr.rs:70-74 | nothing lies between two indices the wrong way round |
| `JavaString.PrefixAndSuffixRebuild` | rekall-kernel/src/jstr.rs:77-84 | prefix and suffix at any index rebuild the text |
| `JavaString.PrefixIsNearlyAsLong` | rekall-kernel/src/jstr.rs:77-79 | a prefix is at most as long as asked, and at most one unit shorter within the text |
| `JavaString.SubstringIsSuffixOfPrefix` | rekall-kernel/src/jstr.rs:70-84 | a substring is the suffix at its start of the prefix at its end |
| `JavaString.IndexOfIsTheFirst` | rekall-kernel/src/jstr.rs:87-89 | the index is that of the first occurrence, and none means there is none |

## Left out

- How the console orders items: `order` may be any order at any time, so `move_to` and renumbering are in it, but that an item put back goes to the head is not.
- Start and hold times and the clock: whether a scheduled or holding queue is due is open, so a tick may go either way. The verdict a `Pause` carries is not kept, only that the queue holds.
- RunQueueWorker.Worker.StopBlocked: the reasons written on waiting items are texts and are not modelled; the items keep waiting.
- RunQueueWorker.Worker.NotePermissionWait: the detail written on the item is a text and is not modelled; the item stays running.
- Releasing a task's running steps when a session ends: it changes nothing the worker decides on.
- Serialising events: an event's weight is given.
- Parsing of transcript lines.
- SessionLedger.Spent: entries that tie on task, step and day, which the sort key allows across projects, may come in either order.
- MemoryClusters.Recurring: the target, topic, reason and order of candidates are not modelled; shares are reals.
- UsageCeiling.Check: percentages are reals, without rounding of floating-point numbers, and reasons are the values in them.
- PtyResize is on values, one move per step, because the threads share the window: the lock is who holds it. Signals to the process are not modelled.
- WorkingDirectory: the order and readability of directories are given with the disk; recovering a path from session files is not modelled.
- GuardHooks: the order of an object's fields, and reading and writing the file and its backup.
- Slug: lower-casing outside ASCII is a parameter that leaves plain characters alone.
- The rest of `jstr.rs`: white space, case, lines and `last_index_of_from`.
- Processes, sockets, git, HTTP, the store, routers, MCP and the user interface.
