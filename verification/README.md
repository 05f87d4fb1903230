# The session runtime of the RCFlow worker

A model, in Dafny, of the stateful protocols that run one coding session in the worker,
and proofs of what they keep over every run. Everything is about the code as it stands:
where a property its documentation promises does not hold, the model shows a run in which
it fails and proves exactly when it holds.

`dafny verify dfyconfig.toml` checks the whole project.

## What is modelled

| files | subject |
|---|---|
| `Buffer.dfy` | the bounded history, its sequence counter and its live subscribers |
| `Persistence.dfy`, `ArchiveWindow.dfy`, `Durability.dfy`, `FlushWindow.dfy`, `SessionStore.dfy` | copying the history into the message table, and rebuilding it after a crash, an archive or a shutdown |
| `SessionState.dfy`, `PendingStore.dfy`, `PendingQueue.dfy` | the queued-message store with each operation atomic: table, mirror, directories, drain loop |
| `PendingProtocol.dfy`, `PendingOwnership.dfy`, `PendingConservation.dfy`, `PendingSafety.dfy`, `PendingClear.dfy`, `PendingRaces.dfy`, `PendingBlocked.dfy`, `PendingOrder.dfy`, `PendingDelivery.dfy` | the same store with its awaits exposed: table, disk and mirror steps of any number of tasks interleaved, with failing tasks and crashes; and the order of its positions and pops |
| `CacheMarkers.dfy`, `AgenticLoop.dfy`, `ToolCalls.dfy` | the model loop: message pairing, cache markers, reassembly of streamed tool calls |
| `WakeTimers.dfy`, `WakeStore.dfy`, `WakeRaces.dfy` | wake timers, their table and mirror, and a wake firing while it is cancelled |
| `SessionStatus.dfy` | the status machine |
| `Paths.dfy`, `Permissions.dfy`, `PermissionRequests.dfy`, `Worktrees.dfy` | path containment, cached permissions, permission requests and their waiters, worktree resolution |
| `Monitors.dfy`, `DiffSnapshots.dfy` | monitor traces, and the queue of before-images used for diffs |

Code that updates objects is modelled as classes whose methods are proved equal to a step
on a value; the step is then what the theorems about runs are proved of. Tasks, timers and
callbacks are states and steps that may be taken in any order; nothing is assumed about
fairness. A database transaction is one step that commits or does not.

## Where the code and its promises part

- `flush_dirty_sessions` reads the watermark after its commit. A storable message pushed
  during the commit is never stored by any later flush
  (`FlushWindow.FlushCompleteIffNothingPushedLate`, `FlushWindow.SkippedForever`).
- Between two flushes, messages pushed beyond the 2000 kept are lost to the table, and
  only those (`Durability.TableIsWhatWasFlushed`).
- An archive runs as a task of its own (`src/core/background_tasks.py:161-170`) and can fall
  inside a flush. The flush goes on with the dropped session and then fails on the
  uniqueness constraint exactly if the archive stored a sequence of its batch, leaving the
  archived rows alone (`ArchiveWindow.HeldCommitFailsIff`). If the session is restored
  meanwhile, that flush can store a late message under a number the restored session uses
  again, whose own flush then fails (`ArchiveWindow.RestoredFlushFails`, exactly when:
  `ArchiveWindow.RegisteredFlushFailsIff`).
- `docs/design/sessions.md` says that queue mutations are serialised by the prompt lock;
  the store takes no lock. A clear overlapping an enqueue can delete a live row's
  directory (`PendingRaces.ClearRacesEnqueue`, exactly when: `PendingClear.DirectoriesKeptIff`),
  or leave a mirror entry without a row (`PendingBlocked.RowlessEntryIff`), behind which the
  queue stays blocked until a clear, a restart, or an entry filed in front of it
  (`PendingBlocked.DrainNeedsHeadRow`). First in, first out can fail: a deletion
  overlapping an enqueue can reverse two messages in the mirror
  (`PendingOrder.OvertakenByStalePosition`, exactly when: `PendingOrder.OrderKeptIff`), and
  of two overlapping enqueues the newer can be filed and popped before the older is filed
  (`PendingDelivery.OvertakenBeforeFiling`). `PendingDelivery.PoppedInOrderIff` says exactly
  when messages are popped in order. No interleaving delivers a message twice.
- `rehydrate_attachments` asks to be called before `pop_head`; the drain loop calls it
  after, so no drained message has its attachments (`PendingSafety.DrainedAttachmentsAreLost`).
- Cancelling all wakes of a session announces each cancellation before any timer is
  stopped, so a wake can be announced cancelled and delivered (`WakeRaces.CancelAllRacesExpiry`).
- `resume()` keeps the status saved by an abandoned input wait, which can later undo a
  manual pause (`SessionStatus.ManualPauseUndone`, exactly when:
  `SessionStatus.EndInputWaitLiftsPauseIff`).
- A session restored in memory keeps its closed buffer (`SessionStatus.RestoredInMemoryIsDeaf`).
  This is about `ActiveSession.restore()`, which the worker itself does not call, only a
  test does; `SessionManager.restore_session` builds a new object.
- Denying everything after everything was allowed has no effect (`Permissions.LastBlanketWinsIff`).
- A permission answer that arrives as its request times out is accepted and its rule kept,
  while the waiter is told to deny (`PermissionRequests.WaiterIsTold`,
  `PermissionRequests.AllowedButDenied`). `src/core/session_lifecycle.py:382` calls a request
  answered once already resolved; it takes further answers until its waiter wakes.
- The queue of before-images assumes that results come in the order of their uses and that
  every result belongs to a queued one; neither is enforced (`DiffSnapshots.ResultsMatchIff`,
  `DiffSnapshots.TodoTakesTheSnapshot`, `DiffSnapshots.SwappedResultsSwapImages`).

Three results are about uses the worker does not make, and say what its order of steps is
worth: `FlushWindow.FlushAfterSaveAll` (the flush loop is awaited before the sessions are
saved, `src/main.py:460-471`), `PendingRaces.SweepSafeIff` (the sweep runs at startup only,
`src/main.py:162-164`), and `WakeTimers.IdentityCheckNeededIff` (the cleanup always has the
identity check).

## Model

| member | source | states |
|---|---|---|
| Buffer.RunValid | src/core/buffer.py:71-143 | over every run the history has strictly increasing sequences up to the counter and at most 2000 entries; different live ids use different queues; a closed buffer has none |
| Buffer.HistoryIsLastTexts | src/core/buffer.py:79-98 | the history after any run is the last 2000 of the earlier history followed by every text push of the run, numbered by the count of pushes of both kinds |
| Buffer.QueueReceivesStream | src/core/buffer.py:89-143 | a live subscriber's queue grows by exactly the stream the reference semantics gives its id: later pushes of both kinds, up to its end or replacement |
| Buffer.StreamShape | src/core/buffer.py:89-143 | that stream has strictly increasing sequences above the counter and at most one end marker, as its last item, present exactly if the run ends the subscription |
| Buffer.DetachedQueueFrozen | src/core/buffer.py:132-143 | a queue no live id refers to never changes again |
| Buffer.ClosedIff | src/core/buffer.py:138-143 | after any run a buffer is closed exactly if it was or the run has a close: no unsubscribe ever closes it |
| Buffer.CounterCountsPushes | src/core/buffer.py:89-114 | after any run the counter has grown by the number of pushes of both kinds |
| Buffer.SubscriberSees | src/core/buffer.py:116-143 | for every run before and after: a new subscriber's queue is the last 2000 texts pushed before, then its stream, numbered on from the pushes before; strictly increasing, one end marker exactly on close or unsubscribe, or if a close came before |
| Buffer.SessionBuffer.PushText | src/core/buffer.py:89-103 | next sequence, history with eviction, and delivery to every live queue, in place |
| Buffer.SessionBuffer.PushEphemeral | src/core/buffer.py:105-114 | consumes a sequence and reaches live queues only |
| Buffer.SessionBuffer.SubscribeText | src/core/buffer.py:116-130 | a fresh queue holding the history, live unless the buffer is closed, in which case ended |
| Buffer.SessionBuffer.UnsubscribeText | src/core/buffer.py:132-136 | ends exactly the queue of that id, if there is one |
| Buffer.SessionBuffer.Close | src/core/buffer.py:138-143 | ends every live queue and forgets them all |
| Buffer.SessionBuffer.AppendRestored | src/core/session.py:1181-1182 | a row read back joins the bounded history and raises the counter to its sequence |
| Persistence.RowRoundTrip | src/core/session.py:1086-1097 | a stored message is read back unchanged, whatever its data says about `content` |
| Persistence.ContentColumnRestores | src/core/session.py:1447-1451 | without its content field in the metadata a row still reads back as its message, exactly if that field was absent or has a truth value |
| Persistence.OrderedSelect | src/core/session.py:1168-1174 | reading an ordered table in sequence order is the table |
| Persistence.NoConflict | src/core/session.py:1533-1552 | a flush's batch never repeats a stored sequence and extends the table in order |
| Persistence.RunInv | src/core/session.py:1508-1560 | the invariant of every run of pushes, flush steps, failures, crashes and reloads, with pushes and crashes between a flush's own steps, and archives and shutdowns between flushes |
| Persistence.StoredSequencesUnique | src/core/session.py:1508-1560 | over every such run: stored sequences strictly increase, are at most the watermark (the counter while a flush is under way), which is at most the counter; no flush can violate uniqueness |
| Persistence.ReloadedInv | src/core/session.py:1426-1483 | reloading any ordered table gives the last 2000 messages and a counter at the largest stored sequence |
| Persistence.FlushOnceForm | src/core/session.py:1522-1560 | one undisturbed flush appends exactly the unsaved storable messages and advances the watermark, or changes nothing |
| Persistence.FlushStartsIff | src/core/session.py:1521-1524 | at every point of every run a flush starts exactly if none is under way and something was pushed past the watermark, or the session was marked dirty since its last completed flush |
| Persistence.FailedFlushIsRetried | src/core/session.py:1556-1560 | after a flush that failed before its commit the next one does what it would have done |
| ArchiveWindow.NeverStoredTwice | src/core/session.py:1051-1112 | every run with archives at any point of a flush, restores, late pushes onto the dropped session, crashes and failures: no two rows share a sequence, and the table reads back in increasing order whatever order it was stored in |
| ArchiveWindow.HeldFlushGoesOn | src/core/session.py:1519-1559 | a flush under way on a dropped session goes on with that object through any pushes, archives, restores, flush and shutdown attempts of the registered one; a crash ends it |
| ArchiveWindow.HeldCommitFailsIff | src/core/session.py:1519-1559 | in every such run the commit of a flush whose session was archived under it fails exactly if the archive stored a sequence of its batch; the archived rows then stay as they are, otherwise the batch is added to them |
| ArchiveWindow.RegisteredFlushFailsIff | src/core/session.py:1533-1559 | in every such run the commit of the registered session's flush fails exactly if a row stored for a dropped object since it was reloaded has the sequence of a message of its batch; it then changes no row, otherwise it adds its batch |
| ArchiveWindow.LevelKeptIff | src/core/session.py:1519-1553 | in every such run the stored sequences stay within the registered session's watermark at every point exactly if no dropped object's flush commits above the watermark of a session restored meanwhile |
| ArchiveWindow.RestoredFlushFails | src/core/session.py:1184-1196 | a run in which the restored session's flush fails |
| Durability.RunMatches | src/core/session.py:1522-1554 | after any run of pushes, flushes and restarts the table holds what the reference semantics of windows says was stored |
| Durability.StoredVersusFlushed | src/core/session.py:1522-1554 | what is stored is everything pushed before some flush exactly if no flush came after 2000 newer messages had evicted a storable one |
| Durability.TableIsWhatWasFlushed | src/core/session.py:1508-1560 | for every run: the table is that reference; it is all non-TURN_COMPLETE messages, once each, in order, exactly if no flush came too late; a crash and reload yields the last 2000 of the table |
| Durability.RestartHistory | src/core/session.py:1426-1483 | crash and reload give the last 2000 stored messages |
| FlushWindow.WindowedFlushInv | src/core/session.py:1522-1554 | a flush with pushes between its steps keeps the persistence invariant |
| FlushWindow.FlushCompleteIffNothingPushedLate | src/core/session.py:1536-1554 | a flush with pushes during its awaits leaves every retained storable message stored exactly if no storable message still retained was pushed after the snapshot |
| FlushWindow.SkippedForever | src/core/session.py:1536-1553 | a sequence skipped by a flush is never stored by any later run short of a crash, archive or shutdown |
| FlushWindow.ArchiveThenRestore | src/core/session.py:1082-1190 | archive or shutdown then restore: the history comes back without TURN_COMPLETE messages, identical exactly if there are none; the counter does not pass the old one and every row is at most it |
| FlushWindow.FlushAfterSaveAll | src/core/session.py:1562-1632 | if a flush came after saving all, it would succeed exactly if nothing storable was unsaved; otherwise the transaction fails and nothing changes |
| SessionStore.ManagedSession.FreshRows | src/core/session.py:1535-1551 | the loop collects exactly the storable messages above the watermark |
| SessionStore.ManagedSession.FlushDirty | src/core/session.py:1522-1560 | equals the atomic flush step; a failed commit changes nothing |
| SessionStore.ManagedSession.StorableRows | src/core/session.py:1086-1097 | the loop collects all retained storable messages |
| SessionStore.ManagedSession.ArchiveSession | src/core/session.py:1051-1112 | deletes the rows, writes the retained ones and drops the session from memory; a failed commit changes nothing, a cancelled one drops the session whether or not it was committed |
| SessionStore.ManagedSession.SaveAll | src/core/session.py:1581-1632 | rewrites the rows, or leaves them when the transaction fails; the session stays in memory with its old watermark |
| SessionStore.ManagedSession.Rebuild | src/core/session.py:1168-1183 | reading rows in order rebuilds the last 2000 messages and the largest sequence |
| SessionStore.ManagedSession.RestoreSession | src/core/session.py:1114-1196 | equals the reload step; refused exactly when in memory, without a row, or in a status that cannot be restored, in this order |
| SessionState.InsertKeepsOrder | src/core/session_state.py:166-172 | insertion keeps a sorted list sorted and puts the new element after its equals |
| SessionState.InsertKeepsElements | src/core/session_state.py:166-172 | insertion keeps every element |
| SessionState.SessionPendingState.Add | src/core/session_state.py:166-172 | the index loop is insertion by position |
| SessionState.SessionPendingState.Update | src/core/session_state.py:174-182 | edits the first entry of that id and no other |
| SessionState.SessionPendingState.Remove | src/core/session_state.py:184-192 | removes the first entry of that id and renumbers densely from 0; without one, changes nothing |
| SessionState.SessionPendingState.Clear | src/core/session_state.py:194-198 | empties the list and returns it |
| SessionState.SessionWakeMirror.Add | src/core/session_state.py:221-227 | the index loop is insertion by fire time |
| SessionState.SessionWakeMirror.Remove | src/core/session_state.py:229-234 | removes the first entry of that id |
| PendingStore.SortMember | src/core/pending_store.py:226-232 | reading the rows by position is a sorted permutation of them |
| PendingStore.NextPositionMeans | src/core/pending_store.py:322-330 | in any table the next position is past every row's and one past some row's, or 0 |
| PendingStore.EnqueueKeeps | src/core/pending_store.py:83-149 | enqueue keeps the invariant below |
| PendingStore.DeleteKeeps | src/core/pending_store.py:285-320 | so does delete, of the head for a pop and of any entry for a cancel |
| PendingStore.EditKeeps | src/core/pending_store.py:151-186 | so does edit, which touches no id or position |
| PendingStore.ClearKeeps | src/core/pending_store.py:199-217 | so does clear, which removes every directory |
| PendingStore.RestartIsIdentity | src/core/pending_store.py:219-280 | a restart, sweep and reload rebuild exactly the state before |
| PendingStore.QueueGuarantees | src/core/pending_store.py:83-330 | atomic operations, every run: positions are 0..n-1, the mirror is the table by position, directories are those of rows with attachments; deliveries then the queue are a subsequence of enqueue order; enqueued = delivered + cancelled + cleared + queued |
| PendingStore.WaitingSaysWhatWasWritten | src/core/pending_store.py:83-197 | after any run every waiting message has the project, worktree, task, attachments and submission time of the request that queued it, and the texts and time of the last edit since; what a pop returns is the first of them |
| PendingStore.EditsAreAnnounced | src/core/pending_store.py:151-186 | over any run the update events name exactly the edits of messages then waiting, in order |
| PendingStore.CancelTakesOut | src/core/pending_store.py:188-190 | a cancel takes the waiting message out, leaves the others in order and emits its event; of a message not waiting, it does nothing |
| PendingStore.RestartRebuilds | src/core/pending_store.py:219-280 | whatever mirror and directories were left over, after a restart the mirror is the rows in order of position and the directories are those of rows |
| PendingQueue.SessionPendingMessageStore.TopPosition | src/core/pending_store.py:322-330 | one more than the largest position, or 0 |
| PendingQueue.SessionPendingMessageStore.Enqueue | src/core/pending_store.py:83-149 | spill, row, mirror and event equal the enqueue step |
| PendingQueue.SessionPendingMessageStore.Edit | src/core/pending_store.py:151-186 | equals the edit step; returns the mirrored entry with the new texts, or nothing exactly if row or entry is missing |
| PendingQueue.SessionPendingMessageStore.RenumberRows | src/core/pending_store.py:301-309 | the loop renumbers densely |
| PendingQueue.SessionPendingMessageStore.DeleteOne | src/core/pending_store.py:285-320 | equals the delete step; nothing changes without a row |
| PendingQueue.SessionPendingMessageStore.Cancel | src/core/pending_store.py:188-190 | deletes for the user |
| PendingQueue.SessionPendingMessageStore.PopHead | src/core/pending_store.py:192-197 | deletes the mirror's head for delivery |
| PendingQueue.SessionPendingMessageStore.ClearSession | src/core/pending_store.py:199-217 | equals the clear step, one event per dropped entry |
| PendingQueue.SessionPendingMessageStore.SweepOrphans | src/core/pending_store.py:251-280 | the loop leaves exactly the rows' directories and counts the rest |
| PendingQueue.SessionPendingMessageStore.LoadForSession | src/core/pending_store.py:219-249 | the mirror becomes the table by position |
| PendingQueue.SessionPendingMessageStore.DrainOne | src/core/prompt_router.py:1229-1282 | hands over exactly a prefix of the queue, in order, each message popped once; stops when empty, busy or on the first failure, and not otherwise |
| PendingOwnership.RunRowsOwned | src/core/pending_store.py:83-320 | interleaved steps: each id is in the table, held by one task or gone, never two of these |
| PendingOwnership.NothingLeavesTwice | src/core/prompt_router.py:1229-1282 | under every interleaving of enqueues, cancels, clears, drains (guarded or not), tasks failing at any step, crashes and reloads, no message is handed over twice, nor both handed over and returned by cancel; that it is handed over is in the rows below |
| PendingConservation.EveryMessageIsSomewhere | src/core/pending_store.py:83-320 | conservation in every such run: each id issued is in the table, held by a running task, handed over or returned, or lost, and in no two of these; lost only to a failing task, a crash, the row deletion of a clear, or a deletion that found no mirrored entry |
| PendingConservation.PoppedIsHandedOver | src/core/prompt_router.py:1239-1282 | whatever other tasks do in between, a drain that deleted a message's row and finds its entry hands the message over, and goes on or, if that raised, ends |
| PendingConservation.CancelledIsReturned | src/core/pending_store.py:188-190 | likewise a cancel returns the message |
| PendingConservation.EnqueuedIsHandedOver | src/core/prompt_router.py:1208-1282 | a run from the start, with or without attachments and with or without a crash after the insertion, that ends with the message handed over |
| PendingConservation.EnqueuedIsReturned | src/core/pending_store.py:188-190 | and such a run that ends with the message given back by a cancel |
| PendingSafety.AtMostOneDrain | src/core/prompt_router.py:1208-1227 | with drains started by the guard only, at most one drain task exists in any reachable state, failing drains and done-callbacks included |
| PendingSafety.NextDrainStarts | src/core/prompt_router.py:1208-1244 | and the guard gets out of the way: in such a run, with no drain running, one done-callback is due if the guard is held, and after it a drain starts as soon as something is queued; it picks the head, or stops if the session is busy |
| PendingSafety.DrainStartsAfterCrash | src/core/prompt_router.py:1208-1242 | after a crash and a reload a drain starts at once and picks the head, whatever was under way before |
| PendingSafety.DrainedAttachmentsAreLost | src/core/prompt_router.py:1242-1249 | in every run, no message is handed over with attachments: its directory is gone when they are read; messages with attachments are handed over (`PendingConservation.EnqueuedIsHandedOver`) |
| PendingClear.ClearedGoneIff | src/core/pending_store.py:199-217 | every interleaving, crashes and reloads included: at every point each cleared message was dropped once, was neither handed over nor returned, and has no row left, exactly if no clear empties the mirror over a message with a row |
| PendingClear.DirectoriesKeptIff | src/core/pending_store.py:98-314 | every interleaving: at every point each live row with attachments has its directory and no clear is about to remove it, exactly if no clear empties the mirror over a live row with attachments |
| PendingClear.DirectoriesAreRight | src/core/pending_store.py:98-314 | in such a run a live row has its directory exactly if it has attachments, and a crash and sweep leave exactly those; a row without attachments has none in any run |
| PendingClear.GuardedRunsAreSafe | src/core/pending_store.py:199-212 | inserting no row between the halves of a clear is enough for both conditions |
| PendingRaces.FinishClearSafeIff | src/core/pending_store.py:204-212 | finishing a clear keeps every row's directory exactly if no mirrored message has a live row with attachments |
| PendingRaces.ClearRacesEnqueue | src/core/pending_store.py:199-217 | a run in which a clear deletes the directory of a live row |
| PendingRaces.SweepSafeIff | src/core/pending_store.py:251-280 | a sweep at any time would keep crash consistency exactly if no enqueue has written a directory without its row |
| PendingBlocked.RowlessEntryIff | src/core/pending_store.py:101-137 | every interleaving: at every point each mirrored message has its row or is about to leave the mirror, exactly if no enqueue files an entry whose row was deleted since it was inserted, by a task done with the mirror, and no deletion or clear fails between row and mirror with nobody else to remove the entry |
| PendingBlocked.DrainNeedsHeadRow | src/core/pending_store.py:192-197 | from every reachable state with such an entry at the head, in every continuation without a clear, a restart or an entry filed in front: the head stays, and no message is handed over, queued now or later, but those a drain had already got hold of |
| PendingBlocked.ClearedEnqueueBlocksQueue | src/core/prompt_router.py:1239-1244 | a run that leaves such a head in front of a message, which no such continuation hands over |
| PendingOrder.AddKeepsOrderIff | src/core/session_state.py:166-172 | filing an entry keeps enqueue order exactly if its position separates older from newer mirrored messages |
| PendingOrder.OrderKeptIff | src/core/pending_store.py:104-320 | every run of enqueues, deletions, clears and restarts, however they overlap: the mirror is sorted by position, and lists its messages in order of insertion at every point exactly if every entry filed on the way separated older from newer ones |
| PendingOrder.FiledInReverseIff | src/core/pending_store.py:285-330 | of two enqueues under way in any run, the newer filed first and the older right after it, the older goes in front exactly if fewer rows were deleted between their insertions than were inserted |
| PendingOrder.ApartKeepsOrder | src/core/pending_store.py:104-137 | runs in which enqueues overlap no deletion or clear: the mirror is in order of insertion, and at rest lists the rows at their positions |
| PendingOrder.RestartForgets | src/core/pending_store.py:219-249 | nothing begun before a restart is completed after it |
| PendingOrder.OneEmptyingPerClear | src/core/pending_store.py:199-217 | in every run each clear of the rows empties the mirror at most once |
| PendingOrder.OvertakenByStalePosition | src/core/pending_store.py:285-320 | a run in which a deletion during an enqueue lets a newer message overtake it |
| PendingDelivery.PoppedInOrderIff | src/core/prompt_router.py:1239-1242 | every run with a drain loop that may fail: messages are popped in order of row insertion exactly if every entry filed separates older from newer ones, as far as they are popped, and whenever the head read is the next popped, every older message popped later is mirrored by then |
| PendingDelivery.SeparatingRunsPopInOrder | src/core/prompt_router.py:1239-1242 | enough, without looking ahead: every entry filed separates, and every older row is mirrored whenever the head is read |
| PendingDelivery.OvertakenBeforeFiling | src/core/pending_store.py:104-137 | a run in which every entry filed separates and the newer of two messages is popped first |
| PendingDelivery.PickIsPopped | src/core/prompt_router.py:1239-1242 | the head the loop read is what the next pop deletes, whatever the store does in between short of a restart, or nothing if its row has gone |
| PendingDelivery.NothingPoppedUnpicked | src/core/prompt_router.py:1239-1244 | after a pop, a failure or a restart nothing is popped until the head is read again |
| PendingDelivery.ClearedIsNotPopped | src/core/pending_store.py:199-206 | after the rows are cleared, no message inserted before is popped in any continuation |
| CacheMarkers.FinalizeIsTrimmed | src/core/llm.py:151-191 | dropping all but the last four marker positions keeps exactly the markers that fewer than four markers follow |
| CacheMarkers.FinalizeGuarantees | src/core/llm.py:132-191 | nothing but markers changes; none remain in the OpenAI format, the last min(n, 4) otherwise; doing it twice changes nothing more |
| CacheMarkers.FinalizeKeepsContent | src/core/llm.py:132-191 | every message keeps its role, tool calls, call id and kind of content, every block its payload or value, and its marker is the old one or none |
| CacheMarkers.FinalizeKeepsLastMarkers | src/core/llm.py:151-191 | position by position: no block carries a marker in the OpenAI format; otherwise exactly those at the last four marker positions, or all when there are fewer |
| CacheMarkers.PositionsAreMarkers | src/core/llm.py:168-174 | the positions collected are those of the blocks carrying a marker |
| AgenticLoop.Conversation.ReadStream | src/core/llm.py:617-630 | accumulates the concatenated text and the calls in order, passing every event on |
| AgenticLoop.Conversation.ExecuteTools | src/core/llm.py:641-655 | all results appended in order, or, if a call raises, the assistant message removed again |
| AgenticLoop.Conversation.RunTurn | src/core/llm.py:617-659 | one turn adds its whole exchange or nothing, and ends the loop exactly in the stated cases |
| AgenticLoop.Conversation.RunAgenticLoop | src/core/llm.py:602-667 | for every behaviour of model, tools and callback: 1 to 50 turns, all but the last continuing; the history grows by their exchanges; the limit notice exactly at the limit; pairing is kept at every exit |
| AgenticLoop.EndingMeans | src/core/llm.py:617-659 | the loop goes on after a turn exactly if the stream ended well with a tool call, every tool called returned and the callback, if any, says to continue; otherwise the first that fails names the exit, read off the events and answers |
| AgenticLoop.ExchangeRoles | src/core/llm.py:543-596 | a turn adds one assistant message, then tool messages, or in the other format at most one user message |
| AgenticLoop.ExchangeIsNotEmpty | src/core/llm.py:543-574 | no message of a turn is empty and no text block or assistant text is the empty string; content is missing only beside tool calls in the OpenAI format |
| AgenticLoop.ExchangePaired | src/core/llm.py:543-596 | a turn's exchange is paired in both wire formats |
| AgenticLoop.PairedMeans | src/core/llm.py:641-655 | the chunk grammar of pairing holds exactly if every message with calls is followed at once by exactly its results and every result belongs to such a message |
| AgenticLoop.HistoryStaysPaired | src/core/llm.py:641-655 | a paired history stays paired after any number of turns |
| AgenticLoop.RequestsArePaired | src/core/llm.py:151-191 | what each turn sends, markers trimmed, is paired too |
| AgenticLoop.HistoryRecordsTheStream | src/core/llm.py:617-655 | the text and calls in the history are those streamed, in order, except that an exit by a failing stream or tool discards its own turn |
| AgenticLoop.EachResultReachesItsCall | src/core/llm.py:576-596 | the history holds, under each call's id and in order, what the tool of that call returned, for every completed turn in either format |
| ToolCalls.AddFragment | src/core/llm.py:485-497 | merging one delta keeps the dictionary equal to the assembly of each index's projection, keys by first appearance; what is assembled is in `OpenAIRoundTrip` |
| ToolCalls.EmitCalls | src/core/llm.py:500-514 | emits one call per index, unparsable or missing arguments as the empty object |
| ToolCalls.StreamTurnOpenAI | src/core/llm.py:453-541 | the streaming loop yields exactly text, the calls of each batch at its finishing chunk, and one closing event; `OpenAIRoundTrip` says which calls these are |
| ToolCalls.InterleavingIndependent | src/core/llm.py:485-514 | any two interleavings of the same per-index fragments give the same calls, and in the same order if the indices first appear in the same order |
| ToolCalls.StreamCarriesBatches | src/core/llm.py:453-514 | the batches and the pending rest are all fragments in order; the calls are the batches' calls and the text is intact, so exactly the fragments after the last finish reason are lost |
| ToolCalls.LastFinishReason | src/core/llm.py:500-518 | the stop reason of the closing event is the last finish reason of the stream, if there is one |
| ToolCalls.StreamTurnAnthropic | src/core/llm.py:360-396 | the streaming loop equals the block automaton, with one closing event |
| ToolCalls.AnthropicRoundTrip | src/core/llm.py:364-396 | content blocks survive the stream however text and arguments are cut; a tool block without id or name yields nothing |
| ToolCalls.OpenAIRoundTrip | src/core/llm.py:453-514 | tool calls whose id and name come in the first delta of their index and whose arguments are cut and interleaved in any way, closed by a finish reason, are yielded with that id and name and the joined pieces parsed; the text is intact |
| ToolCalls.ProvidersAgree | src/core/llm.py:339-541 | the same tool calls, cut into deltas of either format and interleaved in any way, reach the loop as the same requests |
| WakeTimers.RunKeepsInv | src/core/wakeup_scheduler.py:47-107 | in every reachable state each unfinished timer without a cancel request is the registered one of its wake |
| WakeTimers.TimersAreRegistered | src/core/wakeup_scheduler.py:47-76 | hence at most one live timer per wake, cancel reaches it, a timer can fire exactly if registered and not yet fired, and none fires twice |
| WakeTimers.TimersWindDown | src/core/wakeup_scheduler.py:47-107 | in every run the event loop takes at most three steps for each timer armed; when it can take none, every timer is done and the registry is empty |
| WakeTimers.SilencedNeverFires | src/core/wakeup_scheduler.py:54-76 | after a cancel or re-arm no earlier timer of the wake that has not fired ever fires |
| WakeTimers.SchedulerImplementsAlarms | src/core/wakeup_scheduler.py:47-107 | under every interleaving, which timers fire and which alarms are pending equal a table with one alarm per wake: late cancellations, completions and callbacks are invisible |
| WakeTimers.IdentityCheckNeededIff | src/core/wakeup_scheduler.py:62-70 | a cleanup without the identity check would differ exactly when another timer is registered, and break the invariant exactly when that one is unfinished |
| WakeTimers.WakeupScheduler.Arm | src/core/wakeup_scheduler.py:47-70 | equals the arm step |
| WakeTimers.WakeupScheduler.Cancel | src/core/wakeup_scheduler.py:72-76 | equals the cancel step |
| WakeTimers.WakeupScheduler.CancelAllForSession | src/core/wakeup_scheduler.py:78-85 | cancels each named wake and leaves none of them registered |
| WakeTimers.CancelAllIsRun | src/core/wakeup_scheduler.py:78-85 | a bulk cancel is a run of single cancels, so what holds of every run holds of it |
| WakeTimers.WakeupScheduler.ResumeFromSleep | src/core/wakeup_scheduler.py:95-98 | fires exactly if no cancellation was requested |
| WakeTimers.WakeupScheduler.FinishFiring | src/core/wakeup_scheduler.py:99-106 | the timer is done and its callback due |
| WakeTimers.WakeupScheduler.RunCleanup | src/core/wakeup_scheduler.py:66-68 | equals the cleanup step |
| WakeStore.MirrorAndEventsFit | src/core/wakeup_store.py:49-197 | every run: the mirror is the pending rows by fire time; each wake's events are scheduled, then at most one of fired and cancelled, missing exactly while pending and matching a stamp of the row |
| WakeStore.RowsSayWhen | src/core/wakeup_store.py:64-154 | after any run each row holds the wake as it was first scheduled, and the times of the last firing and the last cancellation that named it while it was there |
| WakeStore.RestartLoads | src/core/wakeup_store.py:170-197 | after a restart the mirror is the database's answer, whatever it was before |
| WakeStore.LoadAgainAgreesIff | src/core/wakeup_store.py:170-197 | loading into a mirror that already agrees keeps agreement exactly if nothing is pending; otherwise every pending wake is doubled |
| WakeStore.SessionScheduledWakeStore.Enqueue | src/core/wakeup_store.py:49-97 | equals the enqueue step |
| WakeStore.SessionScheduledWakeStore.MarkFired | src/core/wakeup_store.py:99-122 | stamps the row; mirror and event only if the wake was still mirrored |
| WakeStore.SessionScheduledWakeStore.Cancel | src/core/wakeup_store.py:124-154 | likewise for a cancellation |
| WakeStore.SessionScheduledWakeStore.CancelAllForSession | src/core/wakeup_store.py:156-168 | cancels all pending wakes in mirror order, stamps exactly their rows, and empties the mirror |
| WakeStore.SessionScheduledWakeStore.LoadForSession | src/core/wakeup_store.py:170-197 | adds the database's answer to the mirror one by one |
| WakeRaces.EveryRunHasOneOutcome | src/core/prompt_router.py:1284-1312 | any interleaving of expiry, mark-fired, hand-over and cancel requests: at most one terminal event, exactly when the wake left the mirror; handed over at most once |
| WakeRaces.EveryStepAdvances | src/core/wakeup_scheduler.py:87-107 | each step of the timer or of a cancel request brings it nearer its end, and only a new request sets anything back |
| WakeRaces.OverMeansDecided | src/core/wakeup_store.py:99-168 | once nothing is left to do in any run, timer and requests have ended and the wake, out of the mirror, was announced fired or cancelled, just one of the two; handed over unless announced cancelled |
| WakeRaces.DeliveredAfterCancelIff | src/core/wakeup_store.py:156-168 | a wake announced cancelled can still be delivered exactly if its timer was not told to stop, which happens only inside a request for all wakes |
| WakeRaces.SingleCancelIsExclusive | src/api/routes/sessions.py:907-912 | with requests for single wakes only, fired is announced exactly when delivered, and a wake announced cancelled is never delivered |
| WakeRaces.StoppedOnlyWhenCancelled | src/api/routes/sessions.py:907-912 | with requests for single wakes only, a timer is told to stop only once its wake was announced cancelled |
| WakeRaces.CancelAllRacesExpiry | src/core/session_lifecycle.py:124-138 | a run in which a wake is announced cancelled and delivered |
| SessionStatus.RunKeepsInv | src/core/session.py:543-715 | every run, buffer use included: `ended_at` is set exactly in COMPLETED, FAILED and CANCELLED, where the buffer is closed with no live subscriber; a paused session has a pause time |
| SessionStatus.StepsFollowEdges | src/core/session.py:543-715 | status changes follow the edges of the status graph |
| SessionStatus.EdgesHappen | src/core/session.py:543-715 | and every edge is taken by some operation |
| SessionStatus.TerminalLeftOnlyByRestore | src/core/session.py:699-715 | a run that leaves a terminal status contains a restore |
| SessionStatus.EndedByItsLastEnding | src/core/session.py:575-610 | at every point of every run a session has ended exactly if a step ended it that no restore followed; the last such step names the status (completed, failed, cancelled) and gives the end time |
| SessionStatus.PauseIsTheLastOne | src/core/session.py:588-697 | at every point of every run the pause time is that of the last pause or wait, unless a resume, a wait's end that lifts the pause, a failure, a cancellation or an ending on purpose cleared it since; the pause reason likewise, cleared by the first two only |
| SessionStatus.ActivityIsWhatWasLastSaid | src/core/session.py:575-715 | the activity is what was last set or implied by a wait's begin or end, or idle if the session was ended, paused by hand, resumed, restored or interrupted since |
| SessionStatus.RunningStatusHasACause | src/core/session.py:543-573 | nothing executes, is interrupted or active without an operation that makes it so; activating or executing takes effect exactly where neither paused nor ended |
| SessionStatus.RestoredInMemoryIsDeaf | src/core/session.py:699-715 | after `restore()` on an ended session every new subscriber gets the history and the end marker, and nothing pushed later |
| SessionStatus.InputWaitRestoresIff | src/core/session.py:665-697 | begin, any attempts to activate, execute or complete, end: the prior status is back exactly unless it was a pause with a leftover wait, or a failed or cancelled session that completed; a completion tried meanwhile leaves only its flag |
| SessionStatus.SavedStatus | src/core/session.py:665-697 | in every run a status is saved exactly while a wait that took effect has not been ended, and is the one before it |
| SessionStatus.EndInputWaitLiftsPauseIff | src/core/session.py:665-697 | at every point of every run, ending a wait lifts a pause, whoever made it, exactly if some wait took effect and none was ended since; back to the status before such a wait |
| SessionStatus.ManualPauseUndone | src/core/session.py:652-697 | a run in which the user's pause is undone by it |
| SessionStatus.ShutdownMeans | src/core/session.py:1309-1344 | completing all ends every session and closes its buffer; interrupting all leaves each ended or restorable, those it interrupted flagged and idle, and ends or closes none |
| SessionStatus.PausedSessionIsEnded | src/core/session_lifecycle.py:338-341 | ending a paused session on purpose completes it, with no pause time left |
| SessionStatus.CountsMean | src/core/session.py:1309-1344 | the reported counts are the numbers of sessions not ended, and of those neither ended nor interrupted |
| SessionStatus.ActiveSession.SetStatusActive | src/core/session.py:543-557 | equals its step |
| SessionStatus.ActiveSession.SetStatusExecuting | src/core/session.py:559-573 | equals its step |
| SessionStatus.ActiveSession.CompleteSession | src/core/session.py:575-586 | equals its step; only a flag while paused |
| SessionStatus.ActiveSession.FailSession | src/core/session.py:588-599 | equals its step |
| SessionStatus.ActiveSession.CancelSession | src/core/session.py:601-610 | equals its step |
| SessionStatus.ActiveSession.InterruptSession | src/core/session.py:612-630 | equals its step; neither ends the session nor closes the buffer |
| SessionStatus.ActiveSession.PauseSession | src/core/session.py:632-650 | equals its step; raises exactly in terminal statuses and when paused |
| SessionStatus.ActiveSession.ResumeSession | src/core/session.py:652-663 | equals its step; raises exactly when not paused |
| SessionStatus.ActiveSession.StartInputWait | src/core/session.py:665-684 | equals its step |
| SessionStatus.ActiveSession.FinishInputWait | src/core/session.py:686-697 | equals its step |
| SessionStatus.ActiveSession.RestoreSession | src/core/session.py:699-715 | equals its step; raises exactly when neither terminal nor interrupted |
| SessionStatus.SessionManager.CompleteAllActive | src/core/session.py:1309-1323 | completes exactly the sessions that had not ended, paused ones too, and counts them |
| SessionStatus.SessionManager.InterruptAllActive | src/core/session.py:1325-1344 | interrupts exactly the sessions neither ended nor interrupted, and counts them |
| Paths.NormPathIsFixed | src/core/permissions.py:388-389 | normalising loses nothing and is idempotent |
| Paths.PiecesMean | src/core/permissions.py:382-389 | each piece of an absolute path adds a component, removes the last one ("..", stopping at the root) or nothing |
| Paths.PathWithinIsInside | src/core/permissions.py:379-392 | for all strings: the prefix test on normalised strings is containment of component lists with "." and ".." collapsed |
| Paths.AbsolutePathWithin | src/core/permissions.py:379-392 | for absolute paths: the prefix's components lead the path's, which has no ".." |
| Paths.PathWithinReflexive | src/core/permissions.py:392-392 | every path is within itself |
| Paths.PathWithinTransitive | src/core/permissions.py:379-392 | containment is transitive, for all strings |
| Paths.SiblingIsOutside | src/core/permissions.py:382-385 | a sibling whose name extends the prefix's is outside |
| Permissions.NewestMeans | src/core/permissions.py:247-255 | the search answers with the covering rule that no later covering rule follows |
| Permissions.PathOfCall | src/core/permissions.py:395-403 | the path of a call is the first non-empty of its tool's fields: path then file_path for Read, Glob and Grep, file_path for Write and Edit, notebook_path for NotebookEdit, none for others |
| Permissions.AnswerDecides | src/core/permissions.py:237-304 | what one more answer changes, for every call: an answer for one tool nothing of another; for the session, every call of its tool; for a path, exactly the calls of its tool at or below it by components; given once, nothing |
| Permissions.DecisionsHaveGrounds | src/core/permissions.py:237-304 | after any history a cached decision goes back to an answer with that decision, for the whole session or for that very tool |
| Permissions.CacheAnswers | src/core/permissions.py:237-304 | after any history of answers: allow-all ever given, else deny-all ever given, else the newest narrower answer covering the call, else ask |
| Permissions.LastBlanketWinsIff | src/core/permissions.py:287-291 | a last session-wide answer takes effect exactly unless it denies after an allow-all |
| Permissions.SnapshotPreservesAnswers | src/core/permissions.py:339-376 | a manager restored from the snapshot answers every call like the original, after any history, and stays so under any further history |
| Permissions.PlanSessionDecides | src/core/prompt_router.py:1014-1034 | plan sessions: Write allowed exactly within the plan directory and denied elsewhere; Bash, Edit and Agent denied; other tools ask |
| Permissions.PlanSessionWritesInside | src/core/prompt_router.py:1014-1034 | for absolute paths: allowed exactly if the directory's components lead the path's |
| PermissionRequests.WaiterIsTold | src/core/permissions.py:257-337 | every run of questions, answers, timeouts, cancellations and abandoned waits, any number of requests at once: a waiter is told the last answer its own request got while open, or to deny if there was none or it woke late; it is denied against an accepted allow exactly if it woke late |
| PermissionRequests.RequestSaysWhatWasTold | src/core/permissions.py:306-337 | in every run the request object a waiter gets back carries the decision it was told and is marked timed out exactly if it got no answer while open or woke late; cancelling all lets every waiter wake |
| PermissionRequests.RequestKeepsScope | src/core/permissions.py:268-304 | the request object keeps the scope of the last answer it got while open |
| PermissionRequests.AbandonedIsNeverTold | src/core/permissions.py:306-325 | a waiter cancelled while waiting is told nothing in any continuation |
| PermissionRequests.ClosedStaysClosed | src/core/permissions.py:268-325 | once its waiter was told or all were cancelled, a request stays closed in every continuation: what was told does not change, and an answer to it changes nothing |
| PermissionRequests.CacheOfTaken | src/core/permissions.py:268-304 | the cache after any such run is what the answers that found their request open make of it, each for its request's tool |
| PermissionRequests.AnswerIsRemembered | src/core/permissions.py:268-304 | an accepted answer decides later calls of its request's tool with the decision, scope and path given, and no others |
| PermissionRequests.LaterCallsAreAnswered | src/core/permissions.py:237-304 | so later calls are answered by those answers, whatever their waiters were told |
| PermissionRequests.AllowedButDenied | src/core/permissions.py:306-325 | a run in which the user allows everything as the time runs out: the waiter denies, every later call is allowed |
| PermissionRequests.PermissionManager.CheckCached | src/core/permissions.py:237-255 | the reverse loop answers as specified, by the rules `Permissions.AnswerDecides` spells out |
| PermissionRequests.PermissionManager.CreateRequest | src/core/permissions.py:257-266 | equals the step: registers an object shared with its waiter |
| PermissionRequests.PermissionManager.ResolveRequest | src/core/permissions.py:268-304 | equals the step; found exactly if registered |
| PermissionRequests.PermissionManager.FinishWait | src/core/permissions.py:306-325 | equals the step; returns what the waiter is told |
| PermissionRequests.PermissionManager.CancelAllPending | src/core/permissions.py:327-337 | the loop equals the step: denies the unanswered, wakes all, and empties the dictionary |
| PermissionRequests.PermissionManager.GetRulesSnapshot | src/core/permissions.py:339-354 | the rules, then at most one blanket rule, allow first |
| PermissionRequests.PermissionManager.RestoreRules | src/core/permissions.py:356-376 | the loop equals restoring each rule |
| Worktrees.ContainsIsPrefix | src/core/cwd_tracking.py:208-211 | for absolute paths the resolver's string test is a prefix of components |
| Worktrees.BestMeans | src/core/cwd_tracking.py:200-213 | the running best is the first among the longest containing worktrees; none exactly if none contains |
| Worktrees.ResolveWorktreeForCwd | src/core/cwd_tracking.py:181-213 | the loop computes it |
| Worktrees.ResolvesIff | src/core/cwd_tracking.py:192-213 | a directory resolves exactly if it and the repository are named and some worktree contains it |
| Worktrees.ResolvedIsInnermost | src/core/cwd_tracking.py:190-192 | every containing worktree is an ancestor of the resolved one |
| Worktrees.WinnerIsUnique | src/core/cwd_tracking.py:343-345 | at most one candidate satisfies the voting rule |
| Worktrees.RelativeFromBase | src/core/cwd_tracking.py:327-332 | a relative path is followed from the base component by component, one of plain names leading just so far below it; an absolute one ignores the base |
| Worktrees.InferCwdFromToolPaths | src/core/cwd_tracking.py:305-345 | nothing exactly if no path maps to a worktree; otherwise the candidate with most votes, then the longest path, then the earliest first vote |
| Monitors.TraceReadsIff | src/core/agent_claude_code.py:741-1277 | every run: the messages about a monitor read as start, events 1..n, end with total n, exactly unless it was started while tracked; tracked with its count exactly while they read as running |
| Monitors.MonitorStory | src/core/agent_claude_code.py:741-1277 | an id used once: nothing, or one start, events 1..n and at most one end of total n with nothing after |
| Monitors.EndsSayWhy | src/core/agent_claude_code.py:1146-1269 | over any run the ends of a monitor give the reasons of the operations that ended it while tracked, one each and in order |
| Monitors.TrackedInStartOrder | src/core/agent_claude_code.py:741-1269 | after any run the monitors tracked, and so those ended together, are those started and not ended since, in the order of their starts |
| Monitors.MonitorTracker.StartMonitor | src/core/agent_claude_code.py:741-764 | equals its step; no monitor without an id |
| Monitors.MonitorTracker.ProcessMonitorEvent | src/core/agent_claude_code.py:1146-1206 | equals its step; ignores untracked ids |
| Monitors.MonitorTracker.TerminateActiveMonitors | src/core/agent_claude_code.py:1208-1236 | one end per tracked monitor, in order, with its own count |
| Monitors.MonitorTracker.CancelMonitor | src/core/agent_claude_code.py:1238-1269 | equals its step; raises exactly for an untracked id |
| DiffSnapshots.ResultsMatchIff | src/core/agent_claude_code.py:1083-1090 | at every point of every stream: each result took its own use's before-image and those still due are queued, exactly if results came in the order of uses and no other result came while one was awaited; once all are answered, the first alone |
| DiffSnapshots.TodoTakesTheSnapshot | src/core/agent_claude_code.py:717-726 | a stream in which a to-do update takes an edit's before-image |
| DiffSnapshots.SwappedResultsSwapImages | src/core/agent_claude_code.py:848-880 | two edits whose results come in the other order get each other's before-image |
| DiffSnapshots.PendingSnapshots.NoteToolUse | src/core/agent_claude_code.py:717-807 | keeps the queued images those of the uses the model's queue names |
| DiffSnapshots.PendingSnapshots.TakeForResult | src/core/agent_claude_code.py:1086-1090 | the image of the model's oldest queued use; the result's own in every stream quiet and in order so far |

## Left out

- Several sessions at once: each protocol is modelled for one session, except `SessionManager` in `SessionStatus.dfy`; the managers' dictionaries of other sessions are not.
- Database, file system and JSON libraries: transactions are atomic steps, directories a set, decoded JSON a datatype; storing and loading a value is the identity, and removing a directory always succeeds.
- Rows of unknown message type, and stub sessions with nothing in them, which reloading skips or deletes.
- Messages changed after they were stored (an answered permission request sets a field of its buffered message).
- An archive's own awaits: it reads the history and drops the session in one step; a push that falls between is one onto the dropped session.
- Positions in `PendingProtocol.dfy`, where a mirror insertion may land anywhere; `PendingOrder.dfy` and `PendingDelivery.dfy` have them, without directories.
- What makes a session busy, and what `handle_prompt` does with a message: arbitrary answers. Prompt text, attachment bytes and their manifests.
- Unread results: usage and token counts of a stream, and the arguments of a tool call once serialised for the OpenAI format.
- A tool or callback that itself changes the message list of the running loop.
- asyncio internals and time: timers expire in any order, and no liveness is claimed.
- `fire_at` comparisons beyond order, and delays: a past-due wake is one that may expire at once.
- Home-directory expansion and the worker's own directory, which are parameters; Windows path rules.
- Tool inputs whose path fields are not strings, which make the path test raise.
- How a monitor result is recognised as terminal and classified, and the instruction sent to the agent on cancel: arbitrary answers.
- A wake firing for a session no longer in memory.
- `apply_agent_cwd`, `parse_cwd_change`, risk levels and descriptions of tool actions: single-branch updates and text matching.
- Persistence.StoredSequencesUnique: archives fall between flushes; those that fall inside one are in `ArchiveWindow.dfy`.
- PendingOrder.FiledInReverseIff: the two are filed one right after the other; a removal that renumbers the newer one in between is covered by `PendingDelivery.PoppedInOrderIff`.
- SessionStore.ManagedSession.FlushDirty: one undisturbed flush; pushes between its steps are in `Persistence.dfy` and `FlushWindow.dfy`.
- PendingQueue.SessionPendingMessageStore.DrainOne: no other operation runs between its pops; interleavings are in `PendingProtocol.dfy`.
- WakeRaces.EveryRunHasOneOutcome: one wake and one timer, armed once; re-arming is in `WakeTimers.dfy`.
- SessionStatus.ActiveSession.CompleteSession: the buffer is a value here; its queues are updated in place in `Buffer.dfy`.
- PermissionRequests.WaiterIsTold: nothing is said of a waiter that is never woken.
