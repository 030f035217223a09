# Service Bus extractor: verified core

This project models the parts of the Azure Service Bus extractor whose guarantees must survive crashes, discarded state,
lost connections, throttling and other users of the same entity, and proves them for every input, every run and every
history of runs.

`dafny verify dfyconfig.toml` checks everything.

## What is modelled

| file | content |
|---|---|
| `Ranges.dfy` | the range algebra of the stored sequence numbers |
| `Broker.dfy` | the broker: stored messages, deferral and lock flags, all-or-nothing deferred receives, what others do to the entity, and the log of effects |
| `Bisect.dfy` | the bisecting deferred receive with its transient retries |
| `Pending.dfy` | the pending-commit set and its builder |
| `Commit.dfy` | deleting the pending set of an earlier run: chunks, tails, held sessions, stale entities, counters |
| `Settlement.dfy` | write-then-settle, the settlers, the unreadable-body policy |
| `Protocol.dfy` | histories of runs that crash anywhere, with outputs adopted or discarded |
| `Component.dfy` | one run built from the classes above, proved to be a lawful run of the protocol, and whole histories of such runs |
| `Recovery.dfy` | the connection-recovery budget |
| `Receive.dfy` | the receive loop as a state machine over connections, sessions and three retry budgets |
| `Paging.dfy`, `Attempts.dfy`, `Peek.dfy` | the peek pager: incremental and full fetch, cursor mode, sessions, the stored cursor, and what failed exports leave behind |
| `Orphans.dfy` | the paged orphan scan and the calls of its recovery |
| `Naming.dfy`, `Registry.dfy`, `Flatten.dfy` | column names, the flatten registry over chains of runs, the split of a row, JSON flattening |

The outside world is a parameter: a script of turns (clock, broker replies, network faults, decoding results), one for
each step of a loop, and for the broker also what other users do before each call. A theorem about a loop is a theorem
about every script. Errors are datatypes. Everything that changes a message goes through the log of `Broker.ServiceBus`,
so the methods of the commit and of the pipeline are tied to the protocol theorems by the effects they append.

## What the proofs found

- A deferred number that is locked, or that belongs to another session, is answered as not found, so the commit counts
  it as already gone although it stays on the broker. `Commit.GoneButStored` states exactly when,
  `Commit.LockedIsReportedGone` is an input. This is how a deferred message can leave the pending set without having
  been deleted; `Protocol.NothingIsForgotten` lists it among the only ways out.
- The tail a failed group carries is not always "exactly what is not deleted" (src/commit.py:239-243): a bisected chunk
  may fail after its left half was deleted. `Commit.TailCanHoldDeleted` is an input. The tail is exact if and only if
  the chunk that failed took nothing; at a broker nobody else uses, with no lost reply and none of that chunk's numbers
  missing, it is (`Commit.TailExactness`, `Commit.PendingCommitter.DeleteGroup`).
- The peek cursor can pass an unexported message. Scheduled and expired messages of a page are marked before the
  selected ones are written; when that write breaks and the run stops at its deadline before the page is peeked again,
  the cursor lies beyond the selection. `Peek.PeekPager.RunIncremental` says which messages the cursor passes without a
  row, in terms of the attempts of the run: exactly those that the last one selected when it broke, while no body waits
  for its retry and a number above was marked. `Peek.OnlyFailuresFollow` adds that only failing turns came after it,
  `Peek.CursorLeavesNoGap` that there is no gap when no write breaks, and `Peek.BrokenExportLeavesAGap` runs the
  pager into the gap.
- The orphan scan of a plain entity reports itself as incomplete for 4751 to 5000 messages although it has read all of
  them, because only an empty page ends it (`Orphans.ScanPages`).
- Flattening can lose a leaf: an AMQP map with the keys 1 and "1" gives both the same path, and the later one stays
  (`Flatten.CoincidingKeysLoseALeaf`; `Flatten.FlattenKeepsTheLast` for every value).
- A numbered column name keeps the limit of 64 characters exactly for numbers below 10^63: past that the slice end is
  negative and counts from the back (`Naming.CandidateLength`).

## Model

| member | source | states |
|---|---|---|
| Ranges.MergeRanges | src/state.py:45-54 | the result is sorted, disjoint, non-adjacent and covers exactly the numbers of the input |
| Ranges.NormalFormIsUnique | src/state.py:45-54 | two such range lists with the same cover are equal, so merging is idempotent and order-blind |
| Ranges.ToRanges | src/state.py:28-42 | the normal form of the given set of numbers, repeats included |
| Ranges.IterRanges | src/state.py:57-60 | the covered numbers, ascending, each once, for overlapping and unordered ranges too |
| Ranges.CountRanges | src/state.py:63-65 | the number of covered numbers |
| Ranges.TailRanges | src/state.py:85-89 | the normal form of the covered numbers at or above the given one |
| Ranges.RangesAreRuns | src/state.py:28-65 | a normal form has one range for every number whose predecessor is missing |
| Ranges.GrowthIsBounded | src/state.py:172-173 | adding a set of numbers to one group adds at most as many ranges; `Settlement.Processor.Process` states it for a batch and all groups |
| Ranges.JoiningIsBounded | src/state.py:198-208 | joining two normal forms gives at most the sum of their ranges |
| Broker.ServiceBus.ReceiveDeferred | tests/fakes/broker.py:830-860 | after whatever others do first, expiry included: all or nothing, every number is receivable and is taken or nothing changes; refused over 250 numbers or across partitions; a lost reply may hide a deletion |
| Broker.ServiceBus.Record | tests/fakes/broker.py:862-885 | the world is always the replay of the log |
| Bisect.CeilLog2IsTheLogarithm | src/commit.py:104-126 | the bound below counts halvings by the true ceiling of the binary logarithm |
| Bisect.ReceiveWithRetry | src/commit.py:81-93 | at most four calls; a received reply deleted exactly the numbers, any other left all of them or, when a reply was lost, none |
| Bisect.ReceiveDeferredBisect | src/commit.py:104-126 | every number is reported once and could not be returned at some moment since, whatever others do; alone on the broker and with no lost reply the received ones are exactly the receivable ones and exactly they are deleted, in at most 1 + 2k·⌈log2 n⌉ answered calls for k missing of n |
| Bisect.CallBoundStep | src/commit.py:118-126 | two halves and the call before them stay within the bound |
| Pending.PendingSetBuilder.Add | src/state.py:192-196 | exactly one number joins exactly one group, and the group's largest body goes on covering all of its numbers |
| Pending.PendingSetBuilder.Carry | src/state.py:198-208 | the pending numbers are those before and those carried, group by group, and the largest bodies cover both |
| Pending.PendingSetBuilder.Build | src/state.py:210-231 | one group for every key, in normal form, holding exactly its numbers, which its largest body covers; entities in the order of their first keys, groups by session and partition; groups of one partition stay so; the ranges of the whole set number its run starts |
| Commit.StoredCallsFit | src/commit.py:74-78 | a call of the commit that asks for more than one number of a well-kept pending set asks for one partition and at most 16 MiB of recorded bodies |
| Commit.TailExactness | src/commit.py:239-243 | the tail of a failed group is exactly what was not deleted if and only if the failed chunk took nothing |
| Commit.TailCanHoldDeleted | src/commit.py:239-243 | a chunk on which the tail holds a deleted number |
| Commit.LockedIsReportedGone | src/commit.py:113-126 | a stored, locked number reported as gone |
| Commit.ReceivedWereDeleted | src/commit.py:250-253 | what a chunk counts as committed left the broker, and with no lost reply nothing else did |
| Commit.PendingCommitter.DeleteChunks | src/commit.py:248-254 | the chunks in order until one fails: which numbers are done, the mark behind the last of them, and what the failing chunk took |
| Commit.PendingCommitter.DeleteChunk | src/commit.py:249-254 | the counters grow by the chunk, or not at all on an error; each of its numbers could not be returned at some moment since; with everything there, no lost reply and nobody else, an error takes nothing |
| Commit.PendingCommitter.DeleteGroup | src/commit.py:236-254 | the counters grow by the finished chunks, the progress mark separates them from the rest, and when that rest is exactly what is not deleted |
| Commit.PendingCommitter.CommitGroup | src/commit.py:199-225 | deleted without an error, carried with its tail when the session is held, reported as stale when the entity is gone or unreadable and not the configured one, and a failed run for any other error; the error is one that a call met; each verdict with its counters |
| Commit.PendingCommitter.CommitEntity | src/commit.py:194-234 | the counters grow by the numbers of the entity; each of them is carried under its key or could not be returned at some moment, unless the entity is stale, which takes an error that says so and is never the configured one; it fails only for an error that a call met |
| Commit.PendingCommitter.Commit | src/commit.py:169-192 | conservation: committed, already gone, carried and stale together grow by the stored numbers; carried is what is carried; every stored number is carried, could not be returned at some moment, or is on an entity reported as stale; only stored entities are, at most one for each error that says so, and never the configured one; no more groups are carried than calls found their session held; it fails only for an error that a call met, never for a held session; only stored numbers are taken and asked for; alone on the broker committed never exceeds what left it, and equals it when no call fails, in which case nothing is carried or stale |
| Commit.HandledMeansKept | src/commit.py:205-225 | unless others acted, a number that is still receivable after the commit is carried under its key |
| Settlement.SafeAtEveryStep | src/settlement.py:319-347 | before every step of a safe run, a message about to be completed or deferred already has a row, and for a completion the always-upload flag is set |
| Settlement.Processor.SafeSettle | src/settlement.py:114-129 | an acknowledged settlement is in the log, a lapsed lock is counted and settles nothing, anything else breaks |
| Settlement.Processor.Handle | src/settlement.py:180-252 | what each unreadable body comes to: a first undecodable one is abandoned and asks for a fresh connection, and is settled in no other way; any other fails the run, is dead-lettered, or is left, as the policy and the entity say; an acknowledged settlement is in the log, and a retry carries the generation of the first failure |
| Settlement.Processor.SettleOne | src/settlement.py:61-94 | complete arms the flag first; defer records the message once acknowledged |
| Settlement.Processor.SettleRows | src/settlement.py:343-344 | every acknowledged row is settled the way of the mode and, when deferred, in the pending set; it is broken off if and only if the connection breaks for one of the rows |
| Settlement.Processor.Decode | src/settlement.py:325-338 | the readable messages become rows in order; a message is abandoned only for a granted retry and dead-lettered only when refused one under that policy off a sub-queue; unless the connection breaks every other message asked again, is left, is dead-lettered or fails the run; in the modes without locks rows, retries and disposed ones add up to the batch |
| Settlement.Processor.WriteRows | src/output.py:143-151 | the rows of the batch reach the sink in order; in receive-and-delete mode the flag is set before |
| Settlement.Processor.Process | src/settlement.py:319-356 | write, then settle, then fail: the sink gets all rows of the batch or, after an interruption, none; unless it is interrupted every row is written, and each acknowledged one settled the way of the mode; it is interrupted when the sink refuses rows or the connection breaks for one of them, and else only when it breaks for another message; every acknowledged deferral is in the pending set, which gains no other numbers, keeps its largest bodies and grows by at most one range for each row; each settlement is apt for a message of the batch, and a finished batch has dealt with all of them; first failures and retry verdicts are never forgotten, and every retry is among them; received = written + disposed in receive-and-delete; a finished batch under the fail policy disposed of nothing |
| Protocol.CrashAnywhere | README.md:298-304 | cutting a run after any effect gives a lawful history again |
| Protocol.PendingIsImported | src/component.py:354-373 | what the stored pending set holds was imported |
| Protocol.DeletedOnlyAfterImport | src/component.py:270-274 | a message the commit takes was written by an earlier run whose output was adopted |
| Protocol.NothingIsLost | src/component.py:166-178 | over every history of defer-commit and peek runs, every message ever sent is stored, dead-lettered, expired, imported, or stored again under a new number when it was activated |
| Protocol.NothingIsLostByActivation | tests/fakes/broker.py:693-718 | the message with the new number is kept in the same way |
| Protocol.NothingIsForgotten | src/component.py:354-373 | a message whose deferral was acknowledged in an adopted run stays in the visible pending set until a later adopted run could not receive it at some moment of its commit, which includes deleting it, or met an error by which its entity, another one than the run's own, is gone or unreadable |
| Protocol.PendingBecauseHeld | src/component.py:270-274 | the partner: whatever is pending was deferred with the broker's acknowledgement by an adopted run, and every later adopted defer-commit run met a held session and carried its key on |
| Component.CommitPending | src/component.py:270-274 | the commit comes first and takes stored numbers only; every stored number is then in the new pending set, on an entity reported as stale, or could not be returned at some moment of the commit; stale are only stored entities other than the run's own, at most one for each error that says so; carried on are no more keys than calls found their session held, and no more numbers than the summary counts, which accounts for every stored number; when no call fails nothing is carried on |
| Component.ProcessAll | src/settlement.py:189-207 | over all batches of a run, a message is retried in one generation only; whatever happens between the batches, the run stays lawful; the run goes on through every batch until one fails it, for a reason that one gave |
| Component.RunOnce | src/component.py:166-178 | whatever others do meanwhile, a run of the modelled classes is a lawful run, finished or not. A finished one has written the rows of every batch that was not interrupted, each batch whole, once and in order, completed the acknowledged ones or deferred and stored each under its own key, and stores nothing else but the keys a held session made it carry on; every settlement is apt for a message of a batch. It fails for an error that a call of the commit met, or after a batch that gave a reason, with the rows of the batches up to that one; its calls fit the broker, and so do those of the run after it |
| Component.SmoothRunIsComplete | src/component.py:354-373 | in a history of planned runs, one in which no call fails and no batch is troubled finishes, has extracted every batch, and stores exactly what it deferred itself |
| Component.RunHistory | src/component.py:166-178 | any sequence of planned runs, crashed anywhere, adopted or discarded, with others acting between all calls, is a lawful history of just these runs: a finished one has extracted all its batches, settled nothing else, and carried keys on or reported entities only for errors of its plan, and every smooth one finishes; every call of every commit asks for one partition, and for one number or at most 16 MiB |
| Recovery.ProgressBetweenRecoveries | src/receiver.py:130-152 | between any two recoveries a row was written or an unreadable body disposed of |
| Recovery.RecoveryTracker.Failure | src/receiver.py:130-152 | ends the run for a failure no connection fixes, after five recoveries, or without progress; otherwise a new generation |
| Recovery.RecoveryTracker.UnreadableRetry | src/receiver.py:125-128 | a new generation that costs no recovery |
| Receive.EndsOnFiniteEntity | src/receiver.py:306-349 | a receive-and-delete loop on a plain entity that hands out each of m messages at most once runs at most 73 + 11m rounds |
| Receive.JudgeIsExact | src/settlement.py:325-338 | the rows of a batch are its readable messages, each as often as it came; undecodable ones are retried where that is granted, everything else is disposed of |
| Receive.JudgeKeepsOrder | src/settlement.py:325-338 | the rows come in the order of the messages |
| Receive.ReceiveLoop.Deliver | src/receiver.py:423-441 | the whole batch goes to the pipeline, in receive-and-delete only with the flag set; the taken count grows by exactly what was not retried, unless the pipeline broke |
| Receive.ReceiveLoop.StopDrain | src/receiver.py:590-623 | from a receiver that has received, exactly the first prefetch + 1 buffered messages are handed out; in receive-and-delete all of them go to the pipeline, otherwise all are abandoned; a drain that fails to receive changes nothing; it fails only for an own failure of the drained batch, and not when the run is failing already |
| Receive.ReceiveLoop.OpenNext | src/receiver.py:374-395 | a session handed out twice stops the loop, every other joins the seen ones and becomes the open one; with no session left the loop stops, or waits during catch-up; a receiver that cannot be opened raises |
| Receive.ReceiveLoop.OnEmpty | src/receiver.py:447-483 | on a session entity the session is left; otherwise the run stops as idle exactly when the check finds nothing, goes on with a fresh connection at most five times in a row, and then stops as stalled |
| Receive.ReceiveLoop.Step | src/receiver.py:324-349 | a stop that is due for the limit, the deadline, the state budget or the end of the catch-up comes first, in this order, and drains exactly the buffer of a receiver that has received; so does a batch newer than the job start, which stops the run or leaves the session, and a batch that fails on its own account; a batch with retries closes the connection for a fresh one; a step that goes on outside catch-up used up some of the bounded work |
| Receive.ReceiveLoop.Recover | src/receiver.py:625-630 | an interrupted session is forgotten, so it may come again; nothing else changes but the recovery count |
| Receive.ReceiveLoop.Round | src/receiver.py:309-322 | a call that fails in a step without a stop costs one recovery, or ends the run when the tracker gives up on its error; a session that another receiver holds is skipped without one |
| Receive.ReceiveLoop.Consume | src/receiver.py:306-322 | one phase of the loop. In receive-and-delete every message handed out, the drain included, went to the pipeline once and in order, is a row, disposed of or in a batch the sink refused, and the flag is set; however it ends, a plain entity's loop outside catch-up runs at most 73 + 11m rounds for m non-empty receives; the taken count keeps the message limit and the rows exceed it by the drain only; the state of a defer-commit run exceeds its budget by one batch at most; a stop has its reason in the last round, a failure an own failure or an error there that the tracker gives up on; at the limit, the deadline, the state budget, the job start or an own failure the last messages handed out are those of the buffer; only the last turn is past the deadline; after an idle stop or one for lack of sessions the loop can go on |
| Receive.ReceiveLoop.Run | src/receiver.py:292-302 | the whole run, with a catch-up phase if and only if the configuration waits, a connection was recovered and the first phase found nothing more; everything handed out in receive-and-delete reaches the pipeline once and in order, the buffer of the last receiver included; session receivers opened are at most the sessions seen plus 56, and those were handed out in one of the two phases; one drain of at most prefetch + 1 rows on a plain entity; the message limit, and the state budget but for one batch |
| Paging.ScanIsSound | src/peek.py:289-311 | everything before the stop is processed, skipped or selected, the selection keeps the limit and holds nothing expired, and only a full limit or an unexportable message stops it |
| Paging.PageFacts | tests/fakes/broker.py:812-828 | a page holds the first stored messages from the position on, 250 at most, and an empty page means there are none |
| Paging.Observe | src/peek.py:164-205 | the invariant survives whatever happens at the broker between two peeks |
| Paging.StopIsNotInSpan | src/peek.py:289-311 | a message waiting for another try is never what stops a scan |
| Paging.LookedKeeps | src/peek.py:281-320 | an export keeps the invariant, whatever part of its selection came back |
| Paging.RetryKeeps | src/peek.py:189-196 | so does going back to the first body to retry |
| Paging.AdvanceKeeps | src/peek.py:197-201 | so does leaving a page behind and forgetting what it processed |
| Peek.ScanPage | src/peek.py:289-311 | the loop computes the scan whose soundness is proved |
| Peek.Divide | src/settlement.py:325-338 | a selection splits into retried, done and written bodies, each number once: retried exactly those that may ask, written exactly the others that can be read |
| Peek.PeekPager.Process | src/peek.py:322-338 | everything but what came back is written once or finally skipped, counted and marked |
| Peek.PeekPager.Export | src/peek.py:281-320 | the scan of the page, the rows of its selection, and the first body that waits for its retry |
| Peek.StepKeeps | src/peek.py:189-205 | after an export the loop goes on where the invariant holds again |
| Peek.PeekPager.PageTurn | src/peek.py:168-205 | one pass stops at the limit, the deadline or an empty page, and otherwise exports the page and goes on behind it or at the first body to retry; it keeps the invariant of its fetch mode and the account of the attempts, through recoveries, retries and the flip to cursor mode; it fails the run only for an own failure, partitions in an incremental fetch, or an error the tracker gives up on |
| Peek.StopIsJustified | src/peek.py:295-311 | a stop inside a page means the limit is reached, or that everything stored before a message of this job is handled |
| Peek.PeekPager.RunPages | src/peek.py:157-205 | a whole run: every row once, at most the message limit, the rows exactly what the attempts wrote, every handled message written or skipped by an attempt that was finally done with it, and a reason for the stop or the failure |
| Peek.WhySkipped | src/settlement.py:189-233 | a message skipped finally was scheduled or expired in the turn that marked it, or could not be read in a turn that selected it: for good, or having asked for a retry before, or when no retry was to be had |
| Peek.PeekPager.NewCursor | src/peek.py:145-153 | the new cursor is the highest number it may cover: at most the highest processed one, below every body waiting for its retry, and from the start position on; it is the stored one when there is none |
| Peek.PeekPager.RunIncremental | src/peek.py:100-130 | the stored cursor never moves back on its entity; it passes every message the run wrote or finally skipped below all bodies waiting for their retry, and at the end of the entity everything stored from the start position on; a stored message from the start to the cursor is a row, or finally skipped by the attempt that dealt with it, if and only if the last attempt did not leave it behind, so a body that waits for its retry is never passed; a message left behind is passed by the cursor, and the run was then stopped by its deadline; no earlier turn is past it |
| Peek.CursorLeavesNoGap | src/peek.py:145-153 | in a run in which no write breaks, every stored message from the start to the cursor is a row or finally skipped by the attempt that dealt with it |
| Peek.OnlyFailuresFollow | src/peek.py:164-205 | between the attempt that left something behind and the stop every turn failed |
| Peek.BrokenExportLeavesAGap | src/peek.py:296-313 | two turns of the pager after which the cursor passes an unexported message |
| Peek.CursorNeverSkips | src/peek.py:132-153 | over any history of incremental runs, a message at or below the cursor that was stored whenever an adopted run moved its cursor past it, however late it arrived, became a row or was finally skipped in such a run, unless writing it broke there just before the deadline |
| Peek.NoSecondRow | src/peek.py:132-153 | over any history of incremental runs, two adopted runs of one entity, with none of another in between, were both done with a message only when a body at or below it was waiting for its retry at the end of the first |
| Peek.RunPeeks | src/component.py:354-373 | any sequence of incremental runs of the pager, failed, discarded or adopted, each from the cursor the last adopted one left, is such a history |
| Peek.PeekPager.RunFull | src/peek.py:157-205 | a full fetch that stops at the end of an entity without partitions has made every message stored then a row, or was finally done with it in some attempt |
| Peek.PeekPager.RunSessions | src/peek.py:215-251 | every row once and at most the limit, however often sessions are peeked again; when no session is left, the turns on the last connection are exactly one visit to each session it handed out and tries at sessions others hold, every visit complete unless another receiver turned out to hold the session |
| Peek.VisitedMeansExported | src/peek.py:253-269 | what is stored in a visited session all through the visit, below the first message of the job if that ended it, is a row or finally skipped by the attempt that dealt with it |
| Orphans.WalkStops | src/commit.py:404-420 | the walk stops exactly when K qualifying messages came without a deferred one between them |
| Orphans.WalkCollects | src/commit.py:404-420 | it collects exactly the deferred messages reached before that, split by the guard |
| Orphans.WalkInOrder | src/commit.py:404-420 | each once, in order |
| Orphans.LockedClusterDoesNotStop | src/commit.py:291-315 | with no more messages in a row that peek as active, undelivered, unexpired and never scheduled than one interruption leaves locked, every deferral is found |
| Orphans.Recover | src/commit.py:453-469 | the calls hold the orphans ascending and each once, 1 to the limit at a time, of one partition each |
| Orphans.ScanPage | src/commit.py:404-420 | a page goes on from where the pages before it left off |
| Orphans.ScanPages | src/commit.py:390-425 | on a plain entity the pages find and hand over what one walk over the first 5000 messages does; finished exactly for the K stop or at most 4750 messages |
| Orphans.ScanEntity | src/commit.py:390-425 | the same with the K, the guard and the call size of the settings |
| Orphans.RecoversExactly | src/commit.py:390-425 | the handed numbers are exactly the deferrals below the guard, within 5000 messages and reached before K qualifying ones |
| Naming.ColumnNameIsBounded | src/body.py:206-219 | at most 64 characters, all of them letters, digits or underscores |
| Naming.NameFollowsThePath | src/body.py:206-219 | the name is the folded path, character by character, with an underscore for what is not plain and without those at its end; a longer one keeps 55 characters and the digest |
| Naming.ShortPlainName | src/body.py:206-219 | a short plain path is named after its keys |
| Naming.CandidatesDiffer | src/body.py:250-260 | candidates for different numbers differ, even truncated |
| Naming.CandidateLength | src/body.py:257-258 | a candidate keeps the limit exactly for numbers below 10^63 |
| Naming.UniqueName | src/body.py:250-260 | the search ends within one try more than there are taken names, at the first free one |
| Naming.UniqueNameIsBounded | src/body.py:250-260 | a found name keeps the limit |
| Registry.FlattenRegistry.constructor | src/body.py:236-248 | any stored state loads: each hash has the column of its last entry, in the order of first entries, and all stored and reserved columns are taken |
| Registry.FlattenRegistry.Register | src/body.py:262-278 | a known path keeps its name; a new one gets the first free name, recorded below 1000 names and for this run only above |
| Registry.FlattenRegistry.ToState | src/body.py:292-293 | the saved state holds every recorded name once: those of the input in the order of their first entries, then the new ones in the order of recording; it begins with the input state when that has no hash twice, and stays well-formed |
| Registry.FlattenRegistry.SplitRow | src/body.py:295-320 | when no two fields share a name, every field has one cell of its own, a column of the input state or an entry of the unmapped cell, and there is no other; it fails exactly for an unregistered path, or for an oversized unmapped cell |
| Registry.StoredApart | src/body.py:295-320 | different paths never share a name when the stored columns differ and none is reserved |
| Registry.RunRegistry | src/component.py:354-367 | in a run a stored path has its column, new names differ from each other and from stored and reserved columns, and keep 64 characters below 10^63 names; a name is saved if and only if the path was stored or fewer than 1000 hashes were recorded when it first came; the saved state is the input followed by those new names in the order in which their paths first came |
| Registry.RunChain | src/component.py:354-367 | any chain of runs consists of such runs, each from the state before it |
| Registry.ColumnsStay | src/body.py:262-266 | a stored column stays that path's column in every later state |
| Registry.NameForEver | src/body.py:262-293 | a name that a run saved for a path is the name of that path in every later run |
| Registry.GivenForEver | src/body.py:262-293 | a path that was stored, or that found fewer than 1000 recorded hashes, keeps the name the run gave it in every later run |
| Flatten.FlattenIsExact | src/body.py:181-203 | without coinciding keys the fields are exactly the leaves of the value, under their paths |
| Flatten.FlattenKeepsTheLast | src/body.py:181-203 | for any value, coinciding keys included, the field under a path is the last leaf with that path |
| Flatten.NothingIsLostInFields | src/body.py:181-203 | without coinciding keys every leaf has its field |
| Flatten.CoincidingKeysLoseALeaf | src/body.py:187-203 | a value of two leaves and one field |

## Left out

- Commit.PendingCommitter.Commit: conservation is stated for non-negative sequence numbers, because the progress mark starts at 0 and the broker numbers from 1; that committed is exactly what left the broker is stated for a broker nobody else uses meanwhile, since others' expiries and dead-letterings leave it too.
- Bisect.ReceiveDeferredBisect: distinct numbers, as the committer and the orphan recovery pass them; waiting times between retries are not modelled.
- Broker.ServiceBus.Record: delivery counts are not kept; dead-lettering at the delivery limit, expiry, locks of others and activation are effects that may happen before any call, and other consumers deleting or deferring messages of the entity are not among them.
- Pending.PendingSetBuilder.Build: the deferral timestamp is not modelled.
- Component.RunOnce: receive-and-delete runs are not part of it, since their receives delete before anything is written; a batch stands for a receive, a peek or an orphan recovery, and the loops that choose batches are modelled on their own.
- Receive.ReceiveLoop.Consume: messages that a broken connection still holds in its local buffer are lost in receive-and-delete mode without ever being handed out, so they are no part of the count; the bound is for rounds outside catch-up; by how much a batch makes the state grow is an input, and so is the pipeline's answer for each message, which is not a call of `Settlement.Processor.Process`; lock renewal and the check for remaining messages at the end are not modelled.
- Peek.PeekPager.RunIncremental: assumes that new messages get higher numbers than any before and that the sink writes all rows of a selection or none; the entity is not known as partitioned at the start.
- Peek.PeekPager.RunPages: completeness of a full fetch in cursor mode depends on the broker visiting every partition and is not stated.
- Orphans.Recover: what the calls return and its way through the batch processor, by which recovered messages are written and deferred again, is not tied to the scan; the bisecting receive and the processor are modelled on their own.
- Orphans.ScanPages: the refinement is stated for entities without partitions whose messages do not change during the scan; on partitioned ones only the calls are constrained.
- Naming.ColumnNameIsBounded: Unicode folding, the digest and the path hash are parameters; injectivity of the hash is an assumption of the registry theorems.
- Registry.FlattenRegistry.SplitRow: for a stored state that gives two hashes one column, a later cell of the row replaces an earlier one; nothing is stated about such rows.
- Settlement.Processor.Process: the share of unreadable messages that aborts a run, and the overflow of the column registry, are inputs.
- A strict 256 KiB bound on the state: the check runs between batches, so the growth by one batch is bounded instead.
- A claim that an idle stop means an empty entity: the drain check looks at one page past the highest processed number.
- Connection strings, credentials, error texts and log redaction (src/client.py), configuration, statistics output, metadata columns and sync actions: they would only add easy members.
- Management calls and entity metadata (src/entity.py) beyond the partition of a number and the orphan guard.
- Charset decoding, base64, JSON encoding, CSV writing and file synchronisation.
- The foreign-deferral probe (src/commit.py:496-535), which only warns.
