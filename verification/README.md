# Verified models of the work factory

This project models the concurrency and bookkeeping core of an unattended work factory and proves
what it promises: a task queue kept in directories and moved by hard links, the batch loop that
drains it, the dispatcher that lets a worker try and judges what it left behind, and the control
plane's records that several processes and requests change at once. Each module models one part of
the source; every method is proved against a specification, and the main results quantify over
every input, every run or every interleaving of steps.

| module | part of the system |
|---|---|
| Names | archive names: numbered suffixes, the identity behind a name, name order |
| Dependencies | the deadlock sweep as a least fixpoint, path search, the reason given for a deadlock |
| Queue | the five state directories as one map, the atomic moves, and runs of them |
| Finality | which queued files can ever be claimed, and when a deadlock report is final |
| Backlog | the queue object: claim, finish, archive, recover, revive, and the deadlock sweep on it |
| Loop | limits, budget, the unpriced breaker, and the three-way decision when nothing is claimable |
| LongestRun | a run of the loop that is as long as budget and breaker allow |
| LinkProtocol | processes adding, claiming, archiving, recovering and reviving at once, with separate link and unlink steps |
| Dispatcher | rounds of worker and judgement, baselines, grades, stalls, merging of reports |
| Audit | attempt numbers under racing inserters, the gate 3 rework figures |
| AdminChat | sender, background job and pollers racing on the messages of one conversation |
| TaskOrder | ordering of a saved plan and the replay of finished work |
| PackDigest, Packs | content identity of capability packs; evidence-bound publishing and idempotent replay |
| DurableQueue | the generation-stamped queue of rounds |
| Feedback | feedback batches and their successor runs |
| LoginWindow | the failure window of password logins |
| Revisions | revision lineages, idempotency keys and execution bindings |
| Journal | the day-file journal and its backwards reader |

## How the system is modelled

- A directory operation with atomic POSIX behaviour (`link`, `unlink`, `rename`) is one step on a
  map from path to file. In LinkProtocol each `link`, each comparison and each `unlink` is a step of
  its own; in Queue, Backlog and Loop a whole move is one step.
- A database transaction is one step. Where the source reads outside the transaction that uses
  the reading (the pollers of AdminChat, the predecessor record of Revisions, the maximum read in
  `open_attempt`), the reading is a step of its own and what was read is kept in the state.
- Clocks, random ids, results of dispatches, worker behaviour and reviews are parameters or
  scripts, quantified over; a run is any finite sequence of steps. Fresh ids are assumed fresh where
  the source draws a UUID.
- Hashes (`sha256` of an encoding, of a request) are treated as injective: the text or the request
  stands for its hash.
- Money and time are real numbers; rounding is not modelled.

## Assumptions that the claims need

- `recover` does not run between another process's link and the writing of its `.claim` file; which
  running entries it regards as stale is a parameter.
- Processes that work on the queue directories stay out of each other's way (`LinkProtocol.Advised`):
  one process at a time archives a file, a file is not claimed while it is being archived, recovery
  takes up no file that a live process holds, and an archived file is not revived while it is being
  archived. Claims may race for one name and processes may die anywhere. That a name has one owner,
  that no file is lost and that no archived file is overwritten needs this; that archive names stay
  taken, are handed out once and leave no gaps does not. That no file is left under two names needs
  in addition that nobody dies between a link and its unlink (`LinkProtocol.Disciplined`).
- The results on final deadlock reports name what they need of the queue: `Queue.Room` (done/ has a
  name left for every file), `Finality.Settled` (no entry depends on the raw stem of a file whose
  own name may be taken under done/ and is not yet), `Queue.NoRawNeeds` (none depends on the raw stem
  of a queued or running file such as `T.2` at all) and `Queue.UniqueIds` or the weaker
  `Queue.Answers`. What the loop promises about limits and the order of dispatches needs none of them.
- A database is served by one live process; a message of an earlier process is recognised by its
  boot id.
- `start_maintenance` registers the job before it returns, and a job record becomes terminal only
  after its callback has ended.
- Login attempts take the database lock in the order of their clock readings.
- A harness adapter and the landing of a commit do not raise; such an exception leaves the attempt
  pending and ends the dispatch, and the loop counts it as an error.

## Where the promise and the code differ

- With a budget B, a breaker of k and every priced dispatch at c or more, the exact bound on
  dispatches is k times the ceiling of B/c (`Loop.BudgetBoundsDispatches`); for every B, k and c the
  loop reaches it (`LongestRun.BoundIsReachedByTheLoop`).
- Two fixed login windows of five never put ten evaluated failures into 300 seconds: nine is the
  maximum, and it is reached (`LoginWindow.NineIsReached`).
- A queued stem that ends in a number, such as a revived `T.2`, is archived as deadlocked, but the
  loop compares raw stems with stripped identities and reports it as still waiting
  (`Loop.RevivedEntryIsReportedAsWaiting` runs it). The report is "waiting" exactly when the raw stem
  of some file that is not ready is no deadlocked identity (`Loop.BacklogLoop.NothingToClaim`).
- A file that comes in after a failed claim and before the look at what is waiting is ready and not
  looked at: a drain then ends with a file in the inbox (`Loop.BacklogLoop.Run` says which).
- A deadlock report is meant to be final, and fails to be in two ways. Of two files with one identity
  the sweep looks at one, and the other may be claimable (`Finality.TwinIsClaimable`). And a file whose
  own name is taken under done/ is archived under a suffixed name, from which its stem as it stands
  is read back, so an entry that depends on `T.2` may become ready (`Finality.RawNeedIsMet`). In a
  settled queue with room in done/ the report is final exactly when the least set of claimable files,
  in which such a file supplies its stem too, has no reported identity
  (`Finality.ReportsAreFinalWhen`); without dependencies on raw stems that is so exactly when no file
  hides behind another of its identity (`Finality.ReportsAreFinal`), and unique identities suffice.
  In a queue that is not settled the order of merges can decide (`Finality.OrderDecides`).
- Claims and archiving are meant to be safe for any number of processes. When two processes recover
  one leftover, or archive one queued file, or one claims what another archives, a name can get two
  owners, an archived file can be overwritten and a new file can be lost
  (`LinkProtocol.TwoRecoverersShareAName`, `LinkProtocol.TwoArchiversOverwrite`,
  `LinkProtocol.ClaimAndArchiveLose`). Each of these happens in exactly one kind of step
  (`LinkProtocol.SecondOwnerWhen`, `LinkProtocol.OverwritesWhen`, `LinkProtocol.LosesWhen`), and the
  advice that rules them out cannot be weakened step by step (`LinkProtocol.AdviceIsNeeded`).
- A deadlock can be reported as a cycle when there is none (`Dependencies.ReportedCycleCanBeFalse`).
  There is a cycle exactly when the entry is not itself merged or in flight and can be reached from
  the missing prerequisite past no identity that is (`Dependencies.CyclesAvoidTheMerged`).
- The suffixes of an archived name are meant to be 1, 2, 3 and so on. Archiving leaves a gap exactly
  when the file is itself called like a later archive name of a plain name whose name before is free
  (`Queue.ArchivingLeavesGap`), and reviving leaves one exactly when the next name after the revived
  one is in use (`Queue.RevivingLeavesGap`). Without such files and without revives there is none, in
  any interleaving (`LinkProtocol.SuffixesHaveNoGaps`).
- A supervisor report that fails without naming a claim never blocks a merge
  (`Dispatcher.OnlyClaimsBlock`).
- The content digest of a pack is independent of the order of its files exactly when no path is
  listed with two contents (`PackDigest.OrderIndependence`); replacing a draft does not check for
  that (`Packs.OneNameTwoContents`). It identifies the content in any case.
- Saving an evaluation under an operation key overwrites what the key stood for; then, and only
  then, a repeated publish or task request is refused instead of replayed
  (`Packs.RepetitionsReplay`; `Packs.RepetitionRefused` is a run). The routes pass no key there.
- Retiring a queued round without naming its generation can retire a round that the caller never
  took (`DurableQueue.WithoutGenerationRetiresAnother`); it makes a difference exactly when a later
  round is running by then (`DurableQueue.GenerationMattersWhen`).
- Setting a successor through `link` is allowed and breaks a lineage unless it sets what is there
  (`Revisions.LinkingSuccessors`); the callers only set the execution and the cancel request.
- Reading the journal with a limit below one does not mean "nothing" or "everything": it looks at
  the newest readable file alone. A filter on a file holding a JSON line that is not an object
  raises, if that file has to be opened (`Journal.Tail`).

## Model

| member | source | states |
|---|---|---|
| Names.SuffixIsStripped | factory/backlog/store.py:152-159 | reading the identity behind an archive name with any suffix from 2 on gives back the original stem |
| Names.CandidateKeepsId | factory/backlog/store.py:710-717 | every archive name of a plain stem, with or without suffix, carries the identity of that stem |
| Names.CandidateInjective | factory/backlog/store.py:710-717 | two archive names of plain stems are equal only for one name and one suffix |
| Names.Insert | factory/backlog/store.py:288-292 | the entries of a directory are listed completely and in strict name order |
| Names.PlainIs | factory/backlog/store.py:152-159 | a stem is plain exactly when it is not of the form a, dot, non-empty string of digits; so an ordinary name such as task-1 is |
| Names.BaseIdIs | factory/backlog/store.py:152-159 | the identity behind a stem of that form is the a before the dot |
| Names.CarriesIs | factory/backlog/store.py:152-159 | so a stem carries an identity exactly when it is that identity and plain, or that identity with a dot and digits behind it |
| Names.CandidateIs | factory/backlog/store.py:710-717 | the first archive name is the name itself, the n-th has the stem, a dot and the decimal number n without leading zeros, and the same extension |
| Names.LessIs | factory/backlog/store.py:288-292 | name order is that of the first characters that differ, a proper prefix coming first |
| Dependencies.EventuallyRunnable | factory/backlog/store.py:365-375 | the rescanning loop ends with exactly the least set closed under "every dependency merged, in flight or in the set" |
| Dependencies.ClosedIffComplementBlocks | factory/backlog/store.py:350-357 | a set is closed under that rule exactly when the entries outside it block each other |
| Dependencies.LeftoverIsGreatestBlocking | factory/backlog/store.py:377-386 | what the sweep reports is the greatest set of entries each waiting for something that is never satisfied or in the set |
| Dependencies.OkNeedsOnlyOk | factory/backlog/store.py:365-375 | an entry found runnable needs nothing beyond what is merged, in flight or runnable |
| Dependencies.DeadlockHasACause | factory/backlog/store.py:347-386 | from every deadlocked entry a walk along missing dependencies ends at a name that is nowhere or closes a cycle of deadlocked entries |
| Dependencies.Reaches | factory/backlog/store.py:416-429 | the stack search ends on every graph and answers true exactly when a dependency path exists |
| Dependencies.Explain | factory/backlog/store.py:388-413 | each of the five reasons is given for exactly the dependencies it fits |
| Dependencies.CyclesAvoidTheMerged | factory/backlog/store.py:401-405 | for a deadlocked entry and a prerequisite it misses, there is a cycle of missing dependencies through both exactly when the entry itself is not merged or in flight and the prerequisite reaches it past no identity that is; the report asks for reachability alone |
| Dependencies.ReportedCycleIsGenuine | factory/backlog/store.py:401-405 | so with no queued identity merged or in flight every reported cycle is one, through deadlocked entries only |
| Dependencies.ReportedCycleCanBeFalse | factory/backlog/store.py:401-405 | a concrete queue in which a cycle is reported that is none |
| Queue.ItemsAreConserved | factory/backlog/store.py:433-456 | over every run of add, claim, finish, park, recover and revive each item sits in exactly one directory with the contents it was added with, none is lost, and none is claimed more than once plus its revivals |
| Queue.DoneNeverShrinks | factory/backlog/store.py:524-558 | nothing in done/ is ever removed or replaced, in any run |
| Queue.OnlyReviveReturns | factory/backlog/store.py:620-662 | an item outside the inbox comes back to it by revive alone, under its own name |
| Queue.MergingRunExists | factory/backlog/store.py:433-558 | from every state with room in done/ some run in which everything merges leaves nothing to claim or finish, in at most two steps for each queued and one for each running file |
| Queue.ArchivingLeavesGap | factory/backlog/store.py:706-724 | archiving into a directory whose suffixes have no gap leaves one exactly when the file's own name is free there and is a later archive name of a plain name whose name before is free |
| Queue.RevivingLeavesGap | factory/backlog/store.py:635-656 | a revive leaves a gap in the directory it takes from exactly when the next archive name after the one taken is in use there |
| Queue.RoomWhileFew | factory/backlog/store.py:706-724 | while at most 200 files are queued, running or done, done/ has a name left for each |
| Queue.ReadyByStems | factory/backlog/store.py:484-501 | an entry is ready exactly when for each dependency done/ holds a file whose stem carries that identity as written; no other definition takes part |
| Queue.BaseByStems | factory/backlog/store.py:347-363 | the sweep counts as satisfied exactly what the stem of a file in done/ or running/ carries |
| Finality.OthersAreNeverClaimed | factory/backlog/store.py:331-386 | for every queue: over any run of claims and finishes with any outcomes, a queued file outside the least set (`Claimables`, with every name that may be taken under done/ counted) stays queued and is never claimable |
| Finality.ClaimablesGetMerged | factory/backlog/store.py:484-558 | for every queue: in any run where everything merges and nothing is left to do, every file of the least set (with the names taken already) has left the inbox and all it can supply is in done/ |
| Finality.ClaimablesCanBeClaimed | factory/backlog/store.py:484-501 | with room in done/ each of these files becomes claimable in some run of claims and finishes |
| Finality.ClaimablesAreExact | factory/backlog/store.py:331-386 | where no entry depends on the stem of a file whose own name may still be taken, and done/ has room, the least set is exactly what some run makes claimable |
| Finality.ReportsAreFinalWhen | factory/backlog/store.py:347-386 | there the report of a sweep is final exactly when the least set has no identity that is reported |
| Finality.ReportsAreFinal | factory/backlog/store.py:347-363 | with room in done/ and no dependency on a raw stem, that is the case exactly when no queued file of a reported identity misses nothing but runnable identities |
| Finality.DeadlockIsPermanent | factory/backlog/store.py:347-363 | then, room or not, every file of a reported identity stays queued and unclaimable over any run of claims and finishes |
| Finality.RunnableEntriesGetMerged | factory/backlog/store.py:347-363 | for every queue: in any run where everything merges and nothing is left to do, every identity of the sweep's set, and every one merged or in flight before, is in done/ |
| Finality.RunnableFileIsClaimable | factory/backlog/store.py:347-363 | with room in done/, a queued file that misses nothing but runnable identities becomes claimable in some run |
| Finality.StaysQueuedWhen | factory/backlog/store.py:347-386 | in such a settled queue with room, a file stays queued and unclaimable over all runs exactly when it is outside the least set |
| Finality.TwinIsClaimable | factory/backlog/store.py:363-386 | a concrete queue with two files of one identity, reported as deadlocked while one of them is claimable at once |
| Finality.RawNeedIsMet | factory/backlog/store.py:347-375 | a queue whose entry depends on `T.2` as it stands is reported, and the entry becomes ready when `T.2` is merged as `T.2.2` |
| Finality.OrderDecides | factory/backlog/store.py:347-375 | a queue in which the order of two merges decides whether a reported entry becomes ready, so the least set is not exact there |
| Backlog.Store.ValidMeansConserved | factory/backlog/store.py:228-456 | whatever calls the queue object has seen, each item is in one directory and was dispatched at most once more than revived |
| Backlog.Store.Listing | factory/backlog/store.py:276-292 | all entries of a directory, in name order |
| Backlog.Store.Add | factory/backlog/store.py:248-274 | a free name gets the entry, a taken one is refused and nothing changes |
| Backlog.Store.Claim | factory/backlog/store.py:433-456 | any entry, whether its dependencies are met or not, moves to running/ exactly when it is there and its name is free there; otherwise nothing changes |
| Backlog.Store.ClaimNext | factory/backlog/store.py:484-501 | takes the first entry in name order whose dependencies are all in done/ and whose name is free; none means no such entry |
| Backlog.Store.BlockedByDeps | factory/backlog/store.py:331-345 | exactly the entries the claim skips, each with exactly the dependencies it lacks |
| Backlog.Store.Deadlocked | factory/backlog/store.py:347-386 | reports exactly the identities outside the least closed set, each under the last file in name order that carries it, with exactly what it lacks, which is never nothing; every reported file outside the least set of claimable files stays queued and unclaimable, and with unique identities and no dependency on a raw stem every reported file does |
| Backlog.ReportedStayQueued | factory/backlog/store.py:347-386 | a reported file stays queued and unclaimable over every run of claims and finishes unless it is in the least set of claimable files, which it is not when no file hides behind another of its identity and nothing depends on a raw stem |
| Backlog.Store.ParkFile | factory/backlog/store.py:692-755 | the file gets the first free archive name; refused only when all 200 are taken, and then nothing changes |
| Backlog.Store.Finish | factory/backlog/store.py:524-542 | Merged goes to done/, BlockedHardGate to blocked/, Escalated and Error to needs-human/, each under a name that was free; refused only for an unknown outcome or a full directory |
| Backlog.Store.ParkDeadlocked | factory/backlog/store.py:664-690 | moves exactly the deadlocked entries to needs-human/, which keeps what it had and gains nothing else, and leaves every other file alone; it stops midway only at an entry whose 200 archive names are all taken |
| Backlog.Store.Recover | factory/backlog/store.py:757-796 | stale entries go from running/ to needs-human/, never to the inbox; only those stay whose 200 archive names are taken, and with nothing running nothing changes |
| Backlog.Store.Revive | factory/backlog/store.py:600-656 | only from needs-human/ or blocked/, only onto a free inbox name, under the same name; refused as well when 200 old results are archived |
| Loop.LoopReport.Bump | factory/backlog/loop.py:118-124 | every outcome, known or not, raises exactly one counter |
| Loop.LoopReport.Record | factory/backlog/loop.py:291-306 | spend, streak and counters are those of the trail of dispatches with the new one at its end |
| Loop.LoopReport.CountsAddUp | factory/backlog/loop.py:97-124 | dispatched equals merged plus escalated plus blocked plus errors |
| Loop.OutcomesPartition | factory/backlog/loop.py:118-124 | the four counters split any trail of dispatches |
| Loop.BudgetBoundsDispatches | factory/backlog/loop.py:185-205 | with budget B, breaker k and priced dispatches at c or more, at most k times ceil(B/c) dispatches, and the final spend stays below B plus the last cost |
| Loop.BudgetBoundIsReached | factory/backlog/loop.py:185-205 | for every budget and every c above 0 some trail that the limits let through is that long |
| Loop.LimitsHold | factory/backlog/loop.py:185-205 | over every trail the limits let through: never more than max_tasks, one under once, none with a negative limit, and the spend before the last dispatch was below the budget |
| Loop.BreakerHolds | factory/backlog/loop.py:199-205 | with a breaker of k, any k dispatches before the last hold one that was priced |
| LongestRun.BoundIsReachedByTheLoop | factory/backlog/loop.py:185-320 | for every budget, breaker and c the loop itself, run on a long enough queue, makes exactly that many dispatches |
| Loop.NothingReadyMeansAllDeadlocked | factory/backlog/loop.py:264-279 | with nothing running and nothing claimable the sweep finds no entry runnable |
| Loop.AfterParkingAll | factory/backlog/loop.py:269-289 | one pass of archiving then empties the inbox exactly when no two entries share an identity |
| Loop.BacklogLoop.LimitHit | factory/backlog/loop.py:185-205 | the loop goes on exactly while no stop was requested and no limit is reached; planned ends win over the breaker |
| Loop.BacklogLoop.NothingToClaim | factory/backlog/loop.py:264-289 | whatever runs and whatever has come in: with no full archive a non-watching loop takes exactly the files that stand for deadlocked identities out of the inbox and reports waiting exactly when some file that is not ready has a raw stem that is no such identity; it fails only on an entry with all 200 names taken |
| Loop.BacklogLoop.DispatchOne | factory/backlog/loop.py:291-379 | one claimed entry is recorded with its result and archived; a raised dispatch raises errors and streak by one, costs nothing and is archived under needs-human/, a returned one goes where its outcome says; done/ gains nothing but its identity or raw stem, and only when it merged |
| Loop.BacklogLoop.Run | factory/backlog/loop.py:248-320 | for any queue and every idle mode, with results, arrivals (also between a failed claim and the look at what waits), time and stop requests from any script: each tick is one pass, which claims and dispatches the first ready file whose running name is free, or finds none claimable and archives exactly the deadlocked ones, and the passes' claims are the dispatches in order; no pass begins after a request to stop or once the runtime limit is reached; every dispatch was let through by the limits and came after all its dependencies were merged; recovery leaves only entries whose archive is full; a loop that does not watch skips nothing that was queued; each reason to stop is given only in its case, and one that leaves as waiting or empty has swept the queue as it found it, in which, with nothing running after recovery, nothing was ready but what had just come in |
| Loop.NobodyIsSkipped | factory/backlog/loop.py:258-306 | in such a history, watching or not, every pass finds a file without prerequisites still queued until it is claimed, and unless its running name is taken claims it or one before it in name order |
| Loop.SweptMeansEmptied | factory/backlog/loop.py:264-289 | when nothing was ready either, the sweep emptied the inbox exactly when identities were unique, and says waiting exactly when some raw stem was no queued identity |
| Loop.DrainedMeansEmpty | factory/backlog/loop.py:264-289 | so with plain names in the start inbox and among the arrivals it does not leave as waiting, and with no two of them of one identity the inbox is empty |
| Loop.RevivedEntryIsReportedAsWaiting | factory/backlog/loop.py:271-273 | running the loop on a queue whose only entry has a suffixed stem, as a revived `T.2` has, and an unmet dependency: it archives the entry, the inbox is empty, and it reports waiting for dependencies |
| LinkProtocol.EveryInterleavingIsSafe | factory/backlog/store.py:433-456 | over all advised interleavings of adding, claiming, archiving, recovering and reviving, with deaths anywhere: a running name has one owner and its file is there, no file is lost and none appears but those added, and archived files are removed only by reviving them and never overwritten |
| LinkProtocol.AdviceIsNeeded | factory/backlog/store.py:433-456 | the advice (whoever starts to work on a path finds nobody at it, and nothing is revived while it is being archived) is exactly what keeps the processes from meeting: a step keeps that up if and only if it is advised |
| LinkProtocol.EveryInterleavingKeepsNames | factory/backlog/store.py:706-733 | over all interleavings without revives, advised or not: archive names stay taken, names handed out by links are distinct, and failure means all 200 names are taken |
| LinkProtocol.SecondOwnerWhen | factory/backlog/store.py:757-812 | a running name gets a second owner exactly when recovery takes up a name that somebody holds |
| LinkProtocol.OverwritesWhen | factory/backlog/store.py:735-750 | an archived file is overwritten exactly when a process drops a source that turned out to be another file than its target |
| LinkProtocol.LosesWhen | factory/backlog/store.py:444-456 | a file is lost exactly when the name that an unlink takes away, or a replacement takes over, is its last one |
| LinkProtocol.TwoRecoverersShareAName | factory/backlog/store.py:757-796 | a run against the advice: two processes recover one leftover, and both come to hold one name |
| LinkProtocol.TwoArchiversOverwrite | factory/backlog/store.py:735-750 | a run against the advice: two processes archive one queued file, a new one arrives under its name, and an archived file is overwritten |
| LinkProtocol.ClaimAndArchiveLose | factory/backlog/store.py:444-456 | a run against the advice: a file is claimed and archived at once, a new one arrives under its name, and the unlink takes away its only name |
| LinkProtocol.SegmentsKept | factory/backlog/store.py:706-724 | each single step that is no revive keeps the suffixes of every plain name an initial segment |
| LinkProtocol.ArchiveKeptByStep | factory/backlog/store.py:735-750 | with nobody in another's way no single step overwrites an archived file, or removes one but by reviving it |
| LinkProtocol.IdleIsGuarded | factory/backlog/store.py:692-755 | any disk whatever, with no process under way, is a start for those runs |
| LinkProtocol.SuffixesHaveNoGaps | factory/backlog/store.py:706-724 | from plain queued and running stems and archives without suffix gaps, no interleaving without revives makes a gap while what arrives has a plain stem, advised or not |
| LinkProtocol.NoFileIsDoubled | factory/backlog/store.py:735-750 | over advised interleavings without a death between a link and its unlink, revives and arrivals included, a file has two names only between a link and its unlink |
| LinkProtocol.IdleIsOrderly | factory/backlog/store.py:692-755 | any idle disk on which no file has two names is a start for those runs |
| LinkProtocol.DyingInBetween | factory/backlog/store.py:735-750 | a dying process leaves a file under two names exactly when it dies between its link and its unlink |
| LinkProtocol.ClaimAndFinishAlone | factory/backlog/store.py:433-456 | from any disk an undisturbed process can claim a queued file whose running name is free and archive it under the first free archive name, by its own steps alone, with the effect of the two atomic moves |
| LinkProtocol.ParkAlone | factory/backlog/store.py:706-750 | and so can one that archives from any directory |
| LinkProtocol.StuckAlone | factory/backlog/store.py:706-724 | with all 200 names taken an undisturbed process ends without one, and the disk is as it was |
| LinkProtocol.SourceGoneAlone | factory/backlog/store.py:210-225 | one whose source has gone takes up the first name that looks free without reserving it, finds nothing there and leaves the disk as it was |
| LinkProtocol.DroppingDoes | factory/backlog/store.py:735-750 | two names found to be one file lose the source; otherwise the source replaces another file at the target, and two names of one file stay |
| Dispatcher.MergeReports | factory/dispatcher.py:497-537 | faults and findings are sorted out of all gating reports in order; it blocks exactly unless no gating claim stands, architecture findings of the last round excepted |
| Dispatcher.OnlyClaimsBlock | factory/dispatcher.py:515-537 | one more report keeps the merge open exactly when it is not gating, names no claim, or has only architecture findings in the last round |
| Dispatcher.FirstBreach | factory/dispatcher.py:601-612 | the gates are passed in order and the first one breached stops the round |
| Dispatcher.ApprovedReviewMeansPass | factory/dispatcher.py:561-624 | a round is approved exactly when the worker succeeded with changes, every gate and the criteria stand as before round 1, and no review stands against it |
| Dispatcher.MergedMeansUntouched | factory/dispatcher.py:291-310 | a gate that compares for difference has in the merging round the value it had before round 1, whatever the worker did in between |
| Dispatcher.GradeNeverDecreases | factory/dispatcher.py:386-424 | the grade only gets more severe and covers every round's grade of the changed paths |
| Dispatcher.Dispatcher.JudgeRound | factory/dispatcher.py:369-489 | stall breaker, later grading, review and merging decide each round as the independent predicates say |
| Dispatcher.Dispatcher.PlayRound | factory/dispatcher.py:320-489 | one attempt row and one call of the harness per round, carrying the feedback of the round before, settled by the decision |
| Dispatcher.Dispatcher.FeedbackIs | factory/dispatcher.py:515-537 | a worker is told, after the first round, just what gating supervisors found, without their own faults and with architecture findings last |
| Dispatcher.Dispatcher.Loop | factory/dispatcher.py:286-492 | the rounds played are the least r up to max_rounds at which a round ends, or max_rounds when none does, and none only for max_rounds below one; the outcome, grade and feedback are those of that round; rows and calls are one per round, with the verdicts of the round on its row, and have the trace shape |
| Dispatcher.Dispatcher.RecordBlocked | factory/dispatcher.py:164-203 | a task that is not dispatched leaves exactly one escalated row |
| Dispatcher.Dispatcher.NoCallAfterTheEnd | factory/dispatcher.py:366-384 | no call of the harness follows two stalls in a row, a grade C or D of the changes, or a supervisor fault |
| Dispatcher.Dispatcher.Run | factory/dispatcher.py:245-282 | declared C or D or a dangling reference: no call of the harness and one escalated row naming which; declared A or B with a resolving reference: at least one round is played when max_rounds allows one, there is one row and call per round, and it merges exactly when some round passes that no earlier one ended; the final grade then is A or B, no less severe than the declared one |
| Dispatcher.Dispatcher.RoundsPlayed | factory/dispatcher.py:318-492 | the number of rounds lies between 1 and max_rounds (0 only when that is below one), no earlier round ended, and it is below max_rounds only when its round ended |
| Dispatcher.Dispatcher.MergesWhen | factory/dispatcher.py:369-470 | merged exactly when some round that is reached passes; stopped at the hard gate exactly when some round that is reached changes class D paths without a second stall |
| Dispatcher.GradeIsTheWorst | factory/dispatcher.py:386-424 | the reported grade is the declared one or that of some round's changes, and none of these is more severe |
| Dispatcher.StalledOut | factory/dispatcher.py:366-384 | the stall breaker opens exactly at a round that stalled directly after one that stalled |
| Dispatcher.BreachIsFirst | factory/dispatcher.py:601-612 | the gate that is reported breached is breached, and every gate before it stands |
| Dispatcher.FailureIsNamed | factory/dispatcher.py:561-624 | a worker that failed is reported as that and nothing else |
| Dispatcher.BreachIsNamed | factory/dispatcher.py:561-624 | a breached gate is reported as that and nothing else, before criteria and reviews |
| Dispatcher.ChangedCriteriaAreNamed | factory/dispatcher.py:561-624 | changed criteria are reported as that, after the gates and before the reviews |
| Dispatcher.FaultsByName | factory/dispatcher.py:515-537 | a claim is a supervisor fault exactly when its check is called supervisor- and something |
| Dispatcher.Dispatcher.UpstreamIsTheWorker | factory/metrics.py:307-335 | a rework counts as upstream when the worker failed, and not when it succeeded and no review names the harness |
| Dispatcher.NextNoIs | factory/audit/store.py:140-160 | an attempt is numbered one past the highest number of its task, starting with one |
| Audit.NumberingSurvivesRaces | factory/audit/store.py:125-164 | however inserts race, attempts of a task are numbered 1 to n, no number is handed out twice, and giving up means at least eight rows were added by others meanwhile |
| Audit.InsertIsNext | factory/audit/store.py:140-160 | an insert that passes the uniqueness check adds the next number |
| Audit.UndisturbedInsert | factory/audit/store.py:125-164 | a caller that nobody disturbs opens an attempt under the next number at its first try |
| Audit.LosingCostsATry | factory/audit/store.py:133-164 | a lost race costs one of the eight tries and writes no row, and with no try left the caller gives up |
| Audit.AttemptsPileUp | factory/audit/store.py:125-164 | for every n some run gives a task exactly n attempts |
| Audit.GivingUpMeansEight | factory/audit/store.py:133-164 | a caller that gave up has seen its task gain at least eight rows since it began |
| Audit.TraceReworks | factory/dispatcher.py:448-484 | one dispatch leaves one rework fewer than its rounds, split into worker and upstream |
| Audit.ReworkPlusUpstreamIsExtraRounds | factory/metrics.py:307-335 | over any audit written by dispatches, one after another or interleaved as parallel ones are, rework plus upstream rework is the total of rounds less one per dispatch |
| Audit.CountIgnoresOrder | factory/metrics.py:307-335 | the rework figures depend on which rows there are and not on their order |
| Audit.CountIs | factory/metrics.py:307-335 | each figure is the number of rows that were sent back with that cause |
| Audit.Gate3Rework | factory/metrics.py:322-335 | the accumulating loop yields the dispatched tasks and both counts, which sum up to the extra rounds of whatever dispatches wrote the rows |
| AdminChat.Conversation.ApplySeen | factory/control/agent_routes.py:731-780 | reconciling ends exactly the open messages whose record is over, or that have no record while they are as they were seen and either of an earlier process or past the dispatch, each with the status and text of its case; it reports a change exactly when there is one |
| AdminChat.Conversation.SettleMsg | factory/control/agent_routes.py:935-954 | ends the open message of a job and no other |
| AdminChat.Conversation.MarkRegistered | factory/control/agent_routes.py:924-930 | marks the queued message of a job as registered and no other |
| AdminChat.Conversation.EndedStayAsTheyWere | factory/control/agent_routes.py:650-961 | whatever steps a stored conversation has seen, messages that had ended at any earlier time are unchanged and none was dropped |
| AdminChat.InvStep | factory/control/agent_routes.py:704-961 | each step of sender, job, poller, cancel or restart keeps what is known about every message and every held observation |
| AdminChat.EndedMessagesNeverChange | factory/control/agent_routes.py:733-738 | in every run an ended message keeps its status and text, and messages are never dropped |
| AdminChat.StalePollsNeverMislead | factory/control/agent_routes.py:718-764 | in every run a poll with however old observations ends a message of the running process only with the terminal outcome its job record carries now, never as lost, unsaved or restarted |
| AdminChat.EarlierMessagesEndAsRecorded | factory/control/agent_routes.py:733-780 | in every run a poll with however old observations ends a message of an earlier process with the status and error its record carries, and as interrupted by the restart exactly without a record; and no poll makes any message completed |
| AdminChat.AnswersStay | factory/control/agent_routes.py:886-954 | an answer always reaches its open message and stays there through every later run |
| AdminChat.EndingsStay | factory/control/agent_routes.py:886-961 | a failure, a cancellation or a refused dispatch ends its open message as just that with its text, and stays there through every later run |
| AdminChat.PollersRemember | factory/control/agent_routes.py:704-733 | what a poll has seen stays with it through every step of others, so however stale an observation may be, it may still be applied |
| AdminChat.CanBeAnswered | factory/control/agent_routes.py:886-954 | for every job and text some run from the empty conversation ends with the answer in its message and the record completed |
| AdminChat.CanBeInterrupted | factory/control/agent_routes.py:751-780 | and some run ends, after a restart and one poll, with the message interrupted for want of a receipt |
| AdminChat.FreshPollsDecide | factory/control/agent_routes.py:704-770 | a poll on a fresh look leaves a message open exactly while the running process may still end it; one poll ends what an earlier process left open |
| TaskOrder.OrderedTasks | factory/control/continuous_migration.py:22-46 | succeeds exactly on non-empty plans with safe, unique ids, existing dependencies and no cycle, and returns a permutation with dependencies first |
| TaskOrder.Search.Visit | factory/control/continuous_migration.py:33-43 | the recursive visit ends, puts a task and all it needs into the order, and fails only on a missing dependency or a cycle |
| TaskOrder.Index | factory/control/continuous_migration.py:26-31 | the plan by id, refused exactly for an unsafe or repeated id |
| TaskOrder.UnsafeIds | factory/control/continuous_migration.py:26-31 | an id that is empty or has a slash, dot, blank, tilde or colon is refused, letters, digits, underscore and hyphen are not |
| TaskOrder.OrderedMeansAcyclic | factory/control/continuous_migration.py:32-46 | an order with dependencies first rules out every cycle |
| TaskOrder.LoadEvidence | factory/control/continuous_migration.py:70-79 | evidence is accepted exactly when no task appears twice and no work lies outside the plan |
| TaskOrder.Replayable | factory/control/continuous_migration.py:70-84 | accepted exactly when no task appears twice, no work lies outside the plan and the finished tasks are closed under dependencies; completed and unfinished are the plan split in two, each task once, both in plan order |
| TaskOrder.ReplayKeepsOrder | factory/control/continuous_migration.py:116-134 | replaying a closed set of tasks in plan order never replays a task before what it needs |
| PackDigest.DigestIdentifies | factory/control/capability_packs.py:50-57 | two candidates of safe paths have one digest exactly when they list the same contents path by path, and then they hold the same files |
| PackDigest.LinesInjective | factory/control/capability_packs.py:56 | the lines of path and hash can be read back unambiguously |
| PackDigest.SortIsStable | factory/control/capability_packs.py:56 | sorting by path keeps the order of entries under one path |
| PackDigest.OrderIndependence | factory/control/capability_packs.py:50-57 | the digest is the same for every order of the files exactly when no path has two contents |
| PackDigest.PartsAre | factory/control/capability_packs.py:60-64 | the parts of a path are the pieces between slashes that are neither empty nor a single dot |
| PackDigest.UnsafeNames | factory/control/capability_packs.py:60-64 | a path that is empty, longer than 255 characters, absolute, with a backslash, colon or control character, with .. or any other piece with a leading dot but .gitignore is refused |
| PackDigest.SafeNames | factory/control/capability_packs.py:60-64 | and every other path of at most 255 characters is accepted |
| Packs.OneNameTwoContents | factory/control/capability_packs.py:377-424 | a concrete draft whose update lists one path with two contents: it is accepted in either order, with different digests |
| Packs.InvRun | factory/control/capability_packs.py:459-508 | every run keeps versions evidenced, numbered and holding the tool contract, drafts digested and bindings and tasks pinned to existing versions |
| Packs.PublishedMeansEvaluated | factory/control/capability_packs.py:481-500 | in every reachable state a version has a passing evaluation of its own pack, and whatever files that evaluation covered are exactly the version's files |
| Packs.StaleEvidenceIsRefused | factory/control/capability_packs.py:485-489 | a candidate whose files differ from what was evaluated cannot be published on that evaluation |
| Packs.VersionsAreNumbered | factory/control/capability_packs.py:490-499 | in every reachable state the versions of a pack are numbered 1 to n in the order they were cut |
| Packs.OneTakerPerRevision | factory/control/capability_packs.py:477-503 | of all publishes and draft changes holding one expected revision at most one takes effect, so two publishes never cut two versions, whatever happens in between |
| Packs.RunGrows | factory/control/capability_packs.py:377-508 | versions, evaluations and task snapshots are never changed or removed, and draft revisions never go back |
| Packs.RepetitionsReplay | factory/control/capability_packs.py:199-216 | a repeated publish or task request changes nothing and gives the first result, exactly when no evaluation was saved under its key since; otherwise it is a conflict |
| Packs.StrangersAreDenied | factory/control/capability_packs.py:225-229 | a request on a pack by an actor that is neither its owner nor an admin leaves every table as it is and is answered with a denial, save that unacceptable uploads are refused before |
| Packs.StrangersChangeNothing | factory/control/capability_packs.py:225-229 | over any run of requests by such actors the draft, versions, evaluations and owner of a pack stay as they are |
| Packs.PublishesWhen | factory/control/capability_packs.py:459-508 | a new publish cuts a version exactly when its actor owns the pack or is admin, the expected revision is the current one, the draft holds the tool contract, and the evaluation named is of this pack, covers these files and passed |
| Packs.UpdatesWhen | factory/control/capability_packs.py:377-424 | a draft changes exactly when the uploads are acceptable, the actor owns the pack or is admin and the expected revision is the current one; it then holds just those files under the next revision |
| Packs.EvaluatesWhen | factory/control/capability_packs.py:434-457 | an evaluation is saved exactly when the actor owns the pack or is admin |
| Packs.BeginsWhen | factory/control/capability_packs.py:768-785 | under a new key the job of an evaluation is registered exactly for the owner or an admin, and the key then stands for this pack, these files and this job |
| Packs.BindsWhen | factory/control/capability_packs.py:522-549 | a binding changes exactly when some version may be bound by this actor at this expected revision, and then to that version with its number and digest |
| Packs.UnbindsWhen | factory/control/capability_packs.py:551-557 | the owner or an admin removes a binding, and no other binding |
| Packs.CreatesTaskWhen | factory/control/capability_packs.py:648-695 | a new task is made exactly when the pack is bound to the agent, to a version that exists, and every input exists and is the actor's own or the actor is admin |
| Packs.FrozenFacts | factory/control/capability_packs.py:657-690 | a new task freezes a version that exists, with its own number and digest |
| Packs.Store.VersionsAreEvidenced | factory/control/capability_packs.py:459-508 | whatever requests a store has seen, each of its versions has a passing evaluation of its own pack that identifies the version's files |
| Packs.Store.VersionsCountUp | factory/control/capability_packs.py:490-499 | and the versions of a pack are numbered 1 to n |
| Packs.Store.NothingIsTakenBack | factory/control/capability_packs.py:317-695 | and versions, evaluations and task snapshots it had at any earlier time are still there, unchanged |
| Packs.RepetitionRefused | factory/control/capability_packs.py:434-477 | a concrete run in which a publish sent twice is refused the second time, because an evaluation was saved under its key |
| Packs.Store.CheckUploads | factory/control/capability_packs.py:380-392 | accepted exactly when there are 1 to 200 files, each with a safe path and at most 2 MiB, and at most 8 MiB in all |
| Packs.InputsReply | factory/control/capability_packs.py:665-673 | a task is refused exactly when some input is missing or someone else's |
| DurableQueue.Queue.Enqueue | factory/control/autonomy.py:113-125 | opens a round exactly when the phase is one of the three and the last round of the key is finished or, for a continuation, running; it then waits under the next generation, and nothing else changes |
| DurableQueue.Queue.Claim | factory/control/autonomy.py:127-144 | hands out the generation exactly when that round is waiting, which then runs; nothing else changes |
| DurableQueue.Queue.Finish | factory/control/autonomy.py:146-159 | retires a round, and says so, exactly when it is running and the generation given, if any, is its own |
| DurableQueue.Queue.EachRoundOnce | factory/control/autonomy.py:113-163 | whatever a queue has been asked, the rounds of a key are numbered without a gap and each was handed out at most once, in order |
| DurableQueue.RetiredForGood | factory/control/autonomy.py:146-163 | a round that is over or replaced never runs again, whatever follows |
| DurableQueue.GenerationsAreConsecutive | factory/control/autonomy.py:117-124 | over every run the generations created for a key are consecutive |
| DurableQueue.ClaimsIncrease | factory/control/autonomy.py:127-144 | over every run claimed generations strictly increase, so each is taken at most once, and none is taken before it exists |
| DurableQueue.OwnRoundOnly | factory/control/autonomy.py:146-159 | finishing with the generation taken retires that round exactly when nothing ended or replaced it since, and otherwise changes nothing |
| DurableQueue.WaitsUntilTaken | factory/control/autonomy.py:113-163 | a waiting generation goes on waiting through every run without a claim of it or a reset |
| DurableQueue.HandedOutOrWaiting | factory/control/autonomy.py:113-163 | in every run without a reset a waiting generation is handed out or waits still |
| DurableQueue.WithoutGenerationRetiresAnother | factory/control/autonomy.py:149-155 | a concrete run in which finishing without a generation retires a later round |
| DurableQueue.GenerationMattersWhen | factory/control/autonomy.py:149-155 | leaving the generation out makes a difference exactly when a later round of the key is running by then |
| Feedback.BatchFacts | factory/control/agents.py:715-721 | a batch is the longest run of the oldest messages within 50,000 characters, or the oldest message alone |
| Feedback.Conversation.TakeBatch | factory/control/agents.py:715-721 | the batching loop takes exactly that batch |
| Feedback.Conversation.AdoptFeedback | factory/control/agents.py:686-779 | a successor run appears exactly when the run has reached a safe boundary and some feedback is neither settled nor answered in it; it gets the batch of that feedback, oldest first, with one note in the conversation; answered messages settle with the current run |
| Feedback.Conversation.SettleFeedback | factory/control/agents.py:820-828 | exactly the pending messages named, or all, are adopted into the run, the others stay as they are |
| Feedback.Conversation.NothingIsLost | factory/control/agents.py:686-861 | whatever calls a conversation has seen, every message it ever had is there, an adopted one with the run it was adopted into |
| Feedback.Conversation.SuccessorsGotInOrder | factory/control/agents.py:686-779 | and the messages its successor runs were made for stand at increasing places of the conversation |
| Feedback.AdoptedOnce | factory/control/agents.py:686-779 | over every run a message is adopted at most once, into one run, and never lost |
| Feedback.BatchIsAdopted | factory/control/agents.py:696-777 | the messages that go to the successor run are exactly its batch |
| Feedback.AdoptionMarks | factory/control/agents.py:686-779 | an adoption settles what was answered with the run, gives the batch to the successor and leaves every other message as it is |
| Feedback.TakenInOrder | factory/control/agents.py:686-779 | over every run, with answers inside the run, clarifications, retries and new runs in between, messages are handed to successor runs in order of arrival, each at most once |
| Feedback.FirstInFirstOut | factory/control/agents.py:686-779 | when nothing but appends, boundaries and adoptions happens, what successor runs got plus what waits is exactly what waited plus what arrived, in order |
| Feedback.BoundariesDrain | factory/control/agents.py:712-721 | as many safe boundaries as waiting messages empty the queue |
| Feedback.DrainsInOrder | factory/control/agents.py:712-721 | the batches then are the whole queue in order of arrival |
| LoginWindow.AuthStore.Login | factory/control/auth.py:228-302 | refused exactly when the account has five failures and the first is less than 300 seconds old, granted exactly when not and the account is active with that password; a failure counts up in its window or opens a new one, a success clears it; no other account's window changes, and there is a new session exactly when granted |
| LoginWindow.AtMostNineFailures | factory/control/auth.py:256-282 | any 300 seconds without a successful login hold at most nine evaluated failures of an account |
| LoginWindow.NineIsReached | factory/control/auth.py:256-282 | nine is reached |
| LoginWindow.RefusalNeedsFiveRecentFailures | factory/control/auth.py:255-267 | an attempt is refused only on five failures evaluated less than 300 seconds ago, so an expired window refuses nobody |
| Revisions.AdaptationStore.Claim | factory/control/api_adaptation.py:331-372 | a new key creates a task, with the next revision and linked both ways, exactly when the predecessor read exists and has no successor yet; a known key gives its task or, with other content, a conflict; a refused claim leaves no rows behind |
| Revisions.AdaptationStore.NothingIsRebound | factory/control/api_adaptation.py:331-391 | whatever transactions a store has seen, each key stands for a task with its content, and keys, places in lineages and bound executions it had at any earlier time are still the same |
| Revisions.AdaptationStore.Revise | factory/control/api_adaptation.py:520-548 | another project or unchanged content is refused, everything else claims a successor |
| Revisions.LineagesAreChains | factory/control/api_adaptation.py:331-372 | however reads, claims and links of any number of callers interleave, successor and predecessor links are inverse, revisions grow by one, and one lineage has one task per revision |
| Revisions.ChainsInEveryRun | factory/control/api_adaptation.py:520-548 | every step keeps that and that what a caller has read, however long ago, carries the right revision |
| Revisions.LineageCounts | factory/control/api_adaptation.py:340-345 | the k-th task of a lineage has revision k and points to the next, so there is no cycle |
| Revisions.NoForks | factory/control/api_adaptation.py:362-371 | two tasks of one lineage with one revision are the same task |
| Revisions.KeysRun | factory/control/api_adaptation.py:347-360 | in every run each key stands for a task with its fingerprint, and no task has two keys |
| Revisions.EverythingLasts | factory/control/api_adaptation.py:331-391 | a key's task and content, a task's place in its lineage and a bound execution never change |
| Revisions.RepeatedClaims | factory/control/api_adaptation.py:347-358 | claiming a key again after any run returns its task untouched, or is refused when the content differs |
| Revisions.OneSuccessor | factory/control/api_adaptation.py:362-371 | of all revisions of one task, by whichever callers with whatever they have read, at most one ever creates a successor |
| Revisions.RevisesWhen | factory/control/api_adaptation.py:520-548 | under a new key a revision by a caller that has read its predecessor takes place exactly when it stays in the project, changes the content and the predecessor has no successor yet; it then stores the next revision and the link to it, and nothing else changes |
| Revisions.LineagesGrow | factory/control/api_adaptation.py:331-372 | for every n some run leads to one lineage of revisions 1 to n + 1, linked both ways |
| Revisions.LinkingSuccessors | factory/control/api_adaptation.py:374-391 | setting a successor by link keeps the chains exactly when it sets what is there |
| Journal.Tail | factory/backlog/journal.py:70-99 | with a positive limit, exactly the last rows of the filtered whole in name order although reading stops early; it raises exactly when a file it has to open breaks |
| Journal.ReadRows | factory/backlog/journal.py:82-94 | one file's passing rows in order; junk lines are skipped |
| Journal.RowsAre | factory/backlog/journal.py:82-94 | the rows read are exactly the objects of the wanted kind, each once, in the order of their lines |
| Journal.EnoughSeen | factory/backlog/journal.py:95-99 | once the newest files hold enough rows, older files cannot change the answer |
| Journal.PutKeepsOrder | factory/backlog/journal.py:45-62 | writing keeps the day files in name order |
| Journal.NewestComesLast | factory/backlog/journal.py:49-99 | a record written on the newest day is the last of everything read back |

## Left out

- Backlog.Store.Add: does not model two producers adding at once or the size limit; the existence check and the write are one step.
- Backlog.Store.ParkFile: does not model the fallback for file systems without hard links (store.py:210-225), whose window the code documents itself; LinkProtocol models it where it is entered because the source has gone.
- Backlog.Store.Deadlocked: does not model the sorted order of the reports or the wording of the reasons; `Dependencies.Explain` gives the case of each dependency.
- Backlog.Store.Recover: takes the set of stale entries as a parameter; liveness by pid and by file age is not modelled.
- Backlog.Store.Revive: the count of archived old results is a parameter, and the renamed result and the note file are not modelled.
- Names.SuffixIsStripped: digits are the ASCII digits and stems do not end in a newline, while the source's pattern also takes other Unicode digits and a number before a final newline.
- Loop.BacklogLoop.Run: covers any finite stretch of the environment's behaviour; arrivals between listing the blocked entries and the sweep that follows, signals, heartbeats and log lines are not modelled, and time limits are compared on the modelled clock.
- Loop.BacklogLoop.NothingToClaim: the report's counts of recovered entries, archived entries and idle polls are kept, and nothing is stated of them.
- LinkProtocol.EveryInterleavingIsSafe: adding and reviving check for the name and write in one step, so two producers of one name are not modelled; claim files are not on the disk, and which running file counts as stale is free.
- LinkProtocol.NoFileIsDoubled: needs that nobody dies between a link and its unlink; a death there leaves two names for one file, which is then in two directories but never lost.
- Finality.ClaimablesAreExact: for queues that are not settled only the two bounds of `Finality.OthersAreNeverClaimed` and `Finality.ClaimablesCanBeClaimed` are proved; which files between them can be claimed depends on the order of merges.
- Dispatcher.Dispatcher.Run: supervisors, gates, grading and specification lookup are arbitrary functions; prompts, archiving, cost figures, models and the landing of the commit are not modelled.
- Audit.Gate3Rework: the per-supervisor and per-gate figures of the same file are not modelled.
- AdminChat.StalePollsNeverMislead: speaks of one conversation and of jobs registered through it; the limit of four concurrent jobs only shows as a refusal.
- Packs.Store.CheckUploads: manifest validation is a parameter; only the presence of the manifest file is modelled.
- Packs.Store.CreateDraft: reading and classifying the chosen files is a parameter; the transaction that stores them is modelled.
- Packs.FrozenFacts: the environment check and the agent's own version inside the snapshot are not modelled.
- Concurrent cancel requests of pack tasks (capability_packs.py:761-766), which check and update without an expected status.
- Feedback.Conversation.AdoptFeedback: the request text, history and provider session handed to the successor are not modelled.
- LoginWindow.AuthStore.Login: password hashing, username normalisation, tokens and session expiry are not modelled.
- Journal.Tail: day files are given as a listing in name order; parsing of lines and of dates is not modelled.
- DurableQueue.Queue.Enqueue: the operating system lock that keeps a second process away and the sixteen-row listing of waiting rounds are not modelled.
- HTTP routes, command lines, the frontend, budgets and cost policies, redaction and specification parsing: mostly input and output or single expressions.
