# Messenger backend: state machines and exact arithmetic

A Dafny model of the parts of the messenger backend whose correctness does not show in any one
function: protocols over shared tables, caches, queues and ledgers, and some exact arithmetic.
`dafny verify dfyconfig.toml` checks the whole project.

Each SQL statement, or transaction, is one atomic step, and a request that issues several can be
overtaken between any two of them. A component is described three times over:

* a `State` and a total `Step` function on actions, in which an action that is not enabled changes
  nothing; theorems speak of `RunAll(s, actions)` for *every* sequence of actions, so every
  interleaving of every number of requests, with failures anywhere, is covered;
* an inductive invariant over it, with one small lemma per action;
* a class holding the tables, whose methods follow the source statement by statement and are proved
  against the same functions: most to take exactly the machine's steps, those of `BotQueue.Updates`,
  `AntiSpam.Scores` and `Migrator.Migrator` to compute the row or ledger functions the machine is made
  of. Service methods that issue several statements take an arbitrary sequence of other requests'
  actions (`env`) and faults between them.

Time is a non-decreasing integer and new ids are fresh.

| file | component |
|---|---|
| `Comments.dfy` | mirroring channel posts into a discussion group; the discussion link |
| `BotQueue.dfy` | a bot's durable update queue |
| `FeatureFlags.dfy` | flag snapshots over a shared cache over the database |
| `Recovery.dfy` | e-mail challenges and the recovery address |
| `Migrator.dfy` | the migration runner |
| `Membership.dfy` | member counters, the member limit, ownership |
| `AntiSpam.dfy` | the decaying spam score |
| `Calls.dfy` | the call lifecycle |
| `Uploads.dfy` | multipart planning and completion |
| `BlurHash.dfy` | base-83 packing of quantised image components |
| `Phone.dfy` | phone number normalisation |
| `Common.dfy`, `Ordering.dfy` | options, rounding, `ORDER BY` |

## Where the code falls short of its comments

The members named here prove each case and say when the promise does hold.

* **A comment mirror can be left behind.** A failed withdrawal is only logged (`comments.go:402-406`),
  so two runs can both succeed and two live copies remain (`Comments.DuplicateCanRemain`). Once all runs
  on a post have ended and one has succeeded, exactly one remains if and only if no run's claim or
  withdrawal returned an error (`Comments.OneMirrorRemains`).
* **`refreshInterval` does not bound staleness.** A comment at `flags.go:30` says it does; the bound is
  two intervals (`FeatureFlags.StaleByTwoIntervals`), nearly attained when a cache delete fails
  (`FeatureFlags.OneIntervalIsNoBound`). Whatever a load read and however long ago, the node keeps within
  one interval, in every continuation, if and only if the table still holds that content when it is
  installed (`FeatureFlags.InstallWithinOneInterval`): a node that reads the table itself can fail too
  (`FeatureFlags.ReadSupersededInFlight`). Over whole runs, one interval suffices when the cache is written
  atomically with the read and every write's delete succeeds within a given delay, which is then added,
  as is the time a load takes to install (`FeatureFlags.StaleByOneInterval`).
* **A score does depend on how often the sweep runs** (`antispam.go:158-162` says not), for two reasons:
  rounding (`AntiSpam.ScheduleMatters`), and a sweep passing over what another touched within the hour
  (`AntiSpam.SweepTooSoon`). Of any row and any two sweeps, the earlier makes no difference if and only if
  it finds the row not due, or the two stretches of time round alike when more than an hour apart, or the
  second stretch is worth nothing when not, or the score is spent either way
  (`AntiSpam.ExtraSweepIsHarmless`). Any two schedules that end at the same moment stay within half their
  sweeps and an hour's worth of each other (`AntiSpam.SchedulesDrift`).
* **A chat can be left without an owner.** `SetRole` checks the rank granted and not the target's own, so an
  owner can demote himself (`Membership.OwnerStepsDown`) and an admin he let manage admins can demote him
  (`Membership.AdminDeposesOwner`); and a removal or departure decided before ownership was transferred
  takes the new owner away (`Membership.NewOwnerGone`). Those are exactly the steps that do it
  (`Membership.OwnedUnlessOrphaned`). After the last departure the chat is lost exactly when the delete
  still due fails (`Membership.EmptiedUnlessFailed`, `Membership.FailedDeleteLosesChat`).
* **A chat can be deleted with members in it**, by a last departure that was not the last
  (`Membership.ChatDeletedWithMember`): over every run, exactly when the counter less the double counts is
  not zero at the delete (`Membership.DeleteTakesMembers`), and at the departure itself exactly when it
  is not one (`Membership.TakenForLast`).
* **Approving a member counts them twice, and ignores the limit** (`Membership.MemberCountedTwice`,
  `Membership.ApprovedPastLimit`). `Membership.CounterIsExact` says by how much the counter is then too
  high, `Membership.LoneOwnerLeaves` what that costs the owner, and `Membership.LimitKept` that an approval
  into a full chat is the only step over the limit.
* **A group call can go on with nobody in it**: a decline does not count who remains
  (`Calls.GroupCallLeftEmpty`, and exactly when: `Calls.EmptyOnlyByDecline`).
* **A direct call can go on with a participant who has left or declined**, when the statement that should
  have closed it fails (`Calls.LostCloseLeavesCallOpen`). In a direct call that no handler is working on,
  exactly those have left or declined whose close was lost (`Calls.CallsAreSound`).
* **A recovery code outlives the address it was sent to.** After a new address is enrolled and verified,
  a code sent to the old one still resets two-step (`Recovery.OldCodeStillResets`), because the lookup is
  by user and purpose (`recovery.go:180-184`). A code about to reset was sent to the current recovery
  address if and only if the account claims that address and has verified it, a check that confirming
  makes and resetting does not (`Recovery.ResetAddressIsCurrent`).
* **A closed upload session can still take a part.** The insert asks for no status
  (`media/repository.go:133-144`), so it does if and only if a report that read the session as active is
  in flight with a chunk the table does not hold (`Uploads.ClosedTakesOnlyLateParts`). A completion in
  flight likewise turns an aborted session into a completed one
  (`Uploads.ClosedSessionTakesPartAndCompletes`): if and only if one that read the session as active is
  about to write, or past its list, or has yet to read a list of which every part is recorded or in flight
  (`Uploads.ClosedCompletesOnlyInFlight`).
* **An abort asks for no status either** (`media/service.go:301-317`), so a completed upload can become an
  aborted one (`Uploads.AnySessionCanBeAborted`). With nothing else in flight, a closed session's status
  changes exactly when an abort writes and it was not aborted yet (`Uploads.OnlyAbortsReopen`).
* **Two Downs at a time can run one script twice**, since `Down` takes no advisory lock
  (`migrator.go:132-182`): `Migrator.OverlappingDownsCollide`. A revert takes off one file and no more
  if and only if that file is the last one applied (`Migrator.RevertsCleanly`), and over any run of any
  number of Downs the files come off one by one if and only if each revert is of that one
  (`Migrator.CleanDownsAreSafe`).
* **A bare local number that begins with 98 is taken for an international one** (`Phone.BareFormAgrees`).

## Model

| member | source | states |
|---|---|---|
| Comments.MirrorSafety | backend/internal/groups/comments.go:359-419 | in every interleaving a successful run returns the claimed row; the row names the post's own channel and a live copy; one winner; any other live copy is in flight or its claim or withdrawal failed |
| Comments.MirrorsWereAllowed | backend/internal/groups/comments.go:322-419 | over every run, each mirror was sent by a run that had read the post live in its channel, and the channel with comments on and linked to the very group the mirror is in; and no thread is handed out by a run that had not read its channel so |
| Comments.OneMirrorRemains | backend/internal/groups/comments.go:399-412 | when all runs on a post have ended and one succeeded, the root is the only live copy exactly when no claim or withdrawal returned an error |
| Comments.DuplicateCanRemain | backend/internal/groups/comments.go:402-406 | a reachable state with two successful runs, both ended, and two live copies of the post |
| Comments.ThreadsAreWrittenOnce | backend/internal/groups/comments.go:191-202 | a claimed row never changes and never disappears, whatever follows |
| Comments.LinksAreMutual | backend/internal/groups/comments.go:57-143 | in every reachable state a channel names a group exactly when the group names the channel |
| Comments.LinkingTwice | backend/internal/groups/comments.go:62-108 | linking the same two again succeeds and changes nothing, and whether comments are on is kept |
| Comments.StepKeepsInv | backend/internal/groups/comments.go:359-419 | every statement of every run, link, unlink and deletion keeps the protocol's invariant |
| Comments.Discussions.LinkDiscussion | backend/internal/groups/comments.go:62-108 | when each of the four outcomes applies, in the tables' own terms; both rows written or nothing changed |
| Comments.Discussions.UnlinkDiscussion | backend/internal/groups/comments.go:115-143 | the outcome; both sides cleared and nothing else, or nothing changed |
| Comments.Discussions.CommentThread | backend/internal/groups/comments.go:167-183 | a row exists exactly when some run won its claim on the post, and then it names a live mirror of the post in the group, and the channel, that the row says |
| Comments.Discussions.RecordCommentThread | backend/internal/groups/comments.go:191-202 | wins exactly when no row existed, and only then writes one |
| Comments.Discussions.WithdrawMirror | backend/internal/groups/comments.go:210-219 | the message is tombstoned, others unchanged |
| Comments.Discussions.MirrorPost | backend/internal/groups/comments.go:359-419 | with others' statements and faults between its own: a run of the machine that returns the claimed row or fails, and leaves no live copy of its own but the root unless its claim or withdrawal failed; a post not live in its channel is not sent; undisturbed, the copy becomes the root, or is tombstoned and the thread there is handed out |
| Comments.Discussions.ReadAndSend | backend/internal/groups/comments.go:359-392 | nothing is sent, and nothing changes, unless the post is live in its channel; undisturbed, the copy goes to the group read |
| Comments.Discussions.ClaimOrWithdraw | backend/internal/groups/comments.go:394-412 | the same from the claim on: undisturbed, the row is written exactly when there was none |
| Comments.Discussions.WithdrawAndReread | backend/internal/groups/comments.go:399-419 | what the loser of the race does: undisturbed, its copy is tombstoned and the thread there handed out |
| Comments.Discussions.CommentThreadFor | backend/internal/groups/comments.go:322-351 | a reader's request: refused, and nothing changed, when the channel has no group or its comments are off; undisturbed otherwise, the thread there is, or a new mirror of a live post and its row, or nothing |
| Comments.Discussions.ObserveMessage | backend/internal/groups/comments.go:523-544 | an observation of a post going out always ends; it changes nothing when the channel has no group or its comments are off; undisturbed otherwise, a live post is mirrored |
| Comments.Discussions.FindThread | backend/internal/groups/comments.go:322-345 | the link and then the thread read, with others between: refused as above, and otherwise a thread found, a failure, or a mirror to be made |
| Comments.Discussions.OpenLink | backend/internal/groups/comments.go:328-341 | goes on exactly when the channel has comments on and a group, and then with that group |
| BotQueue.QueueRefinesLog | backend/internal/bots/bots.go:617-681 | for every run: ids processed strictly increase, payloads are those logged, every logged update up to the offset was processed, trimmed or acknowledged, and the backlog is bounded |
| BotQueue.TrimDropsOldest | backend/internal/bots/bots.go:632-641 | a row survives the trim exactly when it is delivered or fewer than the limit of newer undelivered rows exist |
| BotQueue.TrimmedBacklog | backend/internal/bots/bots.go:632-641 | how many undelivered rows a trim leaves |
| BotQueue.TrimmedOnlyWhenFull | backend/internal/bots/bots.go:617-644 | an enqueue drops only an undelivered row with a full backlog of newer ones |
| BotQueue.SelectMembership | backend/internal/bots/bots.go:661-681 | a poll hands over exactly the undelivered rows past the offset with fewer than the limit before them |
| BotQueue.RepollReturnsUnconfirmed | backend/internal/bots/bots.go:651-681 | take any update a fetch handed over and let the client process any of the batch, crash and acknowledge, and updates arrive, in any order: it was processed, or the next fetch returns it again unless trimmed |
| BotQueue.FetchSkipsNothing | backend/internal/bots/bots.go:661-681 | whatever was logged after the offset and up to a row handed over is in the batch or accounted for |
| BotQueue.ConfirmedNotFetched | backend/internal/bots/bots.go:651-693 | what a poll or a delivery has confirmed is not handed over again from any offset |
| BotQueue.StepKeepsInv | backend/internal/bots/bots.go:617-693 | enqueue, acknowledgement, fetch, processing, crash and webhook delivery each keep the refinement invariant |
| BotQueue.Updates.Enqueue | backend/internal/bots/bots.go:617-644 | the rows after insert and trim |
| BotQueue.Updates.ConfirmUpTo | backend/internal/bots/bots.go:652-659 | nothing undelivered is left up to a positive offset, and later rows stay as they were; zero confirms nothing |
| BotQueue.Updates.Poll | backend/internal/bots/bots.go:651-681 | with any enqueues and deliveries between its two statements: the rows after both, and the batch selected from them |
| BotQueue.Updates.PendingUpdates | backend/internal/bots/bots.go:684-686 | the oldest pending rows, confirming nothing |
| BotQueue.Updates.MarkDelivered | backend/internal/bots/bots.go:688-693 | exactly the named rows become delivered |
| FeatureFlags.StaleByTwoIntervals | backend/internal/featureflags/flags.go:132-186 | for any nodes, loads, expiries, evictions and writes, a fresh node answers from content the table held less than two intervals ago, plus the time a load takes to publish and install |
| FeatureFlags.StaleByOneInterval | backend/internal/featureflags/flags.go:30-33 | over whole runs one interval suffices, plus the invalidation delay, when reads publish atomically and no invalidation fails |
| FeatureFlags.InstallWithinOneInterval | backend/internal/featureflags/flags.go:132-151 | a load of either kind, installed at any later time: in every continuation the node answers from content held within one interval while fresh and not reloaded, exactly when the table holds that content at the install |
| FeatureFlags.HitWithinOneInterval | backend/internal/featureflags/flags.go:132-160 | its instance for a hit installed in the same instant: exactly when the entry is not superseded then |
| FeatureFlags.MissWithinOneInterval | backend/internal/featureflags/flags.go:132-186 | its instance for a read of the table installed in the same instant: always |
| FeatureFlags.ReadSupersededInFlight | backend/internal/featureflags/flags.go:143-151 | a reachable node that read the table, installed after a write whose delete succeeded, and does not keep within one interval |
| FeatureFlags.OneIntervalIsNoBound | backend/internal/featureflags/flags.go:111-116 | with a failed invalidation and no other delay, a fresh node answers from content lost two intervals less 3 microseconds ago |
| FeatureFlags.StepKeepsInv | backend/internal/featureflags/flags.go:93-186 | every action keeps what ties snapshots, cache entries and loads to the table's history |
| FeatureFlags.PromptStep | backend/internal/featureflags/flags.go:93-186 | an action of a prompt run keeps superseded content out of the cache once its invalidation is due |
| FeatureFlags.RolloutIsExact | backend/internal/featureflags/flags.go:51-67 | for any stored percentage p, exactly p of every hundred hash values are admitted, p taken as 0 below 0 and 100 above; none of any number while the flag is off or absent |
| FeatureFlags.RolloutIsMonotone | backend/internal/featureflags/flags.go:49-67 | raising a rollout takes the feature from nobody |
| FeatureFlags.SetIsSeen | backend/internal/featureflags/flags.go:93-160 | a node that sets a flag and drops the shared entry answers the next question from what it wrote |
| FeatureFlags.LoadedIsARun | backend/internal/featureflags/flags.go:132-186 | an uninterrupted load is a run of the machine and leaves the node fresh |
| FeatureFlags.Cluster.Set | backend/internal/featureflags/flags.go:93-119 | out-of-range rollouts and database errors change nothing; otherwise the table holds the flag as given, the node is no longer fresh, and the shared entry is gone unless the drop fails |
| FeatureFlags.Cluster.Read | backend/internal/featureflags/flags.go:154-186 | the live entry if there is one, else the table, which then becomes the entry |
| FeatureFlags.Cluster.EnsureFresh | backend/internal/featureflags/flags.go:132-152 | a fresh node is left alone, a failed load leaves the old snapshot, a load replaces it |
| FeatureFlags.Cluster.Enabled | backend/internal/featureflags/flags.go:51-67 | the bucketed answer of the snapshot after the check; never on for a flag that is off or absent in it |
| Recovery.AttemptsAreBounded | backend/internal/auth/recovery.go:441-475 | in every interleaving at most five codes are compared with a challenge |
| Recovery.OnlyInTime | backend/internal/auth/recovery.go:178-234 | over every run, whoever drew an attempt at a challenge or was granted it had read it when it was the newest unconsumed one of its user and purpose and not expired; and it expires a fixed time after it was issued |
| Recovery.OneVerificationSucceeds | backend/internal/auth/recovery.go:225-234 | at most one verification of a challenge succeeds; it held the challenge's code, user and purpose, and the row stays consumed |
| Recovery.GrantsAreFinal | backend/internal/auth/recovery.go:225-234 | a granted challenge is never granted again |
| Recovery.RowsStay | backend/internal/auth/recovery.go:214-248 | a challenge is deleted only when out of date, is not taken back once consumed, and loses no attempt |
| Recovery.RecoveryAddressIsProved | backend/internal/auth/recovery.go:82-125 | a recovery address equals the current address, has a verification time, and was proved by a verify challenge for that user and address whose code was presented |
| Recovery.ResetsAreProved | backend/internal/auth/recovery.go:390-410 | every two-step reset used a recover challenge of that user, its code presented, sent to an address itself proved, on a request that named a proved address too |
| Recovery.ResetAddressIsCurrent | backend/internal/auth/recovery.go:151-196 | over every run, a recovery about to reset was sent its code at the current recovery address exactly when the account claims that address and has verified it; and exactly when no address was set or cleared since the lookup, or the same one was proved again |
| Recovery.OldCodeStillResets | backend/internal/auth/recovery.go:178-196 | a reachable account whose verified address is new and which was reset by a code sent to the old one |
| Recovery.StepKeepsInv | backend/internal/auth/recovery.go:441-475 | every statement of every request keeps the invariant |
| Recovery.Accounts.SetPendingEmail | backend/internal/auth/recovery.go:87-96 | the new address stands unverified and the old one's recovery is gone at once; a code already sent to it is not withdrawn |
| Recovery.Accounts.ConfirmEmail | backend/internal/auth/recovery.go:99-113 | confirms exactly when the account still claims the address |
| Recovery.Accounts.ClearEmail | backend/internal/auth/recovery.go:116-125 | address and recovery are removed together |
| Recovery.Accounts.LatestEmailChallenge | backend/internal/auth/recovery.go:178-196 | the newest unconsumed challenge of the user and purpose, or none exists |
| Recovery.Accounts.BurnEmailAttempt | backend/internal/auth/recovery.go:214-223 | one more attempt, and its number |
| Recovery.Accounts.ConsumeEmailChallenge | backend/internal/auth/recovery.go:227-234 | succeeds exactly when the row was unconsumed |
| Recovery.Accounts.ConsumeEmailCode | backend/internal/auth/recovery.go:441-475 | with others' statements and faults between its own: granted only if the challenge was read in time meanwhile; undisturbed, an expired one draws no attempt, and otherwise one attempt is paid for, the right code within the limit is granted, and that or one attempt too many spends the challenge |
| Recovery.Accounts.PayAndCompare | backend/internal/auth/recovery.go:453-474 | the same once the challenge is read in time |
| Recovery.Accounts.CompareAndConsume | backend/internal/auth/recovery.go:453-474 | the same from the drawn ticket on, the over-limit branch included |
| Recovery.Accounts.UseGrant | backend/internal/auth/recovery.go:327-340 | undisturbed: confirms exactly an address still claimed, or adds one reset; or fails because the address changed |
| Recovery.Accounts.Redeem | backend/internal/auth/recovery.go:400-405 | a code read in time, consumed and then used is a run of the machine that ends done, holding the challenge's one grant, or failed; undisturbed, the whole outcome |
| Recovery.Accounts.VerifyRecoveryEmail | backend/internal/auth/recovery.go:327-340 | a whole verification, overtaken anywhere: success means a code read in time and the challenge's one grant; undisturbed, the whole outcome |
| Recovery.Accounts.UserByRecoveryEmail | backend/internal/auth/recovery.go:151-158 | an account whose verified recovery address this is, or there is none |
| Recovery.Accounts.CompleteEmailRecovery | backend/internal/auth/recovery.go:390-410 | changes nothing when nobody has that verified address; success means a request gated by it, a code read in time and the challenge's one grant; undisturbed, the whole outcome |
| Migrator.RetriesResume | backend/internal/database/migrator.go:95-123 | after any attempts failing anywhere, the committed migrations are the first of those pending, in order and once each, and the first success equals one uninterrupted run |
| Migrator.AttemptResumes | backend/internal/database/migrator.go:79-123 | an attempt that finds n migrations applied goes on with the next |
| Migrator.UpRecords | backend/internal/database/migrator.go:79-123 | for any database, files and failures: an edited file stops everything; old records stay; each new one is a file's own name and checksum; success means every file is recorded |
| Migrator.ConcurrentUps | backend/internal/database/migrator.go:64-129 | for any processes in any interleaving, dying anywhere, the files of each being the first of one list: one lock holder, each migration committed at most once in version order, a reported success leaves nothing of its own pending, and means the state of one uninterrupted run if it has every file |
| Migrator.RollingUps | backend/internal/database/migrator.go:17-129 | the same for binaries with any files at all: no version committed twice or over a recorded one, and a reported success leaves every file of its own recorded under its own checksum |
| Migrator.OlderBinaryReports | backend/internal/database/migrator.go:79-127 | a binary all of whose versions are applied commits nothing and succeeds exactly when their checksums are its own, whatever else is applied |
| Migrator.StepKeepsInv | backend/internal/database/migrator.go:64-129 | every step of every process keeps what the lock holder has yet to apply equal to what is pending of its own files |
| Migrator.DownIsExact | backend/internal/database/migrator.go:132-182 | for any database, files, scripts and failures: Down takes the highest versions, no more than asked, each with a file whose down script is not blank; succeeds exactly when it took as many as asked or all; and otherwise the next has no file, no script, or failed |
| Migrator.RollingStep | backend/internal/database/migrator.go:64-129 | every step of every process keeps the ledger the sum of what was there and what was committed, and the lock holder right about it |
| Migrator.DownReverts | backend/internal/database/migrator.go:132-182 | with the down scripts there are inverse and the first n files applied, Down, on the files and order it computes, takes them off last first and stops early only at a failure or a missing script |
| Migrator.DescendingOrder | backend/internal/database/migrator.go:149-153 | the ledger sorted and reversed is the order of the applied files backwards |
| Migrator.FilesIndex | backend/internal/database/migrator.go:144-147 | the index Down builds finds every file under its version |
| Migrator.DownThenUp | backend/internal/database/migrator.go:55-182 | however far Down gets, Up then gives what Up alone would have; if every file has a script and nothing fails, Down(k) leaves the state before the last k files, the initial one if k covers all |
| Migrator.RevertsCleanly | backend/internal/database/migrator.go:168-174 | reverting one file of a database that holds the first n leaves the first n - 1 exactly when that file is the last one applied |
| Migrator.CleanDownsAreSafe | backend/internal/database/migrator.go:132-182 | over any interleaving of any number of Downs, all but one file per revert of the first n stay applied at every step exactly when each revert is of what is then the last file applied |
| Migrator.OverlappingDownsCollide | backend/internal/database/migrator.go:149-182 | two Down(1)s that read the ledger before either wrote leave one file recorded and none applied |
| Migrator.Load | backend/internal/database/migrator.go:295-303 | refused exactly when some version has no up script or one of white space alone, in the sense of Unicode; otherwise one entry per version in ascending order |
| Migrator.PendingMembers | backend/internal/database/migrator.go:198-204 | a file is pending exactly when its version is not applied |
| Migrator.PendingInOrder | backend/internal/database/migrator.go:198-204 | pending files keep version order |
| Migrator.Migrator.Up | backend/internal/database/migrator.go:84-129 | the loop leaves exactly the attempt's schema, ledger and verdict, checksums checked first |
| Migrator.Migrator.Edited | backend/internal/database/migrator.go:84-93 | detects exactly an applied file whose checksum changed |
| Migrator.Migrator.Down | backend/internal/database/migrator.go:132-182 | non-positive steps refused; otherwise the state and verdict of the specified run, and nothing is taken off without a down script |
| Membership.CounterIsExact | backend/internal/groups/repository.go:128-259 | over every run, member_count exceeds the active members by exactly the approvals of members already active, and a channel's subscriber_count equals it |
| Membership.RemoveKeepsCount | backend/internal/groups/repository.go:218-259 | whoever is removed was counted, so the clamp at zero never acts |
| Membership.ApprovalRole | backend/internal/groups/repository.go:621-656 | an approved newcomer is a member, whoever was here before keeps their role, and a rejection changes no member |
| Membership.ApplicationsWait | backend/internal/groups/repository.go:579-656 | an application is pending until it is decided, and may be made again |
| Membership.LimitKept | backend/internal/groups/repository.go:621-656 | a step exceeds the limit exactly when it approves a pending request into a full chat |
| Membership.OwnedUnlessOrphaned | backend/internal/groups/service.go:163-284 | from one active owner and no departed owner row, a step leaves the chat owned, deleted or about to be deleted exactly when it is not one of three named kinds |
| Membership.EmptiedUnlessFailed | backend/internal/groups/service.go:217-221 | once the last member has left, the chat is lost exactly when the one delete still due fails |
| Membership.FailedDeleteLosesChat | backend/internal/groups/service.go:217-223 | a reachable chat with nobody in it that is not deleted |
| Membership.DeleteTakesMembers | backend/internal/groups/service.go:217-223 | over every run, the delete after the last departure takes a chat that has members exactly when the counter exceeds the double counts |
| Membership.TakenForLast | backend/internal/groups/service.go:209-223 | a departure taken for the last leaves nobody exactly when one member was counted at that moment, as when the context was read then |
| Membership.DeletedBy | backend/internal/groups/service.go:411-423 | a step deletes a chat exactly when it is its owner's delete or the one after its last departure |
| Membership.ChatDeletedWithMember | backend/internal/groups/service.go:209-223 | a reachable deleted chat with an active member, its owner having read that he was alone |
| Membership.OwnershipIsSafe | backend/internal/groups/service.go:163-284 | after every run with fresh contexts, successful deletes and no role change of the owner, other requests coming between a departure and its delete, a chat neither deleted nor about to be has exactly one active owner and no departed owner row |
| Membership.OwnerStepsDown | backend/internal/groups/service.go:232-263 | a new chat whose owner made himself an ordinary member |
| Membership.AdminDeposesOwner | backend/internal/groups/service.go:233-263 | a reachable chat whose owner was made an ordinary member by an admin, one granted manage_admins |
| Membership.NewOwnerGone | backend/internal/groups/service.go:163-229 | a reachable chat whose new owner was removed, and one that he left, on contexts read before the transfer |
| Membership.MemberCountedTwice | backend/internal/groups/repository.go:621-656 | a reachable chat of two whose counter says three |
| Membership.ApprovedPastLimit | backend/internal/groups/repository.go:621-656 | a reachable chat over its member limit |
| Membership.LoneOwnerLeaves | backend/internal/groups/service.go:197-229 | an owner left alone can leave, deleting the chat, exactly when no approval was counted twice |
| Membership.TransferKeepsOwner | backend/internal/groups/repository.go:288-312 | a transfer moves ownership or, rolled back, leaves it |
| Membership.Room.AddMember | backend/internal/groups/repository.go:177-214 | when each outcome applies; joined with the role given and counted, or nothing changed |
| Membership.Room.RemoveMember | backend/internal/groups/repository.go:218-241 | exactly an active member departs, role kept, and is no longer counted |
| Membership.Room.SetMemberRole | backend/internal/groups/repository.go:262-284 | exactly an active member gets the role |
| Membership.Room.TransferOwnership | backend/internal/groups/repository.go:288-312 | when each outcome applies; both updates or neither |
| Membership.Room.ResolveJoinRequest | backend/internal/groups/repository.go:621-656 | settles exactly a pending application; active with the right role, the double count included |
| Membership.Room.LeaveChat | backend/internal/groups/service.go:199-229 | outcome and new state for any context, stale or not, and any requests between the removal and the delete |
| Membership.Room.KickMember | backend/internal/groups/service.go:163-195 | refused unless the target was seen to rank strictly lower; otherwise removes exactly an active member |
| AntiSpam.RowAgreesWithHistory | backend/internal/antispam/antispam.go:84-126 | the row, deletions included, gives the full history's score and the restriction exactly when a signal since the last clear left a score over the threshold less than a day ago |
| AntiSpam.SweepKeepsRestrictions | backend/internal/antispam/antispam.go:178-190 | a sweep changes no answer about restriction from then on |
| AntiSpam.SignalNeverShortens | backend/internal/antispam/antispam.go:100-126 | a further signal never brings a release forward |
| AntiSpam.SweepsShedTheRate | backend/internal/antispam/antispam.go:163-193 | before clamping, k sweeps that touched a row shed the daily rate within k/2, and took more than k hours |
| AntiSpam.SchedulesDiffer | backend/internal/antispam/antispam.go:158-162 | two schedules that last touched a row at the same moment leave unspent scores within half their sweeps of each other |
| AntiSpam.SchedulesDrift | backend/internal/antispam/antispam.go:158-180 | two schedules whose last sweeps are at the same moment leave unspent scores within half the touching sweeps and what an hour is worth |
| AntiSpam.SplitShed | backend/internal/antispam/antispam.go:163-180 | two stretches of time shed as much apart as together exactly when their rounding fractions are alike |
| AntiSpam.ExtraSweepIsHarmless | backend/internal/antispam/antispam.go:158-180 | of any row and any two sweeps the earlier changes nothing exactly when the row is not due at it, or the stretches round alike (more than an hour apart), or the second stretch is worth nothing (within the hour, the row not yet due again), or the score is spent either way |
| AntiSpam.SweepTooSoon | backend/internal/antispam/antispam.go:172-176 | stretches that round alike, and a sweep three quarters of an hour before another that still keeps a point the later one alone would shed |
| AntiSpam.ScheduleMatters | backend/internal/antispam/antispam.go:158-162 | two schedules over the same four hours that leave different scores |
| AntiSpam.Scores.Record | backend/internal/antispam/antispam.go:100-126 | the upserted row and the new table; a score over the threshold restricts for the whole term |
| AntiSpam.Scores.ClearScore | backend/internal/antispam/antispam.go:148-156 | the subject is where a clear leaves it in its history, unrestricted from any time on; every other subject is as before |
| AntiSpam.Scores.Decay | backend/internal/antispam/antispam.go:163-193 | every row swept, none left spent, none restricted dropped, and the number dropped |
| Calls.TerminalIsForever | backend/internal/calls/calls.go:265-279 | a finished call keeps state, reason, end time and duration whatever follows |
| Calls.InvitedOnly | backend/internal/calls/calls.go:178-221 | over every run only those called or calling are in a call, and the moment it connected never changes |
| Calls.CallsAreSound | backend/internal/calls/calls.go:87-279 | every reachable call: joins within the cap, ringing never connected, active connected, duration from connecting to ending or zero; and in a direct call in progress that no handler is working on, exactly those have left or declined whose close was lost |
| Calls.LostCloseLeavesCallOpen | backend/internal/calls/calls.go:608-615 | a reachable direct call in progress whose participant has left and nobody is about to close |
| Calls.EmptyOnlyByDecline | backend/internal/calls/calls.go:563-591 | a call in progress loses its last participant exactly when that participant declines |
| Calls.GroupCallLeftEmpty | backend/internal/calls/calls.go:563-591 | a reachable group call in progress with nobody left in it |
| Calls.StepKeepsInv | backend/internal/calls/calls.go:178-286 | every statement keeps the lifecycle invariant |
| Calls.CallRow.Join | backend/internal/calls/calls.go:180-221 | when each outcome applies; joined, active, and connected at the first join |
| Calls.CallRow.Leave | backend/internal/calls/calls.go:229-263 | the participant gone, the call ended if nobody is left, and whether so |
| Calls.CallRow.SetState | backend/internal/calls/calls.go:266-279 | closes only a call still going |
| Calls.CallRow.End | backend/internal/calls/calls.go:594-631 | with anything happening between its statements: a successful hang-up leaves a direct call finished; undisturbed, ended for the reason given or because nobody is left |
| Calls.CallRow.Reject | backend/internal/calls/calls.go:563-591 | the same for declining: undisturbed, a direct call is rejected as declined; a group call goes on |
| Calls.CallRow.Finish | backend/internal/calls/calls.go:578-617 | a handler's second statement closes the call, or its loss is recorded against the participant it had marked |
| Calls.CallRow.LoseOwn | backend/internal/calls/calls.go:611-613 | a close that failed is recorded against its participant unless they have rejoined |
| Uploads.PlanParts | backend/internal/media/service.go:102-114 | the loop ends with the least sufficient doubling and its part count |
| Uploads.PlanIsLeast | backend/internal/media/service.go:102-114 | 1 to 10000 parts that cover the file, fewer doublings would not do, and more than 5000 parts if it doubled |
| Uploads.PartsNeededUnique | backend/internal/media/service.go:104 | the count is the ceiling of size over part size |
| Uploads.PlanFitsInt64 | backend/internal/media/service.go:102-114 | up to 2^62 the arithmetic stays in 64 bits at every doubling |
| Uploads.PresignParts | backend/internal/media/service.go:156-174 | numbers 1..n, sizes that sum to the file, all equal but the last, which is between 1 and the part size |
| Uploads.ChunksAreLatestReports | backend/internal/media/repository.go:133-144 | in every interleaving of requests' statements the chunk table holds for every number the latest report to reach it |
| Uploads.CountCheckMeansComplete | backend/internal/media/service.go:219-235 | whatever is in flight, the count check passes exactly when a report of every part has reached the table, and the ordered list is then 1..n with the latest tags |
| Uploads.SentListsAreComplete | backend/internal/media/service.go:225-240 | every list ever handed to storage names every part once, in order |
| Uploads.StepKeepsInv | backend/internal/media/service.go:199-317 | every statement of every report, completion, expiry and abort keeps chunks and lists in range |
| Uploads.ClosedSessionsStayClosed | backend/internal/media/service.go:375-392 | a session that is no longer active never becomes so again, whatever is in flight |
| Uploads.ClosedTakesOnlyLateParts | backend/internal/media/repository.go:133-144 | some continuation changes a closed session's chunks exactly when a report that read it as active is in flight with a chunk the table does not hold |
| Uploads.CoverShrinks | backend/internal/media/service.go:375-392 | in a closed session a part neither recorded nor in flight stays so |
| Uploads.ClosedCompletesOnlyInFlight | backend/internal/media/service.go:219-284 | some continuation makes an aborted or expired session completed exactly when a completion is about to write, or past its list, or about to list with every part recorded or in flight |
| Uploads.OnlyAbortsReopen | backend/internal/media/service.go:301-317 | once nothing that read it as active is in flight, a closed session's status changes over a run exactly when an abort writes and it was not aborted yet |
| Uploads.AnySessionCanBeAborted | backend/internal/media/service.go:301-317 | from any state, completed ones included, an abort leaves the session aborted with its chunks as they were |
| Uploads.ClosedSessionTakesPartAndCompletes | backend/internal/media/repository.go:133-172 | a reachable aborted session that then takes a part and becomes completed |
| Uploads.Session.LoadActive | backend/internal/media/service.go:375-392 | admits exactly an active session in time; a late one is expired by a second statement, which others may overtake |
| Uploads.Session.RecordPart | backend/internal/media/service.go:199-217 | with anything between the read and the insert: which reply applies when, a run of the machine, and an accepted part in the table |
| Uploads.Session.InsertPart | backend/internal/media/service.go:212-216 | accepted exactly when the insert does not fail, and then in the table |
| Uploads.Session.ListParts | backend/internal/media/service.go:225-236 | the complete list 1..n exactly when the count is right, and nothing otherwise |
| Uploads.Session.CompleteUpload | backend/internal/media/service.go:219-299 | with anything between its statements: a run of the machine; an active session in time with every part recorded gets exactly the reply the verdict calls for, and its status unless the write fails; incomplete only if a part was missing meanwhile |
| Uploads.Session.Close | backend/internal/media/service.go:238-284 | the reply storage and the content check call for, and the status written with it |
| Uploads.Session.AbortUpload | backend/internal/media/service.go:301-317 | with anything between the read and the write: aborted whatever the status was, or an error |
| BlurHash.HashRoundTrip | backend/internal/media/imaging.go:137-182 | a decoder recovers every component from every hash, whose length is 4 + 2 x components |
| BlurHash.FieldRoundTrip | backend/internal/media/imaging.go:220-225 | a value that fits its field is read back from it |
| BlurHash.ACRoundTrip | backend/internal/media/imaging.go:177-180 | the AC triples are read back in order |
| BlurHash.ACField | backend/internal/media/imaging.go:213-218 | an AC triple fits two digits and is recovered |
| BlurHash.DCField | backend/internal/media/imaging.go:209-211 | a DC colour fits four digits and is recovered |
| BlurHash.AlphabetReads | backend/internal/media/imaging.go:133 | the alphabet's 83 letters are distinct and read back |
| BlurHash.RowMajorAt | backend/internal/media/imaging.go:147-152 | where each coefficient stands in the packing order |
| BlurHash.QuantisedIsMadeOf | backend/internal/media/imaging.go:137-182 | where every packed component comes from |
| BlurHash.AppendBase83 | backend/internal/media/imaging.go:220-225 | picking digits by powers of 83 appends the digits of repeated division |
| BlurHash.Factors | backend/internal/media/imaging.go:147-152 | the two loops list the coefficients row by row |
| BlurHash.EncodeBlurHash | backend/internal/media/imaging.go:137-182 | empty for an empty image; otherwise what a decoder reads back is the clamped counts, DC colour and maximum, and each coefficient, clamped, at its place |
| Phone.NormalizePhone | backend/internal/auth/phone.go:32-84 | the loop computes the specified result, errors included |
| Phone.AcceptedIsE164 | backend/internal/auth/phone.go:74-83 | every accepted number is + and 8 to 15 ASCII digits without a leading zero (15: section 6.1 of ITU-T E.164) |
| Phone.FixedPoints | backend/internal/auth/phone.go:32-84 | a string normalises to itself exactly when it is in that form |
| Phone.Idempotent | backend/internal/auth/phone.go:32-84 | normalising twice is normalising once |
| Phone.ScriptDoesNotMatter | backend/internal/auth/phone.go:17-45 | Persian, Arabic and ASCII digits give the same result |
| Phone.DigitsAgree | backend/internal/auth/phone.go:17-45 | the i-th Persian and Arabic digits normalise as the i-th ASCII one wherever they stand |
| Phone.SeparatorsDoNotMatter | backend/internal/auth/phone.go:41-56 | any of the six separators after the first character changes nothing |
| Phone.OnlyDigitsAndSeparators | backend/internal/auth/phone.go:36-56 | nothing but digits of the three scripts, those six and a leading plus is accepted |
| Phone.FormsAgree | backend/internal/auth/phone.go:58-72 | the +98, 98, 0098 and 0 forms of a subscriber number agree |
| Phone.LongFormsAgree | backend/internal/auth/phone.go:58-72 | a number of 11 to 15 digits is taken as dialled, with or without plus or two zeros |
| Phone.BareFormAgrees | backend/internal/auth/phone.go:58-72 | the bare form agrees exactly when the number does not begin with 98 |

## Left out

* HTTP handlers, routing, middleware, logging, notifications and every external client: each call is a step that takes effect or returns an error.
* SQL isolation finer than one statement or transaction, and statements whose error is returned after they took effect.
* Transaction start times older than the rows they touch: `now()` is the time of the step, so clock skew and a negative call duration do not arise.
* Cryptography: a code's hash is compared as a number, and the rollout hash is any number.
- FeatureFlags.RolloutIsExact: counts hash values and not users, because the FNV hash itself is not modelled.
* Integer widths, except in `Uploads.PlanFitsInt64`.
- BlurHash.EncodeBlurHash: takes the quantised sums as given and requires DC channels of one byte, because the cosine sums and the sRGB curve that produce them are floating point.
* Image resizing, JPEG and PNG encoding.
* Reading migration file names; the files arrive grouped by version. Losing the connection that holds the advisory lock while its process goes on is not modelled.
- Migrator.DownReverts: starts from a ledger that Up built from empty, because an arbitrary schema has no known origin.
* A Down beside an Up; Downs beside Downs are modelled.
* Deleting a mirror by hand, comment counts and listing comments.
- Comments.Discussions.ObserveMessage: the channel and tombstone checks on the message passed in are part of the post read that follows.
* The order in which two bots' ids become visible; ids of one bot are visible in order.
- Membership.AdminDeposesOwner: permissions are not part of the state, so that the owner granted the admin `manage_admins` is taken as given.
* Authorisation beyond the rank and ownership checks, permissions maps, custom titles and named roles.
* Account deletion, which marks memberships left without touching counters or ownership.
* Communities, folders, contacts, polls, stories, search, secret chats and bot administration: mostly single guarded updates.
* The resend window and e-mail delivery; a challenge may be issued at any time.
* Letter case and surrounding space of recovery addresses; two accounts with one recovery address are not excluded, and a lookup may find either.
- Recovery.ResetsAreProved: token versions and session revocation are not modelled.
* Call signalling, media flags and session records.
- Uploads.Session.LoadActive: a read that returns an error ends a request in the machine, which every theorem covers; the methods take their reads as succeeding.
* The sweep that deletes expired upload sessions with their chunks, object storage itself, and media rows.
* MaskPhone, a display helper.
