# rclonewatch, modelled and verified in Dafny

rclonewatch watches a directory and syncs it to a remote directory that several machines may write.
They coordinate through one small state file: a repository ID, a generation, a sync ID, a `syncing`
flag and a lock. This project models that coordination and the scoped sync built on it, and proves
what they promise. `dafny verify dfyconfig.toml` checks everything.

## The parts

- `StateFile.dfy`: the records and the pure decisions of `src/syncstate.go`: what a guarded update
  writes, how its verifying read is judged, what blocks an acquisition, which branch startup takes.
- `Protocol.dfy`: any number of clients, their durable state, their processes and the shared remote
  as a transition system. One step is one atomic piece of the code: one read, one write that lands
  or not, one report, one local record, a crash, a tick of the clock. A write may land and report
  success, land and report an error, or not land. Clocks run at one rate with any offsets.
- `ProtocolInvariant.dfy`, `ProtocolSteps.dfy`: the invariant, what every step keeps of it for its
  own client and what it leaves to the others (rely and guarantee).
- `ProtocolTheorems.dfy`: what follows for every run. `ProtocolWitness.dfy`: runs in which the
  generation in the remote file goes back, an owner is denied its own file, and one client takes the
  lock of another; they also show that runs get through initialisation, publication and refresh.
- `SyncState.dfy`: the session object as a class, over a register that others write and whose calls
  fail in every way: `Acquire`, `replaceOwnedRemote`, the operations around an upload, startup,
  release. `SyncStateTheorems.dfy`: its guarded update is step for step the one of the transition
  system, and so are the operations that use it; and what it guarantees under ambiguous writes.
- `RefreshTiming.dfy`: the refresh loop with its watchdogs, half-life, retries and deadline, while the
  main goroutine holds the update mutex and moves the expiry, also while the loop sleeps.
- `Paths.dfy`, `Scopes.dfy`: from changed paths to the fewest covering subtrees.
- `StandardName.dfy`, `FilterText.dfy`, `Rules.dfy`: from paths to encoded names, to patterns, to
  the bytes of a rule file, and a reader that takes the bytes back to what they admit.
- `FixedNames.dfy`, `MetadataFilters.dfy`: which names the encoding leaves alone and gives to nothing
  else, and for which names of the state files the metadata filters hide exactly the metadata.
- `Reconciliation.dfy`: the syncer, with `rclone sync` as the abstract operation that makes the
  destination agree with the source on the admitted paths and leaves everything else alone.
- `EventLoop.dfy`, `EventLoopTheorems.dfy`, `EventLoopExits.dfy`: the startup drain and the select loop
  of `run` as a class driven by scripts of channel inputs; what holds over every script, for the changes,
  the timer, the final sync and the exit.
- `WholeSession.dfy`: the loop and the syncer together: what a clean finish says of the destination.
- `Assembly.dfy`: what the transition system and the syncer take for granted of each other, of the
  refresh loop and of the names of the state files, from the models that show it.
- `ConnectionString.dfy`: the index scanner for connection strings, against the grammar it accepts.

## What was found to be false, and when it holds

- The generation in the remote file is not monotone. It drops exactly when the owner refreshes or
  releases over a publication that landed but was never verified; a completion never meets one
  (`GenerationDrops`, with a run in `GenerationCanDrop`). What is monotone is the verified base.
- A further ambiguous update overwrites the memory of a pending record. If that record is in the file
  and the further update did not land, the next one reports a loss of ownership that never happened;
  `ForgottenPendingIsLost` says exactly when, for whatever came before, `OverwrittenPendingIsLost`
  starts from two ambiguous updates in a row, and `OwnershipCanBeDenied` is a run of it.
- Commands are not always cancelled by the deadline of the lock in force. While the refresh loop waits
  for the update mutex, its watchdog looks once, at the old deadline. If the expiry has been moved on
  by then and the mutex is kept past the deadline last recorded, cancellation comes when the mutex is released, and
  exactly then is it late (`CancelledInTime`, `HeldTooLongIff`, with a case in `LateCancellation`). No
  payload command runs meanwhile, since the goroutine that would run it holds the mutex; so the
  transition system lets time pass over any deadline unless a payload command runs, and cancels one
  that is entered late.
- The documentation says that an interrupted initialisation is retried. When an older local state was
  there before, it is refused exactly under the condition of `ReinitialisingDeadEnd`, and stays refused
  until others have advanced the remote as far as `DeadEndLasts` says. Elsewhere the initial states have
  no local state.
- With an interval, syncing stalls if and only if an event of the state file's own metadata is
  dequeued while the loop is ready to sync at the first change (`IntervalModeStallsIff`, with a run in
  `StallingRun`).
- A lock of one or two nanoseconds is cancelled at its first refresh, unless another update renews it in
  time (`HalfLifeBeforeDeadline`, `TinyLocksExpire`).
- Two names can share one encoding; they do exactly when they agree up to odd runs of the quote
  character (`CollideIffRounded`, with a pair in `TwoNamesCollide`).
- The metadata filters do not always hide exactly the metadata. They see encoded names but are given
  the physical names of the state files. They are exact if and only if the names are `Separable`
  (`FiltersHideMetadata`): each name on the way to the local file, the last one with the temporary
  suffix, and to the remote file is clean, that is, without control characters, without their
  pictures, and without the quote character except before the pictures of NUL and slash
  (`CleanMeaning`, with five exceptions); a remote file among the temporary files is covered anyway. Otherwise a state file is
  transferred as payload (`MissedStateFile`, `MissedControlName`), or a payload file never is
  (`HiddenPayload`). If such a state file lies in the tree, `NothingBelowMetadata` fails, and
  `IncrementalEqualsFull` and `FinishedSessionIsSynced` are silent about the session; under separable
  names it holds of every tree without directories in the place of metadata (`SeparableNamesSuffice`).
- The protection of events reaches below a slash behind the temporary prefix, which no filter does, so
  the two agree on every path only if no local state file lies in the tree
  (`FiltersMatchProtection`, `MetadataIsProtected`).

## Assumptions

State files are written conditionally, so the ETag is a function of the content. Owners are distinct:
a persistent lock ID belongs to one client, which may hold it in many sessions. Owner tokens, sync IDs
and lock timestamps are fresh. Timers fire on time and a cancelled command has no later effect, except
that a state write already issued may still land. Every change of an included path that a sync did not see
is told of by an event taken after that sync began. No state file exists when a run begins and none is
deleted by hand. A crash ends the session's own rclone commands with it: the program starts them
without a signal for the death of their parent (src/main.go:75), so killing it alone may leave an upload
running, and that is not modelled. One process uses a local directory at a time, and no upload-only
writer shares the destination. While a payload command runs, only the refresh loop takes the update
mutex; then timers on time are all that the transition system needs of the refresh loop
(`TicksArePermitted`). The payload is edited only while a session is marked active, and local state is written
atomically. In `SyncState`, the register may do anything; those assumptions are not needed there.

## Model

| member | source | states |
|---|---|---|
| StateFile.SafetyWindowValue | src/syncstate.go:624-626 | the margin before the expiry is a twentieth of the TTL, between a nanosecond and a second |
| StateFile.BranchMeaning | src/syncstate.go:364-426 | which relation of the two records leads to which branch of startup |
| StateFile.ObjectionMeaning | src/syncstate.go:277-298 | an acquisition is refused exactly over a foreign repository, over an untracked destination, or where startup would find the local state ahead or download an incomplete payload against the option |
| ProtocolTheorems.StepKeepsInv | src/syncstate.go:134-693 | every step of every client, failing or not, keeps the invariant of the whole system, the other clients included |
| ProtocolTheorems.RunInv | src/syncstate.go:134-693 | the invariant holds in every state of every run |
| ProtocolTheorems.PayloadExclusion | src/syncstate.go:166-249 | two clients never run payload commands together, whatever their clock offsets |
| ProtocolTheorems.RunningHoldsLock | src/syncstate.go:527-635 | while a payload command runs, the remote file carries that client's lock and its own clock is not past the refresh deadline of its recorded expiry |
| ProtocolTheorems.LockLeaves | src/syncstate.go:158-249 | a lock leaves the file only by its owner's release, or by a takeover at least a full TTL after it was first issued |
| ProtocolTheorems.TakeoverAfterOwnExpiry | src/syncstate.go:166-249 | a takeover from a session that is not closing comes at or after the expiry which that session recorded itself, with none of its payload commands running |
| ProtocolTheorems.OwnershipIsAcquired | src/syncstate.go:641-693 | no write of a client that does not own the file, other than an acquisition, makes it the owner |
| ProtocolTheorems.Fencing | src/syncstate.go:641-693 | once the file is not a client's, none of its guarded updates ever lands until it acquires again, whatever it had read or issued |
| ProtocolTheorems.Lineage | src/syncstate.go:221-250 | over any stretch of a run the verified generations only grow, none changes its sync ID, the repository stays, and the file is never behind them |
| ProtocolTheorems.OneSyncIdPerGeneration | src/syncstate.go:641-693 | verified bases of one generation have one sync ID, across clients and time, and the current owner's base is the newest |
| ProtocolTheorems.GenerationDrops | src/syncstate.go:544-548 | the generation in the file drops exactly when a refresh or release of the owner lands over its unverified publication, and then to the newest verified one; a completion lands only over the verified generation |
| ProtocolWitness.GenerationCanDrop | src/syncstate.go:544-548 | a run of the protocol in which it does drop |
| ProtocolWitness.OwnershipCanBeDenied | src/syncstate.go:641-651 | a run in which an update is refused for want of ownership while the file is the client's own |
| ProtocolWitness.LockCanBeTaken | src/syncstate.go:158-249 | a run in which a client takes another's lock a TTL after noting it |
| ProtocolTheorems.AcquisitionIsNeutral | src/syncstate.go:209-249 | an acquisition changes only the lock, on the very record that was validated |
| ProtocolTheorems.NoDeadEnd | src/syncstate.go:277-298 | clients that follow the protocol never meet a foreign repository or a local generation ahead, at acquisition or at startup |
| ProtocolTheorems.LocalNeverFarAhead | src/syncstate.go:438-449 | a local generation is at most one above the verified one, and then marked incomplete |
| ProtocolTheorems.RecoveryOverwritesNothing | src/syncstate.go:406-420 | a recovery upload starts from the remote's own record, or from an unpublished advance of exactly that record |
| ProtocolTheorems.NoIncompleteDownload | src/syncstate.go:281-283 | with fail-on-incomplete no download starts from an incomplete record |
| ProtocolTheorems.CommitHolds | src/syncstate.go:428-472 | a complete remote record stands for exactly the payload whose upload finished under its sync ID |
| ProtocolTheorems.PayloadChangesUnderCover | src/main.go:135-152 | the remote payload changes only by the lock holder, and only while the record says incomplete or generation 0 |
| ProtocolTheorems.SoundSkip | src/syncstate.go:402-425 | startup skips reconciliation, cancelled or late as it may be, only with the very payload that was uploaded under its base's sync ID, which is the remote payload as long as its lock has not run out |
| ProtocolTheorems.InterruptedNeverSkips | src/syncstate.go:364-382 | from the marking of a session until a clean finish, through any crash, no startup of the client skips |
| ProtocolTheorems.FinishIsClean | src/syncstate.go:474-488 | a session is unmarked only with its payload uploaded under its recorded ID, or with its record still incomplete |
| SyncState.Session.ReplaceOwnedRemote | src/syncstate.go:641-693 | for every behaviour of the register, the fields and the report are the ones `Replaced` gives for what the calls answer; at most one write lands, on the very record the first read found |
| SyncState.Session.WritePending | src/syncstate.go:669-692 | the write, its verifying read and the judgement, for every behaviour of the register: a failed or stale verification keeps the record pending, a foreign one is a loss of ownership |
| SyncState.CalmUpdate | src/syncstate.go:641-693 | when nothing fails or interferes, an update succeeds with the candidate itself |
| SyncState.ReplaceMeaning | src/syncstate.go:641-693 | success means that the file went from the owned previous or pending record to the candidate, verified, keeping an adopted record's lock unless a new one is written; failure keeps the base and its expiry |
| SyncState.ReplaceFailure | src/syncstate.go:641-693 | which failures leave the written record pending for a retry, the stale verifying read included, and which mean that ownership is lost and nothing is pending: a refused update, and a verifying read of any other record |
| SyncState.ReplaceExpiry | src/syncstate.go:655-668 | the expiry after a success: kept with a kept lock, else the time before the write plus the TTL, none without a lock |
| SyncStateTheorems.ReplaceIsProtocol | src/syncstate.go:641-693 | the update of the session object is the sequence of steps a client of the transition system takes, for any interleaving of others |
| SyncStateTheorems.AdvanceIsProtocol | src/syncstate.go:428-454 | the step that begins a publication and the steps of its update leave the view, the local record and the next work that `BeforeRemoteChange` leaves when it is told the same, for any interleaving of others |
| SyncStateTheorems.CompletionIsProtocol | src/syncstate.go:456-472 | the same for `AfterRemoteChange`, whose local record is the next step |
| SyncStateTheorems.InitialisationIsProtocol | src/syncstate.go:343-357 | the same for the end of an initialisation |
| SyncStateTheorems.RefreshIsProtocol | src/syncstate.go:544-548 | the same for a refresh, whatever the main goroutine is doing |
| SyncStateTheorems.ReleaseIsProtocol | src/syncstate.go:495-525 | the same for the release, which a persistent lock does without |
| SyncStateTheorems.AmbiguityIsRetried | src/syncstate.go:646-681 | after an update of unknown outcome, a stale verifying read included, the next one, a release included, finds its base, whichever record was left, and succeeds if its own write does |
| SyncStateTheorems.ForgottenPendingIsLost | src/syncstate.go:641-693 | from any view whose pending record is in the file: after one more ambiguous update, a failed or stale verifying read included, the next one refuses the owned file exactly when that record differs from the base and from what was written over it |
| SyncStateTheorems.OverwrittenPendingIsLost | src/syncstate.go:641-693 | so with the first of two updates of unknown outcome in the file, the third reports a false loss of ownership exactly when the first differs from the base and from what the second wrote |
| SyncStateTheorems.ExpiryBounded | src/syncstate.go:655-668 | recorded expiries, of the base and of a pending record, never exceed the first issue of their lock plus its TTL |
| SyncStateTheorems.ExpiryMovesForward | src/syncstate.go:652-690 | an update that keeps a lock never moves the recorded expiry back, nor beyond a TTL from now |
| SyncStateTheorems.ReinitialisingDeadEnd | src/syncstate.go:294-297 | exactly which old local states are refused right after a repeated initialisation that crashed |
| SyncStateTheorems.DeadEndLasts | src/syncstate.go:294-297 | until which remote generation such a state stays refused |
| SyncStateTheorems.DiesInitialising | src/syncstate.go:330-362 | a session whose last call of the initialisation fails reaches that state, and is refused under the same condition |
| SyncState.Session.Validate | src/syncstate.go:277-298 | objects to another repository and otherwise as `ValidateAcquisition` does, accepts an absent file only when forced or found empty, inquires only then, and fails otherwise only for a failed inquiry |
| SyncState.WaitKinds | src/syncstate.go:158-163 | only an explicit zero forbids waiting, and a wait is the default exactly if nothing is set |
| SyncState.Session.LookFirst | src/syncstate.go:139-145 | the first read ends the acquisition without a write if it shows another repository or is refused otherwise |
| SyncState.Session.AwaitLock | src/syncstate.go:166-207 | goes on only without a lock, or with one it has seen in the file a whole TTL before; ends for every finite wait, and undisturbed outlasts the TTL if the wait allows it; says what each way to stop means |
| SyncState.Session.WatchLock | src/syncstate.go:167-207 | one round: a lock that changed is noted anew, which a default wait refuses; when its TTL has passed since it was noted the wait is over, and otherwise it goes on or says why not |
| SyncState.Session.SleepAndRead | src/syncstate.go:186-207 | one poll of the lock, a poll interval later, or when the lock expires or the deadline comes first |
| SyncState.Session.VerifyAcquired | src/syncstate.go:308-328 | ends, with the newest read, at the deadline or with a signal; a read that fails is repeated a poll interval later |
| SyncState.Session.Bid | src/syncstate.go:214-237 | the write of an acquisition is justified by validation, by its repository and by the wait, and is read back |
| SyncState.Session.AfterLosing | src/syncstate.go:251-273 | exactly when a lost race goes on waiting, and what each error means |
| SyncState.Session.TryAcquire | src/syncstate.go:214-273 | success is verified before the deadline and expires a TTL after the time before the write; a write that took effect and is read back in time succeeds whatever it reported; a failed write and an interruption are told apart |
| SyncState.Session.AcquireOnce | src/syncstate.go:165-273 | one turn: wait, validate what was found then, and try to take it |
| SyncState.Session.Contend | src/syncstate.go:165-274 | the whole outer loop: its writes are justified, and undisturbed it takes the lock |
| SyncState.Session.Continue | src/syncstate.go:146-156 | a continued persistent lock changes nothing but the lock, gets a new expiry, and succeeds undisturbed |
| SyncState.Session.Acquire | src/syncstate.go:134-275 | unless the first read finds the session's own persistent lock, every write that landed during the whole acquisition was over the session's own repository, validated, changed only the lock, and displaced another's lock only after its TTL, and success leaves time before the deadline; a first read of another repository, or that is refused otherwise, ends it without effect; an own persistent lock is never waited for; what each way to stop means; undisturbed, a free lock is acquired, and another's after its TTL if the wait allows it |
| SyncState.Session.Refresh | src/syncstate.go:544-548 | a refresh changes only the lock, moves the expiry to the write time plus the TTL, and succeeds undisturbed |
| SyncState.Session.BeforeRemoteChange | src/syncstate.go:428-454 | an advance is durable locally before it can land remotely, and the limits of the generation stop it without effect; between them it succeeds undisturbed |
| SyncState.Session.AfterRemoteChange | src/syncstate.go:456-472 | the local record is completed only after the remote completion was verified; undisturbed it succeeds |
| SyncState.Session.InitializeRemote | src/syncstate.go:330-362 | generation 1 comes after a whole upload at generation 0 that did not fail, and the local record after its verification |
| SyncState.Session.FinishInitialisation | src/syncstate.go:343-357 | the publication of generation 1 and the record of it; once that is verified only the local write is left to fail |
| SyncState.Session.TrackedUpload | src/main.go:135-152 | the payload changes only under the verified incomplete record, which is completed only if the upload did not fail; success leaves both records complete one generation on |
| SyncState.Session.InitializeGeneration | src/syncstate.go:364-426 | what each startup branch uploads, downloads and leaves alone, that success leaves the two records in step, that a failed download is not recorded, that an existing local record is marked before anything else, failures included, and that it succeeds undisturbed |
| SyncState.Session.FinishSession | src/syncstate.go:476-488 | only the session marker changes, and only of an existing record |
| SyncState.Session.Close | src/syncstate.go:495-525 | a persistent lock is kept, another is cleared with the rest of the record unchanged |
| RefreshTiming.Refreshing.RefreshLoop | src/syncstate.go:527-575 | from a lock in force, the loop's cancellation is in time exactly if no attempt found the mutex held too long, whatever the attempts meet; the expiry never moves back |
| RefreshTiming.Refreshing.AttemptRefresh | src/syncstate.go:536-573 | one attempt with both watchdogs and the check of the deadline does what `Try` says |
| RefreshTiming.Refreshing.AwaitMutex | src/syncstate.go:577-595 | the watchdog of the wait cancels exactly if it fires before the mutex is free and then finds the expiry not moved on |
| RefreshTiming.HalfLifeBeforeDeadline | src/syncstate.go:624-635 | the half-life refresh is strictly before the deadline if and only if the TTL is at least 3 ns |
| RefreshTiming.DueAtHalf | src/syncstate.go:628-635 | a refresh is due when half of the TTL is left |
| RefreshTiming.FirstAtHalf | src/syncstate.go:527-530 | the first one too |
| RefreshTiming.RetryInTime | src/syncstate.go:604-622 | a retry is offered exactly before the deadline, a poll interval later or at the deadline, whichever comes first |
| RefreshTiming.AttemptOutcome | src/syncstate.go:536-573 | exactly which attempts go on: a failure before the deadline is retried by a poll interval later, a success is due again at its half-life, and everything else cancels |
| RefreshTiming.RetrySucceeds | src/syncstate.go:554-573 | with more than a poll interval left one failure does not end the session: the retry comes before the deadline, and its timely success renews the lock |
| RefreshTiming.TryInTime | src/syncstate.go:536-573 | one attempt cancels by the deadline of the lock in force exactly if the mutex was not held too long, and otherwise at its release; a renewed lock was written before its predecessor's deadline |
| RefreshTiming.WokenIsOnTime | src/syncstate.go:536-540 | an expiry moved on while the loop slept leaves the attempt early, and its watchdog waiting for the new expiry |
| RefreshTiming.CancelledInTime | src/syncstate.go:527-602 | over any script of attempts, with expiries adopted during sleeps and waits, commands are cancelled by the deadline of the lock then in force if and only if no attempt found the mutex held too long |
| RefreshTiming.HeldTooLongIff | src/syncstate.go:577-588 | held too long means: the expiry was moved on by the old deadline and the mutex is released past the deadline last recorded |
| RefreshTiming.LateCancellation | src/syncstate.go:577-588 | such a wait, with its late cancellation |
| RefreshTiming.QuietInTime | src/syncstate.go:527-602 | while nothing else takes the mutex, no instant past the deadline of the recorded expiry is reached without cancelling |
| RefreshTiming.ReleasedIsQuiet | src/syncstate.go:536-553 | an attempt that waited for the mutex goes on from its release like one that did not wait, unless the commands are cancelled by then |
| Assembly.TicksArePermitted | src/syncstate.go:527-602 | time that passes under the refresh loops of the clients with running payload commands is time that the transition system lets pass |
| RefreshTiming.FailuresEnd | src/syncstate.go:554-568 | a run of failures ends in cancellation; every failure that does not follow an adoption uses up a poll interval of the time to the last adopted deadline |
| RefreshTiming.TinyLocksExpire | src/syncstate.go:628-635 | a TTL below 3 ns is cancelled at its first refresh, unless another update renews it meanwhile |
| Scopes.PromoteMeaning | src/payload.go:66-75 | a promoted scope hangs from the root or an existing directory, and nothing it passed is a directory |
| Scopes.NearestMeaning | src/payload.go:57-65 | the nearest expressible ancestor is the nearest |
| Scopes.PromoteFailsIff | src/payload.go:66-75 | promotion fails exactly on an ancestor beyond inspection before any existing directory; missing ancestors do not stop it |
| Scopes.FirstDecides | src/payload.go:48-82 | the first path that asks for the root, is invalid or cannot be inspected decides the result; without any there are scopes |
| Scopes.OneDecides | src/payload.go:48-97 | whatever the order, there are scopes if and only if every path goes on, and an error has its cause in a path |
| Scopes.GatherMembers | src/payload.go:48-82 | the gathered paths are exactly the promoted unprotected ones |
| Scopes.CollapseIsMinimal | src/payload.go:83-96 | collapsing a sorted list leaves exactly the paths with nothing above them, in strict order, covering all |
| Scopes.ScopesAreMinimal | src/payload.go:48-97 | the scopes are exactly the ancestor-minimal promoted paths, an antichain that covers them all, each under the root or a directory |
| Scopes.ScopesOfSet | src/payload.go:48-97 | the scopes depend only on the set of changed paths |
| Scopes.ReconciliationScopes | src/payload.go:48-97 | the loops compute that result |
| StandardName.EncodeOne | src/payload.go:123-161 | the quote-counting loop computes the encoding of a name |
| StandardName.DecodeEncode | src/payload.go:123-161 | decoding an encoded name gives it back with odd quote runs rounded up |
| StandardName.EncodeHidesControls | src/payload.go:123-161 | an encoded name has no control characters |
| StandardName.ControlIsPictured | src/payload.go:123-161 | a control character is encoded as its picture |
| StandardName.CollideIffRounded | src/payload.go:123-161 | two names have one encoding exactly when their rounded forms agree |
| StandardName.TwoNamesCollide | src/payload.go:123-161 | two different names with one encoding |
| StandardName.QuoteFreeInjective | src/payload.go:123-161 | the encoding is injective on names without the quote character |
| StandardName.StandardLocalPath | src/payload.go:123-161 | the loop over the parts encodes a whole path |
| StandardName.PathsCollide | src/payload.go:123-161 | two paths have one encoding exactly when they agree part by part up to rounding |
| StandardName.StandardCovers | src/payload.go:123-161 | on quote-free paths the encoding keeps and reflects what lies below what |
| FilterText.ScopeFilterPath | src/payload.go:102-117 | the loop computes the pattern of a scope |
| FilterText.ScopePatternRoundTrip | src/payload.go:102-117 | reading a scope's pattern gives back its encoded path, so the pattern determines it |
| FilterText.EscapeIsOneLine | src/payload.go:102-117 | a pattern has no line break or plain blank and neither begins nor ends with white space |
| FilterText.LiteralFilterPath | src/payload.go:19-28 | the loop computes the literal pattern |
| FilterText.ReadLiteral | src/payload.go:19-28 | unescaping inverts it, whatever follows |
| FilterText.LitsMatchExactly | src/payload.go:102-117 | a literal pattern matches its own text only |
| FilterText.SubtreeMatches | src/payload.go:196-229 | with the subtree wildcard it matches exactly what lies below |
| Rules.RuleWriter.Include | src/payload.go:196-211 | the file holds each pattern asked for once, in the order first asked |
| Rules.ScopeGroupRules | src/payload.go:189-233 | the loops write exactly the intended rule file |
| Rules.LinesRoundTrip | src/payload.go:196-229 | splitting the written file gives back its lines |
| Rules.RuleFileMeaning | src/payload.go:189-248 | read from its bytes under first match, the file admits exactly the scopes' subtrees, and the ancestors as single entries when directories may be created |
| Rules.GroupOnPaths | src/payload.go:189-248 | the same in terms of physical paths without the quote character |
| Rules.BuildPayloadFilters | src/syncstate.go:739-749 | the filters of the metadata files |
| Rules.Protects | src/syncstate.go:751-767 | which paths are metadata, and which lie above it |
| Rules.FiltersOnNames | src/syncstate.go:739-749 | which texts the metadata filters match |
| FixedNames.CleanIff | src/payload.go:119-161 | a name is the encoding of itself and of no other name if and only if it is clean |
| FixedNames.CleanMeaning | src/payload.go:119-161 | clean means: no control characters or pictures of them, and quotes only before the pictures of NUL and slash, or one of five exceptions |
| FixedNames.StemIsExact | src/payload.go:119-161 | exactly what begins with a clean stem is encoded to something that begins with it |
| MetadataFilters.SeparableIsExact | src/syncstate.go:739-749 | under separable state file names a physical path is filtered out exactly if it is metadata |
| MetadataFilters.InseparableFails | src/syncstate.go:739-749 | under any other names there is a path for which that is false |
| MetadataFilters.FiltersHideMetadata | src/syncstate.go:739-749 | so the filters hide exactly the metadata of every tree if and only if the names are separable |
| MetadataFilters.MetadataIsProtected | src/syncstate.go:751-767 | events are protected exactly on metadata and below a slash behind the temporary prefix |
| MetadataFilters.FiltersMatchProtection | src/syncstate.go:739-767 | filters and protection agree on every path if and only if no local state file lies in the tree and the remote one has a clean name |
| MetadataFilters.MissedStateFile | src/syncstate.go:739-767 | a state file whose name has a quote before a letter is protected but not filtered out |
| MetadataFilters.MissedControlName | src/syncstate.go:739-767 | so is one with a tab in its name |
| MetadataFilters.HiddenPayload | src/syncstate.go:739-767 | with two quotes another file is filtered out but not protected |
| Assembly.SeparableNamesSuffice | src/syncstate.go:739-767 | under separable names no payload lies at or below metadata in a tree without directories in its place |
| Reconciliation.Syncer.FullSync | src/main.go:160-169 | every included path becomes as in the source and every other stays; a failing command leaves each path as it was or as in the source |
| Reconciliation.Syncer.SyncScopeGroup | src/payload.go:189-248 | the destination after one filtered run, or after a part of it |
| Reconciliation.Syncer.SyncScopes | src/payload.go:163-187 | deletions first and without ancestors, then what exists, each only if there is any; a scope that cannot be inspected stops it before any change, a failing command after a part and before any other |
| Reconciliation.Syncer.Sync | src/main.go:106-158 | the scopes of the batch are synced, or the error is that of the batch, of a scope that cannot be inspected, or of a failing command, and says what may have changed; a batch of valid paths with nothing beyond inspection above them fails only with a command |
| Reconciliation.ErrorHasCause | src/main.go:106-127 | the scopes of a batch fail only for one of its payload paths that is invalid or lies at or below something beyond inspection |
| Reconciliation.ExcludedIsUntouched | src/payload.go:34-43 | what the user excludes is not synced, in whatever scope it lies |
| Reconciliation.AncestorsAreSynced | src/payload.go:216-222 | the ancestors of an existing scope are synced as single entries |
| Assembly.IncludedMeaning | src/payload.go:34-43 | under separable names a path takes part exactly if it is neither excluded by the user nor metadata |
| Reconciliation.ChangeIsScoped | src/payload.go:48-97 | every included change lies below one of the scopes of its batch |
| Reconciliation.IncrementalEqualsFull | src/main.go:106-169 | an incremental sync leaves the very destination a full one would |
| Reconciliation.UnrelatedIsUntouched | src/payload.go:163-248 | nothing outside the scopes and the ancestors of existing ones is changed |
| Reconciliation.SyncBatch | src/main.go:106-158 | the whole operation equals the full sync, and agrees with the source again afterwards |
| Assembly.BatchMayEnd | src/main.go:106-158 | the destination of an incremental sync is one that the transition system lets an upload end with; if no change is queued that it does not cover, it is the client's own payload |
| Assembly.StartupMayEnd | src/syncstate.go:330-426 | the same for the full syncs of startup in either direction |
| Reconciliation.BatchIsScoped | src/payload.go:48-97 | what a payload path of the batch covers lies below one of the scopes |
| WholeSession.FinishedDestinationAgrees | src/main.go:106-158 | over a history of successful and failed syncs of a changing source, if every payload event is covered by a later success, the destination agrees with the final source |
| WholeSession.FinishedSessionIsSynced | src/main.go:484-588 | whenever the loop ends by finishing the session, the destination agrees with the final source on everything included |
| EventLoop.QueueChange | src/main.go:190-197 | a change is queued under its path unless it is metadata |
| EventLoop.MergeFailedBatch | src/main.go:199-205 | a failed batch goes back, and newer changes win |
| EventLoop.InitializeWatching | src/main.go:252-294 | every event that arrives during startup is queued; startup is cancelled exactly on a signal or watcher error, and then never reports success |
| EventLoop.Watching.Select | src/main.go:511-636 | each case of the select changes the variables as `Step` says |
| EventLoop.Watching.Top | src/main.go:484-509 | when the loop ends and how, and when it starts the final sync |
| EventLoop.Watching.Run | src/main.go:484-638 | the loop over any script is the run that `Execute` gives |
| EventLoopTheorems.ExecuteKeeps | src/main.go:484-638 | at every moment a path is pending or in flight exactly if an event on it is not yet covered by a later successful batch, and with its newest change |
| EventLoopTheorems.NoChangeLost | src/main.go:184-205 | until the lock fails, every payload event taken is pending, in flight, or covered by a batch that began later and succeeded |
| EventLoopTheorems.FinishMeansSynced | src/main.go:484-509 | the session is finished only drained, idle and with every payload event covered; a failed final sync leaves exactly the outstanding paths |
| EventLoopTheorems.IntervalModeStallsIff | src/main.go:440-449 | before shutdown the interval loop is syncing, waiting or at rest, and stalls if and only if a metadata event is dequeued at rest |
| EventLoopTheorems.StallingRun | src/main.go:518-522 | a run that stalls with a change pending |
| EventLoopTheorems.DelayIsBackoff | src/main.go:568-587 | the retry delay is the backoff of the failures since the last success |
| EventLoopTheorems.BackoffValue | src/main.go:574-579 | it doubles from a second to a minute |
| EventLoopTheorems.ShutdownEnds | src/main.go:484-509 | once drained and without a command, shutdown waits for at most two sync results |
| EventLoopExits.RunFollows | src/main.go:484-638 | over every script, what stops the loop, fails it, closes its channels, sets its status and counts its signals is decided by the selected inputs |
| EventLoopExits.FinalSyncIsMade | src/main.go:469-503 | a drained shutdown with changes and a sound lock makes one more sync, which begins with every event, and makes it once; only a second signal without a command does without, and a failed final sync is never reported untried |
| EventLoopExits.StoppedBeginsNothing | src/main.go:484-638 | once something has stopped the loop no sync begins but the final one |
| EventLoopExits.ExitMeaning | src/main.go:484-509 | which exit follows from what was selected, and that none comes before the loop was stopped, drained and without its command |
| EventLoopExits.TimerMeaning | src/main.go:440-449 | the timer is armed for the interval after a success and at the start, and for the backoff of the failures otherwise |
| EventLoopExits.SyncsAtExitOnly | src/main.go:440-449 | without an interval nothing is synced before shutdown |
| ConnectionString.ParseRemote | src/syncpath.go:107-170 | the index scanner accepts and rejects as the grammar `Parse` does, in bounds and terminating on every input |
| ConnectionString.ParsePrinted | src/syncpath.go:107-170 | a printed connection string is read back: name, options with the last of equal keys, and the index of the colon |
| ConnectionString.ParsedIsPrinted | src/syncpath.go:107-170 | conversely every accepted remote is such a printed string |
| ConnectionString.LocalPathIff | src/syncpath.go:109-122 | a value is a local path exactly if it has no colon, or a slash comes before every comma and every colon but a leading one |
| ConnectionString.OptionErrors | src/syncpath.go:125-168 | which text is an option without key or value, and which opens a quote that is never closed |
| ConnectionString.ErrorPrinted | src/syncpath.go:125-168 | behind any printed settings the first option with an error fails the whole value with it |

## Left out

- Backends without conditional writes: their verification after the write is advisory, so nothing is claimed of them.
- Persistent lock IDs shared by several clients: the takeover is intended, and only fencing would remain to be said.
- Records without sync IDs, beyond the guard that refuses an ambiguous recovery.
- SyncState.Session.Acquire: the budget bounds unlimited waits and lost races; that the real loop ends in these cases is not claimed, and it need not. A continued persistent lock is stated in `Continue` instead.
- SyncState.Session.Continue: the new expiry is stated for a lock that differs from the one found, which fresh timestamps give.
- RefreshTiming.TinyLocksExpire: says nothing of an adoption before or during the wait, which can leave such a lock a nanosecond.
- That a released mutex passes to the waiting refresh loop before a payload command can get far is taken as timers on time.
- Late timers are not modelled.
- The step of the transition system that finishes a session needs an idle loop without queued changes; `EventLoopTheorems.FinishMeansSynced` provides them.
- Scopes.ScopesOfSet: speaks of inputs that give scopes; for an invalid path beside the root, which of the two is reported depends on the order.
- Reconciliation.UnrelatedIsUntouched: for names without the quote character, since colliding names share a rule.
- What rclone does with directories and type conflicts on the way: only the resulting tree is modelled, of which a failed run may leave any part done.
- How rclone's backend names the remote state file on its side of a sync: the filters are stated for the paths of the local tree.
- User exclusions are an arbitrary predicate on paths; rclone's pattern language for them is not part of this model.
- JSON, temporary files, fsync and rename: a local record is written atomically or not at all.
- `resolveSyncFilePaths`, `resolveLocalSyncFile`, `resolveRemoteSyncFile` and the relative-path helpers of `src/syncpath.go`: single joins of library calls.
- `src/watcher_linux.go`: events are assumed to be delivered, and an overflow to appear as ".".
- `src/terminal_linux.go`, `src/options.go`, `src/backend.go`, `src/help.go`, exit codes and logging.
