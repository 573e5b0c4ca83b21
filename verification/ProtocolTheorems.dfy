/** What the protocol promises, over every run from a remote and clients without state files:
    any number of clients, crashes anywhere, ambiguous writes, clocks with any offsets. */
module ProtocolTheorems {
  import opened Prelude
  import opened StateFile
  import opened Protocol
  import opened ProtocolInvariant
  import opened ProtocolSteps

  // ---------------------------------------------------------------- the invariant holds in every run

  lemma AcquireKeeps(sh: Shared, x: Client, i: nat, step: Step)
    requires Good(sh, x, i) && CanAcquire(sh, x, i, step)
    ensures Keeps(sh, ActAcquire(sh, x, i, step), i)
  {
    hide Keeps, Good;
    match step
    case Boot(_, _, _) => BootKeeps(sh, x, i, step);
    case Reread => ObserveKeeps(sh, x, i, step);
    case Note => ObserveKeeps(sh, x, i, step);
    case Retry => ObserveKeeps(sh, x, i, step);
    case IssueAcquire(_, _) => IssueAcquireKeeps(sh, x, i, step);
    case LandAcquire => LandAcquireKeeps(sh, x, i, step);
    case CheckAcquire => CheckAcquireKeeps(sh, x, i, step);
    case Enter => EnterKeeps(sh, x, i, step);
    case BeginContinue => BeginContinueKeeps(sh, x, i, step);
    case Crash => CrashKeeps(sh, x, i, step);
    case Cancel => CancelKeeps(sh, x, i, step);
  }

  lemma UpdateKeeps(sh: Shared, x: Client, i: nat, step: Step)
    requires Good(sh, x, i) && CanUpdate(sh, x, i, step)
    ensures Keeps(sh, ActUpdate(sh, x, i, step), i)
  {
    hide Keeps, Good;
    match step
    case BeginRefresh => BeginRefreshKeeps(sh, x, i, step);
    case ReadLatest => ReadLatestKeeps(sh, x, i, step);
    case Issue => IssueKeeps(sh, x, i, step);
    case LandWrite => LandWriteKeeps(sh, x, i, step);
    case ReportOk => ReportOkKeeps(sh, x, i, step);
    case FailUpdate => FailUpdateKeeps(sh, x, i, step);
    case VerifyRead => VerifyReadKeeps(sh, x, i, step);
    case Conclude => ConcludeKeeps(sh, x, i, step);
  }

  lemma WorkKeeps(sh: Shared, x: Client, i: nat, step: Step)
    requires Good(sh, x, i) && CanWork(sh, x, i, step)
    ensures Keeps(sh, ActWork(sh, x, i, step), i)
  {
    hide Keeps, Good;
    match step
    case Decide => DecideKeeps(sh, x, i, step);
    case Edit(_) => EditKeeps(sh, x, i, step);
    case DownloadProgress(_) => EditKeeps(sh, x, i, step);
    case PayloadProgress(_) => PayloadKeeps(sh, x, i, step);
    case InitDone(_) => PayloadKeeps(sh, x, i, step);
    case UploadDone(_) => PayloadKeeps(sh, x, i, step);
    case BeginFinishInit => BeginKeeps(sh, x, i, step);
    case BeginComplete => BeginKeeps(sh, x, i, step);
    case BeginClose => BeginKeeps(sh, x, i, step);
    case BeginPublish(_) => BeginPublishKeeps(sh, x, i, step);
    case DownloadDone(_) => DownloadDoneKeeps(sh, x, i, step);
    case RecordLocal => RecordLocalKeeps(sh, x, i, step);
    case FailWork => FailWorkKeeps(sh, x, i, step);
    case FinishSession => FinishKeeps(sh, x, i, step);
  }

  lemma StepKeepsInv(s: System, t: System, i: nat, step: Step)
    requires Inv(s) && Moves(s, t, i, step)
    ensures Inv(t)
  {
    hide ClientOk, SharedOk, Rely, Can, Act;
    var sh, x := s.shared, s.clients[i];
    var next := Act(sh, x, i, step);
    ActKeeps(sh, x, i, step);
    forall j | 0 <= j < |t.clients| && j != i
      ensures ClientOk(t.shared, t.clients[j], j)
    {
      RelyKeepsClient(sh, next.0, s.clients[j], j);
    }
  }

  lemma ActKeeps(sh: Shared, x: Client, i: nat, step: Step)
    requires Good(sh, x, i) && Can(sh, x, i, step)
    ensures Keeps(sh, Act(sh, x, i, step), i)
  {
    hide Keeps, Good, CanAcquire, CanUpdate, CanWork, ActAcquire, ActUpdate, ActWork;
    if CanAcquire(sh, x, i, step) {
      AcquireKeeps(sh, x, i, step);
    } else if CanUpdate(sh, x, i, step) {
      UpdateKeeps(sh, x, i, step);
    } else {
      WorkKeeps(sh, x, i, step);
    }
  }

  /** Time may pass for every client whose deadline it does not reach. */
  lemma TickClient(sh: Shared, x: Client, i: nat, d: nat)
    requires ClientOk(sh, x, i)
    requires PayloadRunning(x) ==> Clock(sh, x) + d <= Deadline(x)
    ensures ClientOk(sh.(now := sh.now + d), x, i)
  {
    hide LocalOk, BaseOk, WorkOk, UpdateOk;
    var to := sh.(now := sh.now + d);
    assert LocalOk(to, x, i) by { TickLocal(sh, x, i, d); }
    TickUpdate(sh, x, i, d);
    if x.mode.Held? {
      TickHeld(sh, x, i, d);
    }
  }

  lemma TickLocal(sh: Shared, x: Client, i: nat, d: nat)
    requires LocalOk(sh, x, i)
    ensures LocalOk(sh.(now := sh.now + d), x, i)
  {
  }

  lemma TickUpdate(sh: Shared, x: Client, i: nat, d: nat)
    requires UpdateOk(sh, x, i)
    ensures UpdateOk(sh.(now := sh.now + d), x, i)
  {
  }

  lemma TickHeld(sh: Shared, x: Client, i: nat, d: nat)
    requires x.mode.Held? && BaseOk(sh, x, i) && WorkOk(sh, x, i, x.mode.work)
    requires PayloadRunning(x) ==> Clock(sh, x) + d <= Deadline(x)
    ensures BaseOk(sh.(now := sh.now + d), x, i) && WorkOk(sh.(now := sh.now + d), x, i, x.mode.work)
  {
  }

  lemma NextKeepsInv(s: System, t: System)
    requires Inv(s) && Next(s, t)
    ensures Inv(t)
  {
    hide ClientOk, SharedOk, Moves;
    if Ticks(s, t) {
      var d: nat :| CanTick(s, d) && t == s.(shared := s.shared.(now := s.shared.now + d));
      TickShared(s.shared, d);
      forall i | 0 <= i < |t.clients| ensures ClientOk(t.shared, t.clients[i], i) {
        TickClient(s.shared, s.clients[i], i, d);
      }
    } else {
      var i: nat, step :| Moves(s, t, i, step);
      StepKeepsInv(s, t, i, step);
    }
  }

  lemma TickShared(sh: Shared, d: nat)
    requires SharedOk(sh)
    ensures SharedOk(sh.(now := sh.now + d))
  {
  }

  lemma InitialInv(s: System)
    requires Initial(s)
    ensures Inv(s)
  {
    forall i | 0 <= i < |s.clients| ensures ClientOk(s.shared, s.clients[i], i) {
      assert s.clients[i] in s.clients;
    }
  }

  lemma RunStep(r: seq<System>, k: nat)
    requires Run(r) && k + 1 < |r|
    ensures Next(r[k], r[k + 1])
  {
  }

  lemma {:induction false} RunInv(r: seq<System>, k: nat)
    requires Run(r) && k < |r|
    ensures Inv(r[k])
  {
    if k == 0 {
      InitialInv(r[0]);
    } else {
      RunInv(r, k - 1);
      assert Next(r[k - 1], r[k - 1 + 1]);
      NextKeepsInv(r[k - 1], r[k]);
    }
  }

  // ---------------------------------------------------------------- lease safety

  /** Two clients never run payload commands together. */
  lemma PayloadExclusion(r: seq<System>, k: nat, i: nat, j: nat)
    requires Run(r) && k < |r| && i < |r[k].clients| && j < |r[k].clients|
    requires PayloadRunning(r[k].clients[i]) && PayloadRunning(r[k].clients[j])
    ensures i == j
  {
    RunInv(r, k);
    RunningIsMine(r[k].shared, r[k].clients[i], i);
    RunningIsMine(r[k].shared, r[k].clients[j], j);
  }

  /** A running payload command means that the remote file carries this session's own lock. */
  lemma RunningHoldsLock(r: seq<System>, k: nat, i: nat)
    requires Run(r) && k < |r| && i < |r[k].clients| && PayloadRunning(r[k].clients[i])
    ensures r[k].shared.file.Some? && r[k].shared.file.value.lock.Some?
    ensures r[k].shared.file.value.lock.value.owner.client == i
    ensures Clock(r[k].shared, r[k].clients[i]) <= Deadline(r[k].clients[i]) < r[k].clients[i].view.lockExpiry.GetOr(0)
  {
    RunInv(r, k);
    RunningIsMine(r[k].shared, r[k].clients[i], i);
  }

  /** A lock leaves the file in two ways only: its owner releases it, or another client takes it
      after its full TTL has passed since before it was written. */
  lemma LockLeaves(s: System, t: System, c: nat)
    requires Inv(s) && Next(s, t) && Mine(s.shared, c) && !Mine(t.shared, c)
    ensures s.shared.file.value.lock.value in s.shared.wrote
    ensures (Moves(s, t, c, LandWrite) && s.clients[c].update.why.Release?) ||
            (LockEnd(s.shared, s.shared.file.value.lock.value) <= s.shared.now &&
             exists i: nat :: i != c && Moves(s, t, i, LandAcquire))
  {
    hide ClientOk;
    if !Ticks(s, t) {
      var i: nat, step :| Moves(s, t, i, step);
      FileChange(s, t, i, step);
      if step.LandAcquire? {
        AcquiredWasExpired(s.shared, s.clients[i], i);
      } else {
        LandedIsOwn(s.shared, s.clients[i], i);
      }
    }
  }

  /** Only landing writes change the file. */
  lemma FileChange(s: System, t: System, i: nat, step: Step)
    requires Moves(s, t, i, step)
    ensures t.shared.file != s.shared.file ==> step.LandAcquire? || step.LandWrite?
  {
    hide CanAcquire, CanUpdate, CanWork, ActAcquire, ActUpdate, ActWork;
    OneKind(s.shared, s.clients[i], i, step);
  }

  /** What of the shared state each kind of step can change, and the mark of the local record. */
  lemma OneKind(sh: Shared, x: Client, i: nat, step: Step)
    requires Can(sh, x, i, step)
    ensures Act(sh, x, i, step).0.file != sh.file ==> step.LandAcquire? || step.LandWrite?
    ensures Act(sh, x, i, step).0.payload != sh.payload ==>
              !x.cancelled && x.mode.Held? && (x.mode.work.Initializing? || x.mode.work.Uploading?)
    ensures Marked(x) && !step.FinishSession? ==> Marked(Act(sh, x, i, step).1)
  {
    hide CanAcquire, CanUpdate, CanWork, ActAcquire, ActUpdate, ActWork;
    if CanAcquire(sh, x, i, step) {
      AcquireKind(sh, x, i, step);
    } else if CanUpdate(sh, x, i, step) {
      UpdateKind(sh, x, i, step);
    } else {
      WorkKind(sh, x, i, step);
    }
  }

  lemma AcquireKind(sh: Shared, x: Client, i: nat, step: Step)
    requires CanAcquire(sh, x, i, step)
    ensures ActAcquire(sh, x, i, step).0.file != sh.file ==> step.LandAcquire?
    ensures ActAcquire(sh, x, i, step).0.payload == sh.payload && ActAcquire(sh, x, i, step).1.local == x.local
  {
  }

  lemma UpdateKind(sh: Shared, x: Client, i: nat, step: Step)
    requires CanUpdate(sh, x, i, step)
    ensures ActUpdate(sh, x, i, step).0.file != sh.file ==> step.LandWrite?
    ensures ActUpdate(sh, x, i, step).0.payload == sh.payload && ActUpdate(sh, x, i, step).1.local == x.local
  {
  }

  lemma WorkKind(sh: Shared, x: Client, i: nat, step: Step)
    requires CanWork(sh, x, i, step)
    ensures x.mode.Held? && ActWork(sh, x, i, step).0.file == sh.file
    ensures ActWork(sh, x, i, step).0.payload != sh.payload ==> !x.cancelled && (x.mode.work.Initializing? || x.mode.work.Uploading?)
    ensures Marked(x) && !step.FinishSession? ==> Marked(ActWork(sh, x, i, step).1)
  {
  }

  lemma AcquiredWasExpired(sh: Shared, x: Client, i: nat)
    requires Good(sh, x, i) && CanAcquire(sh, x, i, LandAcquire)
    ensures x.mode.bid.lock.Some? && x.mode.bid.lock.value.owner.client == i
    ensures sh.file.Some? && sh.file.value.lock.Some? ==>
              sh.file.value.lock.value in sh.wrote && LockEnd(sh, sh.file.value.lock.value) <= sh.now
  {
  }

  /** A guarded update lands on a file its client owns, and leaves it its own or unlocked. */
  lemma LandedIsOwn(sh: Shared, x: Client, i: nat)
    requires Good(sh, x, i) && CanUpdate(sh, x, i, LandWrite)
    ensures Mine(sh, i)
    ensures x.update.candidate.lock.Some? ==> x.update.candidate.lock.value.owner.client == i
    ensures x.update.candidate.lock.None? <==> x.update.why.Release?
  {
  }

  /** Whoever takes over a lock of a session that has not begun to release it does so at or
      after that session's own recorded expiry, when none of its payload commands runs. The two
      clocks need not agree. */
  lemma TakeoverAfterOwnExpiry(r: seq<System>, k: nat, c: nat)
    requires Run(r) && k + 1 < |r| && c < |r[k].clients| && Guarded(r[k].clients[c])
    requires Mine(r[k].shared, c) && !Mine(r[k + 1].shared, c)
    ensures r[k].clients[c].view.lockExpiry.Some?
    ensures r[k].clients[c].view.lockExpiry.value <= Clock(r[k].shared, r[k].clients[c])
    ensures !PayloadRunning(r[k].clients[c])
  {
    RunInv(r, k);
    LockLeaves(r[k], r[k + 1], c);
    ReleaseIsClosing(r[k].shared, r[k].clients[c], c);
  }

  lemma ReleaseIsClosing(sh: Shared, x: Client, i: nat)
    requires ClientOk(sh, x, i) && Guarded(x)
    ensures x.update != NoUpdate ==> !x.update.why.Release?
    ensures x.view.lockExpiry.Some?
    ensures Mine(sh, i) ==> x.view.lockExpiry.value <= LockEnd(sh, sh.file.value.lock.value) + x.skew
    ensures PayloadRunning(x) ==> Clock(sh, x) < x.view.lockExpiry.value
  {
  }

  // ---------------------------------------------------------------- fencing

  /** A client that does not own the file can only come to own it by acquiring it. */
  lemma OwnershipIsAcquired(s: System, t: System, i: nat)
    requires Inv(s) && Next(s, t) && !Mine(s.shared, i) && !Moves(s, t, i, LandAcquire)
    ensures !Mine(t.shared, i)
  {
    hide ClientOk;
    if !Ticks(s, t) {
      var j: nat, step :| Moves(s, t, j, step);
      FileChange(s, t, j, step);
      if step.LandAcquire? {
        AcquiredWasExpired(s.shared, s.clients[j], j);
      } else if step.LandWrite? {
        LandedIsOwn(s.shared, s.clients[j], j);
      }
    }
  }

  ghost predicate NoAcquisition(r: seq<System>, from: nat, to: nat, i: nat) {
    forall n :: from <= n < to && n + 1 < |r| ==> !Moves(r[n], r[n + 1], i, LandAcquire)
  }

  /** Once the file is no longer a client's, and until that client acquires again, none of its
      guarded updates can land, whatever it read or wrote before. */
  lemma {:induction false} Fencing(r: seq<System>, k: nat, m: nat, i: nat)
    requires Run(r) && k <= m < |r| && !Mine(r[k].shared, i) && NoAcquisition(r, k, m, i)
    ensures !Mine(r[m].shared, i)
    ensures m + 1 < |r| ==> !Moves(r[m], r[m + 1], i, LandWrite)
    decreases m
  {
    hide Run, Next, Moves, Inv, Mine;
    RunInv(r, m);
    if k < m {
      Fencing(r, k, m - 1, i);
      RunInv(r, m - 1);
      RunStep(r, m - 1);
      OwnershipIsAcquired(r[m - 1], r[m], i);
    }
    if m + 1 < |r| && Moves(r[m], r[m + 1], i, LandWrite) { LandsOnOwn(r[m], r[m + 1], i); }
  }

  lemma LandsOnOwn(s: System, t: System, i: nat)
    requires Inv(s) && Moves(s, t, i, LandWrite)
    ensures Mine(s.shared, i)
  {
    hide ClientOk, SharedOk, Act;
    LandedIsOwn(s.shared, s.clients[i], i);
  }

  // ---------------------------------------------------------------- one lineage

  /** Verified history only grows, never changes what it says, and the file is never behind it. */
  ghost predicate HistoryExtends(sh: Shared, to: Shared) {
    && sh.top <= to.top
    && (forall g :: g in sh.ids ==> g in to.ids && to.ids[g] == sh.ids[g])
    && (forall id :: id in sh.finished ==> id in to.finished && to.finished[id] == sh.finished[id])
    && (sh.file.Some? ==>
          to.file.Some? && to.file.value.repo == sh.file.value.repo && sh.top <= to.file.value.generation)
  }

  lemma StepExtends(s: System, t: System)
    requires Inv(s) && Next(s, t)
    ensures HistoryExtends(s.shared, t.shared)
  {
    hide ClientOk, Can, Act;
    NextKeepsInv(s, t);
    if !Ticks(s, t) {
      var i: nat, step :| Moves(s, t, i, step);
      ActKeeps(s.shared, s.clients[i], i, step);
      assert Rely(s.shared, t.shared, i + 1);
    }
  }

  lemma {:induction false} Lineage(r: seq<System>, k: nat, m: nat)
    requires Run(r) && k <= m < |r|
    ensures HistoryExtends(r[k].shared, r[m].shared)
    decreases m
  {
    hide Next, Moves, Initial, Inv, HistoryExtends;
    if k == m {
      RunInv(r, m);
      LineageStart(r[m]);
    } else {
      Lineage(r, k, m - 1);
      RunInv(r, m - 1);
      RunStep(r, m - 1);
      StepExtends(r[m - 1], r[m]);
      ExtendsTransitive(r[k].shared, r[m - 1].shared, r[m].shared);
    }
  }

  lemma LineageStart(s: System)
    requires Inv(s)
    ensures HistoryExtends(s.shared, s.shared)
  {
  }

  lemma ExtendsTransitive(a: Shared, b: Shared, c: Shared)
    requires HistoryExtends(a, b) && HistoryExtends(b, c)
    ensures HistoryExtends(a, c)
  {
  }

  /** Any two verified bases of one generation, of any owners at any times, have one sync ID;
      and a session that still owns the file has the newest base. */
  lemma OneSyncIdPerGeneration(r: seq<System>, k: nat, m: nat, i: nat, j: nat)
    requires Run(r) && k <= m < |r| && i < |r[k].clients| && j < |r[m].clients|
    requires r[k].clients[i].mode.Held? && r[m].clients[j].mode.Held?
    ensures var a, b := Base(r[k].clients[i]), Base(r[m].clients[j]);
            a.repo == b.repo && (a.generation == b.generation ==> a.syncId == b.syncId)
    ensures Mine(r[m].shared, j) && !ReadBack(r[m].clients[j]) ==>
              Base(r[k].clients[i]).generation <= Base(r[m].clients[j]).generation
  {
    RunInv(r, k);
    RunInv(r, m);
    Lineage(r, k, m);
    HeldBase(r[k].shared, r[k].clients[i], i);
    HeldBase(r[m].shared, r[m].clients[j], j);
  }

  lemma HeldBase(sh: Shared, x: Client, i: nat)
    requires ClientOk(sh, x, i) && x.mode.Held?
    ensures VerifiedRecord(sh, Base(x)) && sh.file.Some? && Base(x).repo == sh.file.value.repo
    ensures Mine(sh, i) && !ReadBack(x) ==> sh.top == Base(x).generation
  {
  }

  /** The file's own generation is not monotone. It drops exactly when the owner's refresh or release
      writes its verified base back over a publication that landed but was never verified, and it
      drops back to the newest verified generation. A completion never meets such a publication. */
  lemma GenerationDrops(s: System, t: System, i: nat, step: Step)
    requires Inv(s) && Moves(s, t, i, step) && s.shared.file.Some?
    ensures t.shared.file.Some?
    ensures t.shared.file.value.generation < s.shared.file.value.generation <==>
            step.LandWrite? && s.shared.file.value.generation == s.shared.top + 1 &&
            (s.clients[i].update.why in {Refresh, Release})
    ensures t.shared.file.value.generation < s.shared.file.value.generation ==>
              t.shared.file.value.generation == s.shared.top
    ensures step.LandWrite? && s.clients[i].update.why.Complete? ==> s.shared.file.value.generation == s.shared.top
  {
    FileChange(s, t, i, step);
    StepKeepsInv(s, t, i, step);
    if step.LandWrite? {
      DropByOwner(s.shared, s.clients[i], i);
    } else if step.LandAcquire? {
      AcquisitionIsNeutral(s.shared, s.clients[i], i);
    }
  }

  lemma DropByOwner(sh: Shared, x: Client, i: nat)
    requires Good(sh, x, i) && CanUpdate(sh, x, i, LandWrite)
    ensures sh.top <= sh.file.value.generation <= sh.top + 1
    ensures x.update.why.Continue? ==> x.update.candidate.generation == sh.file.value.generation
    ensures x.update.why.Publish? || x.update.why.FinishInit? ==> x.update.candidate.generation == sh.top + 1
    ensures x.update.why in {Refresh, Release, Complete} ==> x.update.candidate.generation == sh.top
    ensures x.update.why.Complete? ==> sh.file.value.generation == sh.top
  {
  }

  // ---------------------------------------------------------------- acquisition

  /** An acquisition changes the lock and nothing else, on the very record it last validated. */
  lemma AcquisitionIsNeutral(sh: Shared, x: Client, i: nat)
    requires Good(sh, x, i) && CanAcquire(sh, x, i, LandAcquire)
    ensures sh.file.Some? ==> SameCore(sh.file.value, x.mode.bid)
    ensures sh.file.None? ==> x.mode.bid.generation == 0 && !x.mode.bid.syncing
    ensures ValidateAcquisition(x.local, Some(x.mode.bid), x.failOnIncomplete, true) == None
  {
  }

  /** For clients that follow the protocol, neither a foreign repository nor a local generation
      ahead of the remote is ever met: not when acquiring, not at startup. */
  lemma NoDeadEnd(r: seq<System>, k: nat, i: nat)
    requires Run(r) && k < |r| && i < |r[k].clients|
    ensures var x := r[k].clients[i];
            x.mode.Observing? ==>
              forall allowed :: ValidateAcquisition(x.local, x.mode.obs, x.failOnIncomplete, allowed)
                                in {None, Some(Untracked), Some(IncompleteRemote)}
    ensures var x := r[k].clients[i];
            x.mode.Held? && x.mode.work.Startup? ==>
              StartupBranch(x.local, Base(x)) in {Initialize, Download, Recover, Current}
  {
    RunInv(r, k);
    NoObjection(r[k].shared, r[k].clients[i], i);
  }

  lemma NoObjection(sh: Shared, x: Client, i: nat)
    requires ClientOk(sh, x, i)
    ensures x.mode.Observing? ==>
              forall allowed :: ValidateAcquisition(x.local, x.mode.obs, x.failOnIncomplete, allowed)
                                in {None, Some(Untracked), Some(IncompleteRemote)}
    ensures x.mode.Held? && x.mode.work.Startup? ==>
              StartupBranch(x.local, Base(x)) in {Initialize, Download, Recover, Current}
  {
  }

  /** What holds of every local record at every moment of every run. */
  lemma LocalNeverFarAhead(r: seq<System>, k: nat, i: nat)
    requires Run(r) && k < |r| && i < |r[k].clients| && r[k].clients[i].local.Some?
    ensures r[k].clients[i].local.value.generation <= r[k].shared.top + 1
    ensures r[k].clients[i].local.value.generation == r[k].shared.top + 1 ==> r[k].clients[i].local.value.syncing
    ensures r[k].shared.file.Some? && r[k].shared.top <= r[k].shared.file.value.generation
  {
    RunInv(r, k);
  }

  /** A recovery upload starts only from the very record the remote has, or from an advance made
      from exactly that record and never published; so it overwrites nobody's later upload. */
  lemma RecoveryOverwritesNothing(r: seq<System>, k: nat, i: nat)
    requires Run(r) && k < |r| && i < |r[k].clients|
    requires r[k].clients[i].mode == Held(Startup)
    requires StartupBranch(r[k].clients[i].local, Base(r[k].clients[i])) == Recover
    ensures var x := r[k].clients[i]; var mine, base := x.local.value, Base(x);
            (mine.generation == base.generation && mine.syncId == base.syncId) ||
            (mine.generation == base.generation + 1 && mine.syncing && x.origin == Some(base.syncId))
  {
    RunInv(r, k);
  }

  /** With fail-on-incomplete, no download begins from a record marked incomplete. */
  lemma NoIncompleteDownload(r: seq<System>, k: nat, i: nat)
    requires Run(r) && k < |r| && i < |r[k].clients| && r[k].clients[i].failOnIncomplete
    requires r[k].clients[i].mode == Held(Downloading)
    ensures !Base(r[k].clients[i]).syncing
  {
    RunInv(r, k);
  }

  // ---------------------------------------------------------------- what the remote payload is

  /** In every reachable state, a complete remote record stands for exactly the payload whose
      upload finished under its sync ID. */
  lemma CommitHolds(r: seq<System>, k: nat)
    requires Run(r) && k < |r|
    ensures var sh := r[k].shared;
            sh.file.Some? && sh.file.value.generation >= 1 && !sh.file.value.syncing ==>
              sh.file.value.syncId in sh.finished && sh.payload == sh.finished[sh.file.value.syncId]
  {
    RunInv(r, k);
  }

  /** The remote payload changes only under the lock of the client that changes it, and only
      while the remote record says that it is incomplete. */
  lemma PayloadChangesUnderCover(r: seq<System>, k: nat)
    requires Run(r) && k + 1 < |r| && r[k + 1].shared.payload != r[k].shared.payload
    ensures exists i: nat :: i < |r[k].clients| && PayloadRunning(r[k].clients[i]) && Mine(r[k].shared, i)
    ensures r[k].shared.file.Some? && (r[k].shared.file.value.syncing || r[k].shared.file.value.generation == 0)
  {
    RunInv(r, k);
    var i: nat, step :| Moves(r[k], r[k + 1], i, step);
    PayloadStep(r[k], r[k + 1], i, step);
  }

  lemma PayloadStep(s: System, t: System, i: nat, step: Step)
    requires Inv(s) && Moves(s, t, i, step) && t.shared.payload != s.shared.payload
    ensures PayloadRunning(s.clients[i]) && Mine(s.shared, i)
    ensures s.shared.file.value.syncing || s.shared.file.value.generation == 0
  {
    hide SharedOk, ClientOk, Can, Act;
    PayloadChange(s, t, i, step);
    RunningIsMine(s.shared, s.clients[i], i);
    UploadIsIncomplete(s.shared, s.clients[i], i);
  }

  lemma PayloadChange(s: System, t: System, i: nat, step: Step)
    requires Moves(s, t, i, step) && t.shared.payload != s.shared.payload
    ensures var x := s.clients[i];
            x.mode.Held? && !x.cancelled && (x.mode.work.Initializing? || x.mode.work.Uploading?)
  {
    hide Can, Act;
    OneKind(s.shared, s.clients[i], i, step);
  }

  lemma UploadIsIncomplete(sh: Shared, x: Client, i: nat)
    requires ClientOk(sh, x, i) && Mine(sh, i) && x.mode.Held?
    requires x.mode.work.Initializing? || x.mode.work.Uploading?
    ensures sh.file.value.syncing || sh.file.value.generation == 0
  {
  }

  // ---------------------------------------------------------------- skipping and recovering

  /** Startup skips reconciliation only when the local payload is exactly what was uploaded under
      the sync ID of its base, cancelled or late as the session may be; and as long as its lock has
      not run out, that is the remote payload. */
  lemma SoundSkip(r: seq<System>, k: nat, i: nat)
    requires Run(r) && k < |r| && i < |r[k].clients| && r[k].clients[i].mode == Held(Startup)
    requires StartupBranch(r[k].clients[i].local, Base(r[k].clients[i])) == Current
    ensures var sh, x := r[k].shared, r[k].clients[i];
            && Base(x).syncId in sh.finished && x.payload == sh.finished[Base(x).syncId]
            && (Mine(sh, i) ==> x.payload == sh.payload)
            && (Clock(sh, x) < x.view.lockExpiry.GetOr(0) ==> Mine(sh, i))
  {
    RunInv(r, k);
    SkipAgrees(r[k].shared, r[k].clients[i], i);
  }

  lemma SkipAgrees(sh: Shared, x: Client, i: nat)
    requires Good(sh, x, i) && x.mode == Held(Startup) && StartupBranch(x.local, Base(x)) == Current
    ensures Base(x).syncId in sh.finished && x.payload == sh.finished[Base(x).syncId]
    ensures Mine(sh, i) ==> x.payload == sh.payload
    ensures Clock(sh, x) < x.view.lockExpiry.GetOr(0) ==> Mine(sh, i)
  {
  }

  /** A marked session is never skipped over, whatever the remote says. */
  lemma MarkedNeverSkips(local: Option<Local>, remote: Record)
    requires local.Some? ==> local.value.active
    ensures StartupBranch(local, remote) != Current
  {
  }

  lemma MarkStays(s: System, t: System, i: nat)
    requires Next(s, t) && i < |s.clients| && Marked(s.clients[i]) && !Moves(s, t, i, FinishSession)
    ensures i < |t.clients| && Marked(t.clients[i])
  {
    if !Ticks(s, t) {
      var j: nat, step :| Moves(s, t, j, step);
      if j == i { MarkStep(s, t, i, step); }
    }
  }

  lemma MarkStep(s: System, t: System, i: nat, step: Step)
    requires Moves(s, t, i, step) && Marked(s.clients[i]) && !step.FinishSession?
    ensures Marked(t.clients[i])
  {
    hide Can, Act;
    OneKind(s.shared, s.clients[i], i, step);
  }

  ghost predicate NotFinished(r: seq<System>, from: nat, to: nat, i: nat) {
    forall n :: from <= n < to && n + 1 < |r| ==> !Moves(r[n], r[n + 1], i, FinishSession)
  }

  /** From the moment a session is marked, through any crash, restart, upload or download, and
      until some session of the client finishes cleanly, no startup takes the skipping branch. */
  lemma {:induction false} InterruptedNeverSkips(r: seq<System>, k: nat, m: nat, i: nat)
    requires Run(r) && k <= m < |r| && i < |r[k].clients| && Marked(r[k].clients[i]) && NotFinished(r, k, m, i)
    ensures i < |r[m].clients| && Marked(r[m].clients[i])
    ensures r[m].clients[i].mode == Held(Startup) ==>
              StartupBranch(r[m].clients[i].local, Base(r[m].clients[i])) != Current
    decreases m
  {
    hide Next, StartupBranch, Moves, Initial;
    if k < m {
      InterruptedNeverSkips(r, k, m - 1, i);
      RunStep(r, m - 1);
      MarkStays(r[m - 1], r[m], i);
    }
    MarkedNeverSkips(r[m].clients[i].local, Base(r[m].clients[i]));
  }

  /** A session finishes cleanly only with its payload uploaded or its record still incomplete. */
  lemma FinishIsClean(r: seq<System>, k: nat, i: nat)
    requires Run(r) && k + 1 < |r| && Moves(r[k], r[k + 1], i, FinishSession)
    ensures var x := r[k].clients[i];
            x.local.Some? && (x.local.value.syncing || PayloadKept(r[k].shared, x, x.local.value.syncId))
  {
    RunInv(r, k);
  }
}
