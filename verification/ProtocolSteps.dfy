/** Every step keeps the invariant: one small lemma a step. */
module ProtocolSteps {
  import opened Prelude
  import opened StateFile
  import opened Protocol
  import opened ProtocolInvariant

  /** What one step owes: the shared state and the acting client stay well-formed, and every
      other client may rely on it. */
  ghost predicate Keeps(sh: Shared, next: Pair, i: nat) {
    SharedOk(next.0) && ClientOk(next.0, next.1, i) && forall j: nat :: j != i ==> Rely(sh, next.0, j)
  }

  ghost predicate Good(sh: Shared, x: Client, i: nat) {
    SharedOk(sh) && ClientOk(sh, x, i)
  }

  lemma NothingShared(sh: Shared)
    ensures forall j: nat :: Rely(sh, sh, j)
  {
  }

  // ---------------------------------------------------------------- acquisition

  lemma BootKeeps(sh: Shared, x: Client, i: nat, step: Step)
    requires Good(sh, x, i) && step.Boot? && CanAcquire(sh, x, i, step)
    ensures Keeps(sh, ActAcquire(sh, x, i, step), i)
  {
    FoundOk(sh, x, i);
  }

  /** The local record against the state file as it is now. */
  lemma FoundOk(sh: Shared, x: Client, i: nat)
    requires SharedOk(sh) && LocalOk(sh, x, i)
    ensures StartOk(x, sh.file)
  {
  }

  lemma ObserveKeeps(sh: Shared, x: Client, i: nat, step: Step)
    requires Good(sh, x, i) && (step.Reread? || step.Note? || step.Retry?) && CanAcquire(sh, x, i, step)
    ensures Keeps(sh, ActAcquire(sh, x, i, step), i)
  {
    hide BaseOk, WorkOk, UpdateOk;
    IdleUpdate(ActAcquire(sh, x, i, step).0, ActAcquire(sh, x, i, step).1, i);
    FoundOk(sh, x, i);
  }

  lemma IssueAcquireKeeps(sh: Shared, x: Client, i: nat, step: Step)
    requires Good(sh, x, i) && step.IssueAcquire? && CanAcquire(sh, x, i, step)
    ensures Keeps(sh, ActAcquire(sh, x, i, step), i)
  {
    hide BaseOk, WorkOk, UpdateOk;
    IdleUpdate(ActAcquire(sh, x, i, step).0, ActAcquire(sh, x, i, step).1, i);
    assert NewLock(x) !in sh.wrote;
  }

  lemma LandAcquireKeeps(sh: Shared, x: Client, i: nat, step: Step)
    requires Good(sh, x, i) && step.LandAcquire? && CanAcquire(sh, x, i, step)
    ensures Keeps(sh, ActAcquire(sh, x, i, step), i)
  {
  }

  lemma CheckAcquireKeeps(sh: Shared, x: Client, i: nat, step: Step)
    requires Good(sh, x, i) && step.CheckAcquire? && CanAcquire(sh, x, i, step)
    ensures Keeps(sh, ActAcquire(sh, x, i, step), i)
  {
    hide Rely;
    NothingShared(sh);
    FoundOk(sh, x, i);
    if sh.file == Some(x.mode.bid) { CheckShared(sh, x, i); }
  }

  /** The acquired record becomes the newest verified one. */
  lemma CheckShared(sh: Shared, x: Client, i: nat)
    requires Good(sh, x, i) && x.mode.Acquiring? && sh.file == Some(x.mode.bid)
    ensures SharedOk(RecordVerified(sh, x.mode.bid))
    ensures forall j: nat :: j != i ==> Rely(sh, RecordVerified(sh, x.mode.bid), j)
  {
    hide LocalOk, UpdateOk, StartOk;
  }

  lemma EnterKeeps(sh: Shared, x: Client, i: nat, step: Step)
    requires Good(sh, x, i) && step.Enter? && CanAcquire(sh, x, i, step)
    ensures Keeps(sh, ActAcquire(sh, x, i, step), i)
  {
  }

  lemma BeginContinueKeeps(sh: Shared, x: Client, i: nat, step: Step)
    requires Good(sh, x, i) && step.BeginContinue? && CanAcquire(sh, x, i, step)
    ensures Keeps(sh, ActAcquire(sh, x, i, step), i)
  {
    assert NewLock(x) !in sh.wrote;
  }

  lemma CrashKeeps(sh: Shared, x: Client, i: nat, step: Step)
    requires Good(sh, x, i) && step.Crash? && CanAcquire(sh, x, i, step)
    ensures Keeps(sh, ActAcquire(sh, x, i, step), i)
  {
  }

  lemma CancelKeeps(sh: Shared, x: Client, i: nat, step: Step)
    requires Good(sh, x, i) && step.Cancel? && CanAcquire(sh, x, i, step)
    ensures Keeps(sh, ActAcquire(sh, x, i, step), i)
  {
    hide LocalOk, BaseOk, WorkOk, UpdateOk;
    var y := x.(cancelled := true);
    assert PendingOk(sh, y) by { HeldPending(sh, x, i); }
    SameLocal(sh, x, y, i);
    SameBase(sh, x, y, i);
    SameWork(sh, x, y, i);
    SameUpdate(sh, x, y, i);
  }

  lemma HeldPending(sh: Shared, x: Client, i: nat)
    requires BaseOk(sh, x, i)
    ensures PendingOk(sh, x)
  {
  }

  // What each part of the client's invariant looks at.

  lemma SameLocal(sh: Shared, x: Client, y: Client, i: nat)
    requires LocalOk(sh, x, i)
    requires y.local == x.local && y.payload == x.payload && y.origin == x.origin
    ensures LocalOk(sh, y, i)
  {
  }

  lemma SameBase(sh: Shared, x: Client, y: Client, i: nat)
    requires x.mode.Held? && BaseOk(sh, x, i)
    requires y.owner == x.owner && y.timeout == x.timeout && y.skew == x.skew && y.mode.Held?
    requires Base(y) == Base(x) && y.view.lockExpiry == x.view.lockExpiry && PendingOk(sh, y)
    requires (Guarded(y) ==> Guarded(x)) && (ReadBack(x) ==> ReadBack(y))
    requires PayloadRunning(y) ==> PayloadRunning(x) || Clock(sh, x) <= Deadline(x)
    ensures BaseOk(sh, y, i)
  {
  }

  lemma SameWork(sh: Shared, x: Client, y: Client, i: nat)
    requires x.mode.Held? && WorkOk(sh, x, i, x.mode.work)
    requires y == x.(cancelled := y.cancelled, stamps := y.stamps, update := y.update, view := y.view)
    requires Base(y) == Base(x)
    requires x.mode.work.Publishing? ==> y.update != NoUpdate && y.update.candidate.syncId == x.update.candidate.syncId
    ensures WorkOk(sh, y, i, x.mode.work)
  {
  }

  lemma SameUpdate(sh: Shared, x: Client, y: Client, i: nat)
    requires UpdateOk(sh, x, i)
    requires y == x.(cancelled := y.cancelled)
    ensures UpdateOk(sh, y, i)
  {
  }

  // ---------------------------------------------------------------- guarded updates

  lemma BeginRefreshKeeps(sh: Shared, x: Client, i: nat, step: Step)
    requires Good(sh, x, i) && step.BeginRefresh? && CanUpdate(sh, x, i, step)
    ensures Keeps(sh, ActUpdate(sh, x, i, step), i)
  {
    assert NewLock(x) !in sh.wrote;
  }

  lemma ReadLatestKeeps(sh: Shared, x: Client, i: nat, step: Step)
    requires Good(sh, x, i) && step.ReadLatest? && CanUpdate(sh, x, i, step)
    ensures Keeps(sh, ActUpdate(sh, x, i, step), i)
  {
    StageKeeps(sh, x, ActUpdate(sh, x, i, step).1, i);
  }

  lemma FailureKeeps(sh: Shared, x: Client, i: nat)
    requires Good(sh, x, i) && x.update != NoUpdate && !ReadBack(x)
    ensures ClientOk(sh, AfterFailure(x), i)
  {
    hide LocalOk, BaseOk, WorkOk, UpdateOk;
    var y := AfterFailure(x);
    SameLocal(sh, x, y, i);
    IdleUpdate(sh, y, i);
    if y.mode.Held? {
      assert PendingOk(sh, y) by { HeldPending(sh, x, i); }
      SameBase(sh, x, y, i);
      FailureWork(sh, x, i);
    }
  }

  lemma IdleUpdate(sh: Shared, x: Client, i: nat)
    requires x.update == NoUpdate
    ensures UpdateOk(sh, x, i)
  {
  }

  lemma FailureWork(sh: Shared, x: Client, i: nat)
    requires x.update != NoUpdate && x.mode.Held? && UpdateFits(x) && WorkOk(sh, x, i, x.mode.work)
    ensures var y := AfterFailure(x); y.mode.Held? ==> WorkOk(sh, y, i, y.mode.work) && UpdateFits(y)
  {
  }

  /** The plan of a guarded update: an own, issued lock, and an expiry that is that lock's. */
  lemma PlanOk(sh: Shared, x: Client, i: nat, to: Shared, plan: Plan)
    requires Good(sh, x, i) && x.update.Got?
    requires plan == PlanWrite(x.view, x.owner, Base(x), x.update.candidate, x.update.found, x.timeout, Clock(sh, x))
    requires plan.Write?
    requires to == if plan.candidate.lock.Some? && plan.candidate.lock.value !in sh.wrote
                   then sh.(wrote := sh.wrote[plan.candidate.lock.value := sh.now]) else sh
    ensures IssuedLock(to, x, plan.candidate, plan.expires)
    ensures SameCore(plan.candidate, x.update.candidate)
    ensures plan.candidate.lock.None? <==> x.update.why.Release?
    ensures OwnedBy(x.update.found, x.owner)
    ensures x.update.why.Continue? ==> x.update.found == Some(Base(x))
    ensures plan.candidate.lock.Some? && plan.candidate.lock.value !in sh.wrote ==> NewOwnLock(sh, x, plan.candidate.lock)
  {
  }

  lemma IssueKeeps(sh: Shared, x: Client, i: nat, step: Step)
    requires Good(sh, x, i) && step.Issue? && CanUpdate(sh, x, i, step)
    ensures Keeps(sh, ActUpdate(sh, x, i, step), i)
  {
    var plan := PlanWrite(x.view, x.owner, Base(x), x.update.candidate, x.update.found, x.timeout, Clock(sh, x));
    var y := x.(view := Remember(x.view, plan));
    if plan.Refuse? {
      ForgetOk(sh, x, y, i);
      FailureKeeps(sh, y, i);
    } else {
      var next := ActUpdate(sh, x, i, step);
      PlanOk(sh, x, i, next.0, plan);
      assert forall j: nat :: j != i ==> Rely(sh, next.0, j);
      IssuedShared(sh, next.0, x, plan.candidate.lock);
      IssuedClient(sh, next.0, x, next.1, i, plan);
    }
  }

  lemma ForgetOk(sh: Shared, x: Client, y: Client, i: nat)
    requires Good(sh, x, i) && !ReadBack(x) && x.update != NoUpdate
    requires y == x || (y == x.(view := x.view.(pending := None, pendingExpiry := None)))
    ensures Good(sh, y, i)
  {
    hide LocalOk, BaseOk, WorkOk, UpdateOk, SharedOk;
    SameLocal(sh, x, y, i);
    ForgetUpdate(sh, x, y, i);
    if x.mode.Held? {
      assert PendingOk(sh, y) by { HeldPending(sh, x, i); }
      SameBase(sh, x, y, i);
      SameWork(sh, x, y, i);
    }
  }

  lemma ForgetUpdate(sh: Shared, x: Client, y: Client, i: nat)
    requires UpdateOk(sh, x, i) && !ReadBack(x)
    requires y == x || (y == x.(view := x.view.(pending := None, pendingExpiry := None)))
    ensures UpdateOk(sh, y, i)
  {
  }

  lemma IssuedShared(sh: Shared, to: Shared, x: Client, lock: Option<Lock>)
    requires SharedOk(sh) && x.timeout > 0
    requires lock.Some? && lock.value !in sh.wrote ==> NewOwnLock(sh, x, lock)
    requires to == if lock.Some? && lock.value !in sh.wrote then sh.(wrote := sh.wrote[lock.value := sh.now]) else sh
    ensures SharedOk(to)
  {
  }

  lemma IssuedClient(sh: Shared, to: Shared, x: Client, y: Client, i: nat, plan: Plan)
    requires Good(sh, x, i) && x.update.Got? && plan.Write?
    requires IssuedLock(to, x, plan.candidate, plan.expires) && SameCore(plan.candidate, x.update.candidate)
    requires plan.candidate.lock.None? <==> x.update.why.Release?
    requires OwnedBy(x.update.found, x.owner) && (x.update.why.Continue? ==> x.update.found == Some(Base(x)))
    requires plan.candidate.lock.Some? && plan.candidate.lock.value !in sh.wrote ==> NewOwnLock(sh, x, plan.candidate.lock)
    requires to == if plan.candidate.lock.Some? && plan.candidate.lock.value !in sh.wrote
                   then sh.(wrote := sh.wrote[plan.candidate.lock.value := sh.now]) else sh
    requires y == x.(view := Remember(x.view, plan),
                     update := Writing(x.update.why, plan.candidate, x.update.found.value, plan.expires, false))
    ensures ClientOk(to, y, i)
  {
    hide LocalOk, BaseOk, WorkOk, UpdateOk;
    assert LocalOk(to, y, i) by { SameLocal(sh, x, y, i); LocksOnlyLocal(sh, to, y, i); }
    IssuedUpdate(sh, to, x, y, i, plan);
    if x.mode.Held? {
      assert WorkOk(to, y, i, y.mode.work) by { SameWork(sh, x, y, i); LocksOnlyWork(sh, to, y, i); }
      assert BaseOk(to, y, i) by { IssuedBase(sh, to, x, y, i); }
    }
  }

  lemma LocksOnlyLocal(sh: Shared, to: Shared, x: Client, i: nat)
    requires to == sh.(wrote := to.wrote) && LocalOk(sh, x, i)
    ensures LocalOk(to, x, i)
  {
  }

  lemma LocksOnlyWork(sh: Shared, to: Shared, x: Client, i: nat)
    requires to == sh.(wrote := to.wrote) && x.mode.Held? && WorkOk(sh, x, i, x.mode.work)
    ensures WorkOk(to, x, i, x.mode.work)
  {
  }

  lemma IssuedUpdate(sh: Shared, to: Shared, x: Client, y: Client, i: nat, plan: Plan)
    requires UpdateOk(sh, x, i) && x.update.Got? && plan.Write? && to == sh.(wrote := to.wrote)
    requires IssuedLock(to, x, plan.candidate, plan.expires) && SameCore(plan.candidate, x.update.candidate)
    requires plan.candidate.lock.None? <==> x.update.why.Release?
    requires OwnedBy(x.update.found, x.owner) && (x.update.why.Continue? ==> x.update.found == Some(Base(x)))
    requires y == x.(view := Remember(x.view, plan),
                     update := Writing(x.update.why, plan.candidate, x.update.found.value, plan.expires, false))
    ensures UpdateOk(to, y, i)
  {
  }

  lemma IssuedBase(sh: Shared, to: Shared, x: Client, y: Client, i: nat)
    requires x.mode.Held? && BaseOk(sh, x, i) && !ReadBack(x) && to == sh.(wrote := to.wrote)
    requires forall lock :: lock in sh.wrote ==> lock in to.wrote && to.wrote[lock] == sh.wrote[lock]
    requires y == x.(view := y.view, update := y.update) && Base(y) == Base(x)
    requires y.view.lockExpiry == x.view.lockExpiry && PendingOk(to, y)
    ensures BaseOk(to, y, i)
  {
  }

  lemma LandWriteKeeps(sh: Shared, x: Client, i: nat, step: Step)
    requires Good(sh, x, i) && step.LandWrite? && CanUpdate(sh, x, i, step)
    ensures Keeps(sh, ActUpdate(sh, x, i, step), i)
  {
    var next := ActUpdate(sh, x, i, step);
    assert Mine(sh, i);
    assert SharedOk(next.0) by { LandShared(sh, x, i); }
    LandClient(sh, x, i);
  }

  lemma LandShared(sh: Shared, x: Client, i: nat)
    requires Good(sh, x, i) && CanUpdate(sh, x, i, LandWrite)
    ensures SharedOk(sh.(file := Some(x.update.candidate))) && x.update.candidate.repo == sh.file.value.repo
    ensures forall j: nat :: j != i ==> Rely(sh, sh.(file := Some(x.update.candidate)), j)
  {
  }

  lemma LandClient(sh: Shared, x: Client, i: nat)
    requires Good(sh, x, i) && CanUpdate(sh, x, i, LandWrite)
    requires x.update.candidate.repo == sh.file.value.repo && SharedOk(sh.(file := Some(x.update.candidate)))
    ensures ClientOk(sh.(file := Some(x.update.candidate)), x.(update := x.update.(landed := true)), i)
  {
    hide LocalOk, BaseOk, WorkOk, UpdateOk;
    var to := sh.(file := Some(x.update.candidate));
    var y := x.(update := x.update.(landed := true));
    LandLocal(sh, x, i);
    LandUpdate(sh, x, i);
    if x.mode.Held? {
      LandBase(sh, x, i);
      LandWork(sh, x, i);
    }
  }

  lemma LandLocal(sh: Shared, x: Client, i: nat)
    requires LocalOk(sh, x, i) && x.update.Writing? && sh.file.Some? && x.update.candidate.repo == sh.file.value.repo
    ensures LocalOk(sh.(file := Some(x.update.candidate)), x.(update := x.update.(landed := true)), i)
  {
  }

  /** The file was the client's before its write landed. */
  lemma LandWasMine(sh: Shared, x: Client, i: nat)
    requires Good(sh, x, i) && CanUpdate(sh, x, i, LandWrite)
    ensures Mine(sh, i)
  {
  }

  lemma LandUpdate(sh: Shared, x: Client, i: nat)
    requires Good(sh, x, i) && CanUpdate(sh, x, i, LandWrite)
    ensures UpdateOk(sh.(file := Some(x.update.candidate)), x.(update := x.update.(landed := true)), i)
  {
    LandWasMine(sh, x, i);
  }

  lemma LandBase(sh: Shared, x: Client, i: nat)
    requires Good(sh, x, i) && CanUpdate(sh, x, i, LandWrite) && x.mode.Held?
    requires x.update.candidate.repo == sh.file.value.repo
    ensures BaseOk(sh.(file := Some(x.update.candidate)), x.(update := x.update.(landed := true)), i)
  {
    LandWasMine(sh, x, i);
  }

  lemma LandWork(sh: Shared, x: Client, i: nat)
    requires Good(sh, x, i) && CanUpdate(sh, x, i, LandWrite) && x.mode.Held?
    ensures WorkOk(sh.(file := Some(x.update.candidate)), x.(update := x.update.(landed := true)), i, x.mode.work)
  {
    LandWasMine(sh, x, i);
  }

  lemma ReportOkKeeps(sh: Shared, x: Client, i: nat, step: Step)
    requires Good(sh, x, i) && step.ReportOk? && CanUpdate(sh, x, i, step)
    ensures Keeps(sh, ActUpdate(sh, x, i, step), i)
  {
    StageKeeps(sh, x, ActUpdate(sh, x, i, step).1, i);
  }

  lemma FailUpdateKeeps(sh: Shared, x: Client, i: nat, step: Step)
    requires Good(sh, x, i) && step.FailUpdate? && CanUpdate(sh, x, i, step)
    ensures Keeps(sh, ActUpdate(sh, x, i, step), i)
  {
    hide ClientOk, Rely;
    NothingShared(sh);
    FailureKeeps(sh, x, i);
  }

  /** The next stage of the same update, nothing else changed. */
  lemma StageKeeps(sh: Shared, x: Client, y: Client, i: nat)
    requires ClientOk(sh, x, i) && !ReadBack(x) && !ReadBack(y)
    requires x.update != NoUpdate && y.update != NoUpdate && y == x.(update := y.update)
    requires y.update.why == x.update.why && y.update.candidate == x.update.candidate && UpdateOk(sh, y, i)
    requires (y.update.Reading? || y.update.Got?) ==> (x.update.Reading? || x.update.Got?)
    ensures ClientOk(sh, y, i)
  {
    hide LocalOk, BaseOk, WorkOk, UpdateOk;
    SameLocal(sh, x, y, i);
    if x.mode.Held? {
      assert PendingOk(sh, y) by { HeldPending(sh, x, i); }
      SameBase(sh, x, y, i);
      SameWork(sh, x, y, i);
    }
  }

  lemma VerifyReadKeeps(sh: Shared, x: Client, i: nat, step: Step)
    requires Good(sh, x, i) && step.VerifyRead? && CanUpdate(sh, x, i, step)
    ensures Keeps(sh, ActUpdate(sh, x, i, step), i)
  {
    if sh.file == Some(x.update.candidate) {
      VerifyShared(sh, x, i);
      VerifyClient(sh, x, i);
    } else {
      StageKeeps(sh, x, ActUpdate(sh, x, i, step).1, i);
    }
  }

  lemma VerifyShared(sh: Shared, x: Client, i: nat)
    requires Good(sh, x, i) && x.update.Verifying? && sh.file == Some(x.update.candidate)
    ensures SharedOk(RecordVerified(sh, x.update.candidate))
    ensures forall j: nat :: j != i ==> Rely(sh, RecordVerified(sh, x.update.candidate), j)
  {
  }

  lemma VerifyClient(sh: Shared, x: Client, i: nat)
    requires Good(sh, x, i) && x.update.Verifying? && sh.file == Some(x.update.candidate)
    requires SharedOk(RecordVerified(sh, x.update.candidate))
    ensures ClientOk(RecordVerified(sh, x.update.candidate), VerifiedNow(sh, x), i)
  {
    hide LocalOk, BaseOk, WorkOk, UpdateOk;
    VerifyLocal(sh, x, i);
    VerifyUpdate(sh, x, i);
    if x.mode.Held? {
      VerifyBase(sh, x, i);
      VerifyWork(sh, x, i);
    }
  }

  function VerifiedNow(sh: Shared, x: Client): Client
    requires x.update.Verifying?
  {
    x.(update := Verified(x.update.why, x.update.candidate, x.update.latest, x.update.expires, sh.file))
  }

  lemma VerifyLocal(sh: Shared, x: Client, i: nat)
    requires Good(sh, x, i) && x.update.Verifying? && sh.file == Some(x.update.candidate)
    ensures LocalOk(RecordVerified(sh, x.update.candidate), VerifiedNow(sh, x), i)
  {
  }

  lemma VerifyUpdate(sh: Shared, x: Client, i: nat)
    requires Good(sh, x, i) && x.update.Verifying? && sh.file == Some(x.update.candidate)
    ensures UpdateOk(RecordVerified(sh, x.update.candidate), VerifiedNow(sh, x), i)
  {
  }

  lemma VerifyBase(sh: Shared, x: Client, i: nat)
    requires Good(sh, x, i) && x.update.Verifying? && sh.file == Some(x.update.candidate) && x.mode.Held?
    ensures BaseOk(RecordVerified(sh, x.update.candidate), VerifiedNow(sh, x), i)
  {
  }

  lemma VerifyWork(sh: Shared, x: Client, i: nat)
    requires Good(sh, x, i) && x.update.Verifying? && sh.file == Some(x.update.candidate) && x.mode.Held?
    ensures WorkOk(RecordVerified(sh, x.update.candidate), VerifiedNow(sh, x), i, x.mode.work)
  {
  }

  lemma ConcludeKeeps(sh: Shared, x: Client, i: nat, step: Step)
    requires Good(sh, x, i) && step.Conclude? && CanUpdate(sh, x, i, step)
    ensures Keeps(sh, ActUpdate(sh, x, i, step), i)
  {
    hide Rely, ClientOk;
    NothingShared(sh);
    var verdict := Judge(x.owner, x.update.candidate, x.update.latest, x.update.seen);
    if verdict.Adopted? {
      AdoptKeeps(sh, x, i);
    } else {
      SeenIsOwned(sh, x, i);
      var y := x.(view := Settle(x.view, verdict, x.update.candidate, x.update.expires));
      ForgetOk(sh, x, y, i);
      FailureKeeps(sh, y, i);
    }
  }

  /** A record read back as it was written is owned, or was written without a lock. */
  lemma SeenIsOwned(sh: Shared, x: Client, i: nat)
    requires ClientOk(sh, x, i) && x.update.Verified?
    ensures Judge(x.owner, x.update.candidate, x.update.latest, x.update.seen).Adopted? <==> ReadBack(x)
  {
  }

  lemma AdoptKeeps(sh: Shared, x: Client, i: nat)
    requires Good(sh, x, i) && ReadBack(x)
    ensures ClientOk(sh, AfterSuccess(sh, x.(view := View(x.update.candidate, x.update.expires, None, None))), i)
  {
    var y := AfterSuccess(sh, x.(view := View(x.update.candidate, x.update.expires, None, None)));
    if y.mode.Held? {
      AdoptBase(sh, x, y, i);
      AdoptWork(sh, x, y, i);
    }
  }

  lemma AdoptBase(sh: Shared, x: Client, y: Client, i: nat)
    requires Good(sh, x, i) && ReadBack(x) && y.mode.Held?
    requires y == AfterSuccess(sh, x.(view := View(x.update.candidate, x.update.expires, None, None)))
    ensures BaseOk(sh, y, i)
  {
  }

  lemma AdoptWork(sh: Shared, x: Client, y: Client, i: nat)
    requires Good(sh, x, i) && ReadBack(x) && y.mode.Held?
    requires y == AfterSuccess(sh, x.(view := View(x.update.candidate, x.update.expires, None, None)))
    ensures WorkOk(sh, y, i, y.mode.work) && UpdateFits(y)
  {
    hide LocalOk;
    if x.update.why.Refresh? { AdoptRefresh(sh, x, y, i); }
  }

  lemma AdoptRefresh(sh: Shared, x: Client, y: Client, i: nat)
    requires Good(sh, x, i) && ReadBack(x) && x.mode.Held? && x.update.why.Refresh?
    requires y == AfterSuccess(sh, x.(view := View(x.update.candidate, x.update.expires, None, None)))
    ensures WorkOk(sh, y, i, y.mode.work) && UpdateFits(y)
  {
  }

  // ---------------------------------------------------------------- work

  lemma DecideKeeps(sh: Shared, x: Client, i: nat, step: Step)
    requires Good(sh, x, i) && step.Decide? && CanWork(sh, x, i, step)
    ensures Keeps(sh, ActWork(sh, x, i, step), i)
  {
    hide BaseOk, UpdateOk, Rely, LocalOk, WorkOk, StartupBranch, SharedOk;
    NothingShared(sh);
    var y := ActWork(sh, x, i, step).1;
    DecidedWork(sh, x, y, i);
    DecidedLocal(sh, x, y, i);
    assert PendingOk(sh, y) by { HeldPending(sh, x, i); }
    SameBase(sh, x, y, i);
    DecidedUpdate(sh, x, y, i);
  }

  lemma DecidedLocal(sh: Shared, x: Client, y: Client, i: nat)
    requires LocalOk(sh, x, i) && y.local == MarkActive(x.local) && y.origin == x.origin
    ensures LocalOk(sh, y, i)
  {
  }

  lemma DecidedWork(sh: Shared, x: Client, y: Client, i: nat)
    requires LocalOk(sh, x, i) && x.mode.Held? && WorkOk(sh, x, i, x.mode.work) && x.mode.work.Startup?
    requires y == ActWork(sh, x, i, Decide).1
    ensures WorkOk(sh, y, i, y.mode.work)
  {
  }

  lemma DecidedUpdate(sh: Shared, x: Client, y: Client, i: nat)
    requires UpdateOk(sh, x, i) && x.mode.Held? && UpdateFits(x) && x.mode.work.Startup?
    requires y == x.(local := y.local, mode := y.mode, cancelled := y.cancelled) && y.mode.Held?
    ensures UpdateOk(sh, y, i)
  {
  }

  lemma EditKeeps(sh: Shared, x: Client, i: nat, step: Step)
    requires Good(sh, x, i) && (step.Edit? || step.DownloadProgress?) && CanWork(sh, x, i, step)
    ensures Keeps(sh, ActWork(sh, x, i, step), i)
  {
    hide LocalOk, BaseOk, WorkOk, UpdateOk, Rely;
    NothingShared(sh);
    var y := ActWork(sh, x, i, step).1;
    if x.mode.work.Downloading? { MarkedAtWork(sh, x, i); }
    EditWork(sh, x, y, i);
    EditUpdate(sh, x, y, i);
    assert PendingOk(sh, y) by { HeldPending(sh, x, i); }
    SameBase(sh, x, y, i);
  }

  lemma MarkedAtWork(sh: Shared, x: Client, i: nat)
    requires x.mode.Held? && WorkOk(sh, x, i, x.mode.work) && LaterWork(x.mode.work)
    ensures Marked(x)
  {
  }

  lemma EditWork(sh: Shared, x: Client, y: Client, i: nat)
    requires Good(sh, x, i) && x.mode.Held? && Marked(x)
    requires y == x.(payload := y.payload, dirty := y.dirty) && (y.dirty || (x.mode.work.Downloading? && y.dirty == x.dirty))
    ensures WorkOk(sh, y, i, y.mode.work) && LocalOk(sh, y, i)
  {
  }

  lemma EditUpdate(sh: Shared, x: Client, y: Client, i: nat)
    requires UpdateOk(sh, x, i) && x.mode.Held? && UpdateFits(x)
    requires y == x.(payload := y.payload, dirty := y.dirty) && (y.dirty || (x.mode.work.Downloading? && y.dirty == x.dirty))
    ensures UpdateOk(sh, y, i)
  {
  }

  /** While commands run, the lease holds: the file is this client's and cannot have moved. */
  lemma RunningIsMine(sh: Shared, x: Client, i: nat)
    requires ClientOk(sh, x, i) && PayloadRunning(x)
    ensures Mine(sh, i)
  {
  }

  lemma PayloadKeeps(sh: Shared, x: Client, i: nat, step: Step)
    requires Good(sh, x, i) && (step.PayloadProgress? || step.InitDone? || step.UploadDone?) && CanWork(sh, x, i, step)
    ensures Keeps(sh, ActWork(sh, x, i, step), i)
  {
    hide LocalOk, BaseOk, WorkOk, UpdateOk, Rely, SharedOk;
    var (to, y) := ActWork(sh, x, i, step);
    PayloadShared(sh, x, i, step);
    PayloadClient(sh, x, i, step);
    PayloadWork(sh, x, i, step);
  }

  lemma PayloadShared(sh: Shared, x: Client, i: nat, step: Step)
    requires Good(sh, x, i) && (step.PayloadProgress? || step.InitDone? || step.UploadDone?) && CanWork(sh, x, i, step)
    ensures SharedOk(ActWork(sh, x, i, step).0)
    ensures forall j: nat :: j != i ==> Rely(sh, ActWork(sh, x, i, step).0, j)
  {
    RunningIsMine(sh, x, i);
  }

  lemma PayloadClient(sh: Shared, x: Client, i: nat, step: Step)
    requires Good(sh, x, i) && (step.PayloadProgress? || step.InitDone? || step.UploadDone?) && CanWork(sh, x, i, step)
    ensures var (to, y) := ActWork(sh, x, i, step);
            FreshnessOk(to, y, i) && LocalOk(to, y, i) && BaseOk(to, y, i) && UpdateOk(to, y, i)
  {
    hide BaseOk, UpdateOk;
    PayloadBase(sh, x, i, step);
    PayloadUpdate(sh, x, i, step);
  }

  lemma PayloadBase(sh: Shared, x: Client, i: nat, step: Step)
    requires Good(sh, x, i) && (step.PayloadProgress? || step.InitDone? || step.UploadDone?) && CanWork(sh, x, i, step)
    ensures var (to, y) := ActWork(sh, x, i, step); BaseOk(to, y, i)
  {
    hide UpdateOk, LocalOk, SharedOk;
  }

  lemma PayloadUpdate(sh: Shared, x: Client, i: nat, step: Step)
    requires Good(sh, x, i) && (step.PayloadProgress? || step.InitDone? || step.UploadDone?) && CanWork(sh, x, i, step)
    ensures var (to, y) := ActWork(sh, x, i, step); UpdateOk(to, y, i)
  {
    hide BaseOk, LocalOk, WorkOk, SharedOk;
  }

  lemma PayloadWork(sh: Shared, x: Client, i: nat, step: Step)
    requires Good(sh, x, i) && (step.PayloadProgress? || step.InitDone? || step.UploadDone?) && CanWork(sh, x, i, step)
    ensures var (to, y) := ActWork(sh, x, i, step); WorkOk(to, y, i, y.mode.work) && UpdateFits(y)
  {
  }

  /** The beginning of a guarded update: its candidate is fit for the base. */
  lemma BeginKeeps(sh: Shared, x: Client, i: nat, step: Step)
    requires Good(sh, x, i) && (step.BeginFinishInit? || step.BeginComplete? || step.BeginClose?)
    requires CanWork(sh, x, i, step)
    ensures Keeps(sh, ActWork(sh, x, i, step), i)
  {
    hide LocalOk, BaseOk, WorkOk, UpdateOk, Rely;
    NothingShared(sh);
    var y := ActWork(sh, x, i, step).1;
    SameLocal(sh, x, y, i);
    if y.mode.Held? {
      assert PendingOk(sh, y) by { HeldPending(sh, x, i); }
      SameBase(sh, x, y, i);
      BeginWork(sh, x, i, step);
    } else {
      IdleUpdate(sh, y, i);
    }
  }

  lemma BeginWork(sh: Shared, x: Client, i: nat, step: Step)
    requires Good(sh, x, i) && (step.BeginFinishInit? || step.BeginComplete? || step.BeginClose?)
    requires CanWork(sh, x, i, step)
    ensures var y := ActWork(sh, x, i, step).1; y.mode.Held? ==> WorkOk(sh, y, i, y.mode.work) && UpdateOk(sh, y, i)
  {
    hide BaseOk, LocalOk;
    if step.BeginComplete? { CompleteWork(sh, x, i); }
  }

  lemma CompleteWork(sh: Shared, x: Client, i: nat)
    requires Good(sh, x, i) && CanWork(sh, x, i, BeginComplete)
    ensures var y := ActWork(sh, x, i, BeginComplete).1; WorkOk(sh, y, i, y.mode.work) && UpdateOk(sh, y, i)
  {
    hide BaseOk, LocalOk;
  }

  lemma BeginPublishKeeps(sh: Shared, x: Client, i: nat, step: Step)
    requires Good(sh, x, i) && step.BeginPublish? && CanWork(sh, x, i, step)
    ensures Keeps(sh, ActWork(sh, x, i, step), i)
  {
    hide LocalOk, BaseOk, WorkOk, UpdateOk, Rely;
    NothingShared(sh);
    var y := ActWork(sh, x, i, step).1;
    assert PendingOk(sh, y) by { HeldPending(sh, x, i); }
    SameBase(sh, x, y, i);
    PublishWork(sh, x, i, step);
  }

  lemma PublishWork(sh: Shared, x: Client, i: nat, step: Step)
    requires Good(sh, x, i) && step.BeginPublish? && CanWork(sh, x, i, step)
    ensures var y := ActWork(sh, x, i, step).1;
            LocalOk(sh, y, i) && WorkOk(sh, y, i, y.mode.work) && UpdateOk(sh, y, i)
  {
  }

  lemma DownloadDoneKeeps(sh: Shared, x: Client, i: nat, step: Step)
    requires Good(sh, x, i) && step.DownloadDone? && CanWork(sh, x, i, step)
    ensures Keeps(sh, ActWork(sh, x, i, step), i)
  {
    hide BaseOk, Rely, UpdateOk;
    NothingShared(sh);
    DownloadedIsCommitted(sh, x, i);
    var y := ActWork(sh, x, i, step).1;
    assert PendingOk(sh, y) by { HeldPending(sh, x, i); }
    SameBase(sh, x, y, i);
    DownloadedUpdate(sh, x, y, i);
  }

  lemma DownloadedUpdate(sh: Shared, x: Client, y: Client, i: nat)
    requires UpdateOk(sh, x, i) && x.mode.Held? && x.mode.work.Downloading? && UpdateFits(x)
    requires y == x.(payload := y.payload, mode := Held(Recording(true)))
    ensures UpdateOk(sh, y, i)
  {
  }

  lemma DownloadedIsCommitted(sh: Shared, x: Client, i: nat)
    requires Good(sh, x, i) && PayloadRunning(x)
    ensures Base(x).generation >= 1 && !Base(x).syncing ==> IsUploaded(sh, Base(x))
  {
    RunningIsMine(sh, x, i);
  }

  lemma RecordLocalKeeps(sh: Shared, x: Client, i: nat, step: Step)
    requires Good(sh, x, i) && step.RecordLocal? && CanWork(sh, x, i, step)
    ensures Keeps(sh, ActWork(sh, x, i, step), i)
  {
    hide BaseOk, Rely, UpdateOk;
    NothingShared(sh);
    var y := ActWork(sh, x, i, step).1;
    assert PendingOk(sh, y) by { HeldPending(sh, x, i); }
    SameBase(sh, x, y, i);
    RecordedUpdate(sh, x, y, i);
    RecordedLocalOk(sh, x, y, i);
  }

  lemma RecordedLocalOk(sh: Shared, x: Client, y: Client, i: nat)
    requires Good(sh, x, i) && x.mode.Held? && x.mode.work.Recording?
    requires y == x.(local := Some(RecordedLocal(Base(x))), origin := None, mode := Held(Ready))
    ensures LocalOk(sh, y, i)
  {
  }

  /** A refresh does not look at the local record or at the work. */
  lemma RecordedUpdate(sh: Shared, x: Client, y: Client, i: nat)
    requires UpdateOk(sh, x, i) && x.mode.Held? && UpdateFits(x)
    requires x.mode.work.Recording? || x.mode.work.Ready?
    requires y == x.(local := y.local, origin := y.origin, mode := y.mode) && y.mode.Held?
    ensures UpdateOk(sh, y, i)
  {
  }

  lemma FailWorkKeeps(sh: Shared, x: Client, i: nat, step: Step)
    requires Good(sh, x, i) && step.FailWork? && CanWork(sh, x, i, step)
    ensures Keeps(sh, ActWork(sh, x, i, step), i)
  {
    hide BaseOk, Rely, LocalOk, WorkOk, UpdateOk;
    NothingShared(sh);
    var y := ActWork(sh, x, i, step).1;
    assert PendingOk(sh, y) by { HeldPending(sh, x, i); }
    SameLocal(sh, x, y, i);
    SameBase(sh, x, y, i);
    FailedWork(sh, x, i);
    FailedUpdate(sh, x, i);
  }

  lemma FailedWork(sh: Shared, x: Client, i: nat)
    requires x.mode.Held? && WorkOk(sh, x, i, x.mode.work) && CanWork(sh, x, i, FailWork)
    ensures var y := ActWork(sh, x, i, FailWork).1; WorkOk(sh, y, i, y.mode.work)
  {
  }

  lemma FailedUpdate(sh: Shared, x: Client, i: nat)
    requires x.mode.Held? && UpdateOk(sh, x, i) && UpdateFits(x) && CanWork(sh, x, i, FailWork)
    ensures var y := ActWork(sh, x, i, FailWork).1; UpdateOk(sh, y, i) && UpdateFits(y)
  {
  }

  lemma FinishKeeps(sh: Shared, x: Client, i: nat, step: Step)
    requires Good(sh, x, i) && step.FinishSession? && CanWork(sh, x, i, step)
    ensures Keeps(sh, ActWork(sh, x, i, step), i)
  {
    hide BaseOk, Rely, UpdateOk;
    NothingShared(sh);
    var y := ActWork(sh, x, i, step).1;
    assert PendingOk(sh, y) by { HeldPending(sh, x, i); }
    SameBase(sh, x, y, i);
    RecordedUpdate(sh, x, y, i);
  }
}
