/** What a session's guarded updates guarantee by themselves, and that they are what the clients of
    the transition system do. */
module SyncStateTheorems {
  import opened Prelude
  import opened StateFile
  import opened Protocol

  import opened SyncState

  // ---------------------------------------------------------------- one guarded update is the protocol's

  /** The four moments at which an update meets the shared state, however others move in between. */
  datatype Moments = Moments(read: Shared, issue: Shared, write: Shared, verify: Shared)

  /** The shared states give the answers of the script. */
  predicate Answers(x: Client, s: Script, landed: bool, m: Moments) {
    && x.update.Reading?
    && (s.found.Some? ==> m.read.file == s.found.value)
    && Clock(m.issue, x) == s.issued
    && (s.wrote ==> landed)
    && (landed ==> s.found.Some? && s.found.value.Some? && m.write.file == s.found.value)
    && (s.verified.Some? ==> m.verify.file == s.verified.value)
  }

  /** One step of an update; its client's number does not matter to it. */
  function Do(sh: Shared, x: Client, step: Step): Client
    requires CanUpdate(sh, x, 0, step)
  {
    ActUpdate(sh, x, 0, step).1
  }

  /** The steps of `Protocol` for one update: read, issue, then land or not, report, verify, conclude. */
  function Steps(x: Client, s: Script, landed: bool, m: Moments): Client
    requires Answers(x, s, landed, m)
  {
    if s.found.None? then Do(m.read, x, FailUpdate)
    else
      var issued := Do(m.issue, Do(m.read, x, ReadLatest), Issue);
      if issued.update.Writing? then Finish(issued, s, landed, m) else issued
  }

  function Finish(y: Client, s: Script, landed: bool, m: Moments): Client
    requires y.update.Writing? && !y.update.landed && (landed ==> m.write.file == Some(y.update.latest))
    requires s.wrote ==> landed
  {
    var written := if landed then Do(m.write, y, LandWrite) else y;
    if !s.wrote then Do(m.write, written, FailUpdate)
    else
      var reported := Do(m.write, written, ReportOk);
      if s.verified.None? then Do(m.verify, reported, FailUpdate)
      else Do(m.verify, Do(m.verify, reported, VerifyRead), Conclude)
  }

  function Succeeded(x: Client): Mode
    requires x.update != NoUpdate
  {
    SuccessMode(x.(update := Verified(x.update.why, x.update.candidate, Base(x), None, None)))
  }

  lemma IssueEffect(m: Moments, x: Client)
    requires x.update.Reading?
    ensures var plan := PlanWrite(x.view, x.owner, Base(x), x.update.candidate, m.read.file, x.timeout, Clock(m.issue, x));
            var y := x.(view := Remember(x.view, plan));
            Do(m.issue, Do(m.read, x, ReadLatest), Issue) ==
            if plan.Refuse? then AfterFailure(y.(update := Got(x.update.why, x.update.candidate, m.read.file)))
            else y.(update := Writing(x.update.why, plan.candidate, m.read.file.GetOr(Base(x)), plan.expires, false))
  {
  }

  /** Where the client goes depends only on its mode and the purpose of the update. */
  lemma SameModes(x: Client, y: Client)
    requires x.update != NoUpdate && y.update != NoUpdate && x.update.why == y.update.why && x.mode == y.mode
    ensures Succeeded(x) == Succeeded(y) && FailureMode(x) == FailureMode(y)
    ensures y.update.Verified? ==> SuccessMode(y) == Succeeded(x)
  {
  }

  lemma FinishEffect(y: Client, s: Script, landed: bool, m: Moments)
    requires y.update.Writing? && !y.update.landed && (landed ==> m.write.file == Some(y.update.latest))
    requires (s.wrote ==> landed) && (s.verified.Some? ==> m.verify.file == s.verified.value)
    ensures var t := Finish(y, s, landed, m);
            t.update.NoUpdate? &&
            if !s.wrote || s.verified.None? then t.view == y.view && t.mode == FailureMode(y)
            else
              var verdict := Judge(y.owner, y.update.candidate, y.update.latest, s.verified.value);
              t.view == Settle(y.view, verdict, y.update.candidate, y.update.expires) &&
              t.mode == if verdict.Adopted? then Succeeded(y) else FailureMode(y)
  {
    hide Judge, Settle, Succeeded, SuccessMode, FailureMode, IsRecovery;
    var written := if landed then Do(m.write, y, LandWrite) else y;
    SameModes(y, written);
    if s.wrote {
      var reported := Do(m.write, written, ReportOk);
      SameModes(y, reported);
      if s.verified.Some? {
        var verified := Do(m.verify, reported, VerifyRead);
        SameModes(y, verified);
        var verdict := Judge(y.owner, y.update.candidate, y.update.latest, s.verified.value);
        SameModes(y, verified.(view := Settle(y.view, verdict, y.update.candidate, y.update.expires)));
      }
    }
  }

  /** `ReplaceOwnedRemote` of the session object is what a client of the transition system does:
      same fields afterwards, and success exactly when the client goes on as after a success. */
  lemma ReplaceIsProtocol(x: Client, s: Script, landed: bool, m: Moments)
    requires Answers(x, s, landed, m)
    ensures var (view, report) := Replaced(x.view, x.owner, x.timeout, Base(x), x.update.candidate, s);
            Steps(x, s, landed, m).view == view && Steps(x, s, landed, m).update.NoUpdate? &&
            Steps(x, s, landed, m).mode == if report.Done? then Succeeded(x) else FailureMode(x)
  {
    if s.found.Some? {
      IssueEffect(m, x);
      var issued := Do(m.issue, Do(m.read, x, ReadLatest), Issue);
      if issued.update.Writing? {
        FinishEffect(issued, s, landed, m);
        SameModes(x, issued);
      }
      hide Succeeded, SuccessMode, FailureMode, Do, Finish, PlanWrite, Remember, Judge, Settle;
    }
  }

  /** The steps of an update leave everything else of the client alone, up to the mark of a failed batch. */
  predicate KeepsRest(x: Client, t: Client) {
    t.local == x.local && t.payload == x.payload && t.serials == x.serials && t.stamps == x.stamps
  }

  lemma FinishKeeps(y: Client, s: Script, landed: bool, m: Moments)
    requires y.update.Writing? && !y.update.landed && (landed ==> m.write.file == Some(y.update.latest))
    requires (s.wrote ==> landed) && (s.verified.Some? ==> m.verify.file == s.verified.value)
    ensures KeepsRest(y, Finish(y, s, landed, m))
  {
    hide Judge, Settle, SuccessMode, FailureMode, IsRecovery;
  }

  lemma StepsKeep(x: Client, s: Script, landed: bool, m: Moments)
    requires Answers(x, s, landed, m)
    ensures KeepsRest(x, Steps(x, s, landed, m))
  {
    hide Judge, Settle, SuccessMode, FailureMode, PlanWrite, Remember, Finish;
    if s.found.Some? {
      var issued := Do(m.issue, Do(m.read, x, ReadLatest), Issue);
      assert KeepsRest(x, issued);
      if issued.update.Writing? {
        IssueEffect(m, x);
        FinishKeeps(issued, s, landed, m);
      }
    }
  }

  predicate RecordsNext(sh: Shared, x: Client, i: nat) {
    CanWork(sh, x, i, RecordLocal) && ActWork(sh, x, i, RecordLocal).1.local == Some(RecordedLocal(x.view.remote))
  }

  /** The operations of a session that update the remote record are steps of the transition system:
      the update that the step begins, with the steps above, leaves the very view that the object's
      method leaves when it is told the same, and the client goes on as after that method. Here
      `BeforeRemoteChange`: its local record is written first. */
  lemma AdvanceIsProtocol(sh: Shared, x: Client, i: nat, recovery: bool, s: Script, landed: bool, m: Moments)
    requires CanWork(sh, x, i, BeginPublish(recovery))
    requires Answers(ActWork(sh, x, i, BeginPublish(recovery)).1, s, landed, m)
    ensures var id := NewId(x, i);
            var (view, report) := Replaced(x.view, x.owner, x.timeout, Base(x), Advanced(Base(x), id), s);
            var t := Steps(ActWork(sh, x, i, BeginPublish(recovery)).1, s, landed, m);
            && t.view == view && t.local == Some(AdvancedLocal(Base(x), id))
            && t.mode == (if report.Done? then Held(Uploading(recovery)) else BrokenMode(recovery))
  {
    var y := ActWork(sh, x, i, BeginPublish(recovery)).1;
    ReplaceIsProtocol(y, s, landed, m);
    StepsKeep(y, s, landed, m);
  }

  /** `AfterRemoteChange`: its local record is left to write. */
  lemma CompletionIsProtocol(sh: Shared, x: Client, i: nat, s: Script, landed: bool, m: Moments)
    requires CanWork(sh, x, i, BeginComplete) && Answers(ActWork(sh, x, i, BeginComplete).1, s, landed, m)
    ensures var recovery := x.mode.work.recovery;
            var (view, report) := Replaced(x.view, x.owner, x.timeout, Base(x), Completed(Base(x)), s);
            var t := Steps(ActWork(sh, x, i, BeginComplete).1, s, landed, m);
            && t.view == view && t.local == x.local
            && t.mode == (if report.Done? then Held(Recording(recovery)) else BrokenMode(recovery))
            && (report.Done? ==> RecordsNext(m.verify, t, i))
  {
    hide Steps, Replaced, Answers;
    var y := ActWork(sh, x, i, BeginComplete).1;
    ReplaceIsProtocol(y, s, landed, m);
    StepsKeep(y, s, landed, m);
  }

  /** `FinishInitialisation`, for the sync ID under which the upload was finished. */
  lemma InitialisationIsProtocol(sh: Shared, x: Client, i: nat, s: Script, landed: bool, m: Moments)
    requires CanWork(sh, x, i, BeginFinishInit) && Answers(ActWork(sh, x, i, BeginFinishInit).1, s, landed, m)
    ensures var (view, report) := Replaced(x.view, x.owner, x.timeout, Base(x), Initialized(Base(x), x.mode.work.id), s);
            var t := Steps(ActWork(sh, x, i, BeginFinishInit).1, s, landed, m);
            && t.view == view && t.local == x.local
            && t.mode == Held(if report.Done? then Recording(true) else Failed)
            && (report.Done? ==> RecordsNext(m.verify, t, i))
  {
    hide Steps, Replaced, Answers;
    var y := ActWork(sh, x, i, BeginFinishInit).1;
    ReplaceIsProtocol(y, s, landed, m);
    StepsKeep(y, s, landed, m);
  }

  /** `Refresh`, beside whatever the main goroutine does. */
  lemma RefreshIsProtocol(sh: Shared, x: Client, i: nat, s: Script, landed: bool, m: Moments)
    requires CanUpdate(sh, x, i, BeginRefresh) && Answers(ActUpdate(sh, x, i, BeginRefresh).1, s, landed, m)
    ensures var (view, report) := Replaced(x.view, x.owner, x.timeout, Base(x), Refreshed(Base(x), NewLock(x)), s);
            var t := Steps(ActUpdate(sh, x, i, BeginRefresh).1, s, landed, m);
            t.view == view && t.local == x.local && t.mode == x.mode
  {
    var y := ActUpdate(sh, x, i, BeginRefresh).1;
    ReplaceIsProtocol(y, s, landed, m);
    StepsKeep(y, s, landed, m);
  }

  /** `Close`: without an update if the lock is persistent. */
  lemma ReleaseIsProtocol(sh: Shared, x: Client, i: nat, s: Script, landed: bool, m: Moments)
    requires CanWork(sh, x, i, BeginClose)
    requires !x.persistent ==> Answers(ActWork(sh, x, i, BeginClose).1, s, landed, m)
    ensures var y := ActWork(sh, x, i, BeginClose).1;
            if x.persistent then y == x.(mode := Down)
            else
              var (view, report) := Replaced(x.view, x.owner, x.timeout, Base(x), Released(Base(x)), s);
              var t := Steps(y, s, landed, m);
              t.view == view && t.local == x.local && t.mode == Down
  {
    if !x.persistent {
      var y := ActWork(sh, x, i, BeginClose).1;
      ReplaceIsProtocol(y, s, landed, m);
      StepsKeep(y, s, landed, m);
    }
  }

  // ---------------------------------------------------------------- ambiguous writes

  /** Whether the update's write took effect, or which record it left, did not become known: it failed,
      or its verifying read failed or still saw the record from before. */
  predicate Unknown(s: Script, written: Record) {
    !s.wrote || s.verified.None? || s.verified == s.found != Some(Some(written))
  }

  /** An update whose write may or may not have taken effect is never stuck: whichever record it left
      behind, the next update finds its base, and succeeds if its own write does. */
  lemma AmbiguityIsRetried(view: View, owner: Owner, timeout: nat, first: Record, second: Record, s: Script, t: Script)
    requires OwnedBy(Some(view.remote), owner) && s.found == Some(Some(view.remote))
    requires !s.wrote || s.verified.None? || s.verified == s.found
    requires var between := Replaced(view, owner, timeout, view.remote, first, s).0;
             && t.found.Some? && t.found.value in {Some(view.remote), Some(first)} && OwnedBy(t.found.value, owner)
             && t.wrote && (second.lock.None? || OwnedBy(Some(second), owner))
             && var plan := PlanWrite(between, owner, view.remote, second, t.found.value, timeout, t.issued);
                plan.Write? ==> t.verified == Some(Some(plan.candidate))
    ensures var between := Replaced(view, owner, timeout, view.remote, first, s).0;
            var (after, report) := Replaced(between, owner, timeout, view.remote, second, t);
            report.Done? && SameCore(after.remote, second)
  {
  }

  /** What an update writes over a pending record: the lock stays unless a new one is wanted. */
  function Over(base: Record, found: Record, candidate: Record): Record {
    if candidate.lock == base.lock then candidate.(lock := found.lock) else candidate
  }

  /** A pending record that is in the file is forgotten by one more ambiguous update over it: unless
      the file then changed after all, the next update refuses the session's own file, and reports a
      loss of ownership that never happened, exactly when the forgotten record differs from the base
      and from what the ambiguous update wrote over it. What the session saw before does not matter. */
  lemma ForgottenPendingIsLost(view: View, owner: Owner, timeout: nat, landed: Record, second: Record, third: Record,
                               t: Script, u: Script)
    requires view.pending == Some(landed) && OwnedBy(Some(landed), owner)
    requires t.found == u.found == Some(Some(landed)) && Unknown(t, Over(view.remote, landed, second))
    ensures var two := Replaced(view, owner, timeout, view.remote, second, t).0;
            var lost := landed != view.remote && landed != Over(view.remote, landed, second);
            var plan := PlanWrite(two, owner, view.remote, third, Some(landed), timeout, u.issued);
            && (plan.Refuse? <==> lost)
            && (lost ==> Replaced(two, owner, timeout, view.remote, third, u).1.Gone?)
            && (!lost && Unknown(u, plan.candidate) ==> Replaced(two, owner, timeout, view.remote, third, u).1.Broken?)
  {
  }

  /** So two ambiguous updates in a row are too many: `pending` remembers only the second. Here the
      first took effect and the second did not. */
  lemma OverwrittenPendingIsLost(view: View, owner: Owner, timeout: nat, first: Record, second: Record, third: Record,
                                 s: Script, t: Script, u: Script)
    requires OwnedBy(Some(view.remote), owner) && OwnedBy(Some(first), owner)
    requires s.found == Some(Some(view.remote)) && t.found == u.found == Some(Some(first))
    requires Unknown(s, first) && Unknown(t, Over(view.remote, first, second))
    requires Unknown(u, third) && Unknown(u, Over(view.remote, first, third))
    ensures var one := Replaced(view, owner, timeout, view.remote, first, s).0;
            var two := Replaced(one, owner, timeout, view.remote, second, t).0;
            Replaced(two, owner, timeout, view.remote, third, u).1.Gone? <==>
              first != view.remote && first != Over(view.remote, first, second)
  {
  }

  // ---------------------------------------------------------------- recorded expiries

  ghost predicate Bounded(lock: Option<Lock>, expiry: Option<int>, wrote: map<Lock, int>, timeout: nat) {
    lock.Some? && expiry.Some? ==> lock.value in wrote && expiry.value <= wrote[lock.value] + Ttl(lock, timeout)
  }

  ghost predicate ViewBounded(view: View, wrote: map<Lock, int>, timeout: nat) {
    Bounded(view.remote.lock, view.lockExpiry, wrote, timeout) &&
    (view.pending.Some? ==> Bounded(view.pending.value.lock, view.pendingExpiry, wrote, timeout))
  }

  /** When each lock was first issued, after this update. */
  function Wrote(view: View, owner: Owner, timeout: nat, candidate: Record, s: Script, wrote: map<Lock, int>): map<Lock, int> {
    if s.found.None? then wrote
    else
      var plan := PlanWrite(view, owner, view.remote, candidate, s.found.value, timeout, s.issued);
      if plan.Write? && plan.candidate.lock.Some? && plan.candidate.lock.value !in wrote
      then wrote[plan.candidate.lock.value := s.issued] else wrote
  }

  /** A recorded expiry never exceeds the first issue of its lock plus the TTL, whatever fails: an
      update either keeps the lock or brings a fresh one. */
  lemma ExpiryBounded(view: View, owner: Owner, timeout: nat, candidate: Record, s: Script, wrote: map<Lock, int>)
    requires ViewBounded(view, wrote, timeout)
    requires candidate.lock in {view.remote.lock, None} || candidate.lock.value !in wrote
    ensures ViewBounded(Replaced(view, owner, timeout, view.remote, candidate, s).0,
                        Wrote(view, owner, timeout, candidate, s, wrote), timeout)
  {
  }

  /** The session's own expiries, of locks with its own TTL written by now. */
  predicate Timed(view: View, now: int, timeout: nat) {
    && view.lockExpiry.Some? && view.lockExpiry.value <= now + timeout
    && (view.pending.Some? && view.pending.value.lock.Some? ==>
          view.pendingExpiry.Some? && view.lockExpiry.value <= view.pendingExpiry.value <= now + timeout)
  }

  /** An update that keeps a lock never moves the recorded expiry back, nor beyond a TTL from now. */
  lemma ExpiryMovesForward(view: View, owner: Owner, timeout: nat, candidate: Record, s: Script, now: int)
    requires Timed(view, now, timeout) && now <= s.issued
    requires candidate.lock.Some? && Ttl(candidate.lock, timeout) == timeout
    ensures var after := Replaced(view, owner, timeout, view.remote, candidate, s).0;
            Timed(after, s.issued, timeout) && view.lockExpiry.value <= after.lockExpiry.value
  {
  }

  // ---------------------------------------------------------------- initialising again

  /** When an existing local state is initialised again and the session dies before the new local
      record is written, the next acquisition is refused while the remote is at generation 1, exactly
      if the old generation was above 2, or was a completed 2. */
  lemma ReinitialisingDeadEnd(local: Local, freshRepo: nat, lock: Lock, id: SyncId, failOnIncomplete: bool, mayInitialize: bool)
    ensures var acquired := AcquisitionCandidate(Some(local), None, freshRepo, lock);
            ValidateAcquisition(MarkActive(Some(local)), Some(Initialized(acquired, id)), failOnIncomplete, mayInitialize) ==
            if local.generation > 2 || (local.generation == 2 && !local.syncing) then Some(LocalAhead) else None
  {
  }

  /** It stays refused until others have advanced the remote to the old generation, or to the one
      before if the old one was an incomplete advance. */
  lemma DeadEndLasts(local: Local, remote: Record, failOnIncomplete: bool, mayInitialize: bool)
    requires remote.repo == local.repo && remote.generation >= 1
    ensures ValidateAcquisition(Some(local), Some(remote), failOnIncomplete, mayInitialize) == Some(LocalAhead) <==>
            remote.generation < if local.syncing then local.generation - 1 else local.generation
  {
  }

  /** The way there: a session that acquired an absent file over an old local state initialises the
      remote, and its last call, the write of the local record, does not happen. */
  method DiesInitialising(session: Session, local: Local) returns (refused: bool)
    requires session.local == Some(local) && session.remote.generation == 0 && session.remote.repo == local.repo
    requires CalmFor(session.backend.world, session.backend.turn, 5)
    requires var last := session.backend.world(session.backend.turn + 5); last.fault == Dropped && last.others.None?
    requires session.backend.file == Some(session.remote) && OwnedBy(Some(session.remote), session.config.owner)
    modifies session, session.backend
    ensures session.local == Some(local) && session.backend.file == Some(session.remote)
    ensures SameCore(session.remote, Initialized(old(session.remote), Id(session.config.client, old(session.serials) + 1)))
    ensures refused <==> ValidateAcquisition(session.local, session.backend.file, session.config.failOnIncomplete, true) == Some(LocalAhead)
    ensures refused <==> 1 < if local.syncing then local.generation - 1 else local.generation
  {
    var ok := session.InitializeRemote();
    var acquisition := session.Validate(session.backend.file);
    refused := acquisition == Some(Objected(LocalAhead));
    DeadEndLasts(local, session.remote, session.config.failOnIncomplete, true);
  }
}
