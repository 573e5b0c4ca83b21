/** The invariant of the transition system, client by client: what a client knows about itself
    and the shared state (`ClientOk`), and what it may rely on others not to do (`Rely`). */
module ProtocolInvariant {
  import opened Prelude
  import opened StateFile
  import opened Protocol

  /** The lock in the remote file belongs to client `i`. */
  predicate Mine(sh: Shared, i: nat) {
    sh.file.Some? && sh.file.value.lock.Some? && sh.file.value.lock.value.owner.client == i
  }

  function LockEnd(sh: Shared, lock: Lock): int
    requires lock in sh.wrote
  {
    sh.wrote[lock] + lock.ttl
  }

  predicate IsUploaded(sh: Shared, record: Record) {
    record.syncId in sh.finished && sh.payload == sh.finished[record.syncId]
  }

  /** Commit: a complete record stands for exactly what its writer finished uploading. */
  predicate Committed(sh: Shared) {
    sh.file.Some? && sh.file.value.generation >= 1 && !sh.file.value.syncing ==> IsUploaded(sh, sh.file.value)
  }

  ghost predicate SharedOk(sh: Shared) {
    && (forall lock :: lock in sh.wrote ==> sh.wrote[lock] <= sh.now && lock.ttl > 0)
    && sh.top in sh.ids && (forall g :: g in sh.ids ==> g <= sh.top)
    && 0 in sh.ids && sh.ids[0] == NoId && (forall g :: g in sh.ids && g > 0 ==> sh.ids[g] != NoId)
    && (sh.file.None? ==> sh.top == 0)
    && (sh.file.Some? ==> FileOk(sh, sh.file.value))
    && Committed(sh)
  }

  predicate FileOk(sh: Shared, file: Record)
    requires sh.top in sh.ids
  {
    && (file.lock.Some? ==> file.lock.value in sh.wrote)
    && sh.top <= file.generation <= sh.top + 1
    && (file.generation == sh.top ==> file.syncId == sh.ids[sh.top])
    && (file.generation > 0 ==> file.syncId != NoId)
  }

  // ---------------------------------------------------------------- one client

  predicate KnownLock(sh: Shared, lock: Option<Lock>) {
    lock.Some? ==> lock.value in sh.wrote
  }

  predicate KnownRecord(sh: Shared, record: Option<Record>) {
    record.Some? ==> KnownLock(sh, record.value.lock)
  }

  /** A lock of this session whose first write was issued, with its local expiry. */
  predicate OwnLock(sh: Shared, x: Client, lock: Option<Lock>, expires: Option<int>) {
    && lock.Some? && lock.value.owner == x.owner && lock.value.ttl == x.timeout
    && lock.value in sh.wrote && expires == Some(LockEnd(sh, lock.value) + x.skew)
  }

  predicate NewOwnLock(sh: Shared, x: Client, lock: Option<Lock>) {
    && lock.Some? && lock.value.owner == x.owner && lock.value.ttl == x.timeout
    && lock.value.stamp <= x.stamps && lock.value !in sh.wrote
  }

  predicate BeforeExpiry(sh: Shared, x: Client, expires: Option<int>) {
    expires.Some? && Clock(sh, x) < expires.value
  }

  predicate VerifiedRecord(sh: Shared, record: Record) {
    record.generation in sh.ids && sh.ids[record.generation] == record.syncId
  }

  predicate PayloadKept(sh: Shared, x: Client, id: SyncId) {
    id in sh.finished && x.payload == sh.finished[id]
  }

  /** The durable local record. */
  predicate LocalOk(sh: Shared, x: Client, i: nat) {
    x.local.Some? ==>
      var mine := x.local.value;
      && mine.generation >= 1 && sh.top >= 1 && sh.file.Some? && mine.repo == sh.file.value.repo
      && mine.syncId != NoId
      && mine.generation <= sh.top + 1
      && (mine.generation == sh.top + 1 ==> mine.syncing && x.origin.Some?)
      && (x.origin.Some? ==> (mine.generation - 1) in sh.ids && sh.ids[mine.generation - 1] == x.origin.value)
      && (!mine.active && !mine.syncing ==> PayloadKept(sh, x, mine.syncId))
  }

  /** What startup may assume about the record it found, because the local record has not
      changed since. */
  predicate StartOk(x: Client, found: Option<Record>) {
    x.local.Some? ==>
      var mine := x.local.value;
      && found.Some? && found.value.repo == mine.repo && found.value.generation >= 1
      && mine.generation <= found.value.generation + 1
      && (mine.generation == found.value.generation + 1 ==> mine.syncing && x.origin == Some(found.value.syncId))
  }

  predicate Acceptable(x: Client, found: Record) {
    !(x.failOnIncomplete && found.syncing && NeedsSyncFromRemote(x.local, found))
  }

  predicate NotedOk(sh: Shared, x: Client, noted: Option<Lock>, notedAt: int) {
    noted.Some? ==> noted.value in sh.wrote && sh.wrote[noted.value] + x.skew <= notedAt
  }

  predicate BidOk(sh: Shared, x: Client, bid: Record, writtenAt: int) {
    && OwnLock(sh, x, bid.lock, Some(writtenAt + x.timeout))
    && StartOk(x, Some(bid)) && Acceptable(x, bid)
  }

  /** The record read back is still the file's while the lock lives, and as long as the file
      is this client's at all. */
  predicate SeenOk(sh: Shared, x: Client, i: nat, seen: Record, expires: Option<int>) {
    && VerifiedRecord(sh, seen)
    && sh.file.Some? && seen.repo == sh.file.value.repo
    && (seen.lock.Some? && BeforeExpiry(sh, x, expires) ==> Mine(sh, i))
    && (Mine(sh, i) ==> sh.file == Some(seen) && sh.top == seen.generation)
  }

  predicate CoreStep(why: Purpose, base: Record, candidate: Record) {
    && (why.Refresh? || why.Release? || why.Continue? ==> SameCore(base, candidate))
    && (why.Release? ==> candidate.lock == None)
    && (why.Publish? ==> base.generation >= 1 && SameCore(candidate, Advanced(base, candidate.syncId)))
    && (why.Complete? ==> base.generation >= 1 && SameCore(candidate, Completed(base)))
    && (why.FinishInit? ==> base.generation == 0 && SameCore(candidate, Initialized(base, candidate.syncId)))
  }

  /** A new sync ID is the client's own and nothing was finished under it. */
  predicate FreshId(sh: Shared, x: Client, i: nat, id: SyncId) {
    id.Id? && id.client == i && id.serial <= x.serials && id !in sh.finished
  }

  predicate CandidateOk(sh: Shared, x: Client, i: nat, why: Purpose, candidate: Record) {
    && CoreStep(why, Base(x), candidate)
    && (why.Publish? ==> FreshId(sh, x, i, candidate.syncId))
    && (why.FinishInit? ==> candidate.syncId.Id?)
    && (why.Complete? || why.FinishInit? ==>
          (Mine(sh, i) ==> IsUploaded(sh, candidate)) && (!x.dirty ==> PayloadKept(sh, x, candidate.syncId)))
  }

  predicate PlannedLock(sh: Shared, x: Client, why: Purpose, candidate: Record) {
    if why.Release? then candidate.lock == None
    else if why.Refresh? || why.Continue? then NewOwnLock(sh, x, candidate.lock)
    else candidate.lock == Base(x).lock
  }

  predicate IssuedLock(sh: Shared, x: Client, candidate: Record, expires: Option<int>) {
    && (candidate.lock.None? ==> expires == None)
    && (candidate.lock.Some? ==>
          OwnLock(sh, x, candidate.lock, expires) &&
          (x.mode.Held? && x.view.lockExpiry.Some? ==> x.view.lockExpiry.value <= expires.value))
  }

  /** A guarded update from its first to its last stage. */
  predicate UpdateOk(sh: Shared, x: Client, i: nat) {
    x.update != NoUpdate ==>
      && CandidateOk(sh, x, i, x.update.why, x.update.candidate)
      && (x.update.Reading? || x.update.Got? ==> PlannedLock(sh, x, x.update.why, x.update.candidate))
      && (x.update.Got? ==> KnownRecord(sh, x.update.found))
      && (x.update.Writing? || x.update.Verifying? || x.update.Verified? ==> IssuedOk(sh, x))
      && (x.update.Writing? ==>
            OwnedBy(Some(x.update.latest), x.owner) && (x.update.why.Continue? ==> x.update.latest == Base(x)))
      && (ReadBack(x) ==> SeenOk(sh, x, i, x.update.candidate, x.update.expires))
  }

  predicate IssuedOk(sh: Shared, x: Client)
    requires x.update.Writing? || x.update.Verifying? || x.update.Verified?
  {
    IssuedLock(sh, x, x.update.candidate, x.update.expires) && (x.update.why.Release? <==> x.update.candidate.lock.None?)
  }

  /** Which guarded update can be under way beside which work. */
  predicate UpdateFits(x: Client)
    requires x.mode.Held?
  {
    var work := x.mode.work;
    && (work.Publishing? || work.Completing? || work.InitPublishing? || work.Closing? ==> x.update != NoUpdate)
    && (x.update != NoUpdate ==>
          x.update.why == if work.Publishing? then Publish
                          else if work.Completing? then Complete
                          else if work.InitPublishing? then FinishInit
                          else if work.Closing? then Release
                          else Refresh)
  }

  predicate ReadBack(x: Client) {
    x.update.Verified? && x.update.seen == Some(x.update.candidate)
  }

  predicate PendingOk(sh: Shared, x: Client) {
    x.view.pending.Some? ==> IssuedLock(sh, x, x.view.pending.value, x.view.pendingExpiry)
  }

  /** The verified base of a session that holds, or believes it holds, the lock. */
  predicate BaseOk(sh: Shared, x: Client, i: nat) {
    var base := Base(x);
    && OwnLock(sh, x, base.lock, x.view.lockExpiry)
    && VerifiedRecord(sh, base)
    && sh.file.Some? && base.repo == sh.file.value.repo
    && (base.generation > 0 ==> base.syncId != NoId)
    && PendingOk(sh, x)
    && (Guarded(x) && BeforeExpiry(sh, x, x.view.lockExpiry) ==> Mine(sh, i))
    && (PayloadRunning(x) ==> Clock(sh, x) <= Deadline(x))
    && (Mine(sh, i) ==>
          && sh.file.value.lock.value in sh.wrote
          && x.view.lockExpiry.value <= LockEnd(sh, sh.file.value.lock.value) + x.skew
          && (!ReadBack(x) ==> sh.top == base.generation)
          && (base.generation >= 1 && !base.syncing ==> IsUploaded(sh, base)))
  }

  /** Nothing but the lock can have been written since the base was verified. */
  predicate Quiet(sh: Shared, x: Client, i: nat) {
    Mine(sh, i) ==> SameCore(sh.file.value, Base(x))
  }

  predicate WorkOk(sh: Shared, x: Client, i: nat, work: Work) {
    var base := Base(x);
    && (work.Startup? ==> StartOk(x, Some(base)) && Acceptable(x, base) && Quiet(sh, x, i))
    && (InitWork(work) ==> base.generation == 0 && x.local == None)
    && (work.Initializing? ==> Quiet(sh, x, i))
    && (work.InitUploaded? ==>
          && work.id.Id?
          && (Mine(sh, i) ==> work.id in sh.finished && sh.payload == sh.finished[work.id])
          && (!x.dirty ==> PayloadKept(sh, x, work.id)))
    && (LaterWork(work) ==> base.generation >= 1 && Marked(x))
    && (work.Downloading? ==> x.failOnIncomplete ==> !base.syncing)
    && (SessionWork(work) ==> x.local.Some?)
    && (work.Ready? && !x.dirty && !x.local.value.syncing ==> PayloadKept(sh, x, x.local.value.syncId))
    && (work.Publishing? ==>
          && x.update != NoUpdate && x.origin == Some(base.syncId)
          && x.local == Some(AdvancedLocal(base, x.update.candidate.syncId)))
    && (work.Uploading? ==>
          && base.syncing && Quiet(sh, x, i) && FreshId(sh, x, i, base.syncId)
          && x.local == Some(RecordedLocal(base)))
    && (work.Uploaded? ==>
          && base.syncing && Quiet(sh, x, i)
          && (Mine(sh, i) ==> IsUploaded(sh, base)) && (!x.dirty ==> PayloadKept(sh, x, base.syncId)))
    && (work.Completing? && Mine(sh, i) ==> sh.file.value.generation == base.generation)
    && (work.Recording? && !x.dirty && !base.syncing ==> PayloadKept(sh, x, base.syncId))
  }

  predicate InitWork(work: Work) {
    work.Initializing? || work.InitUploaded? || work.InitPublishing?
  }

  /** Work on an initialised remote, with the session marked in the local record. */
  predicate LaterWork(work: Work) {
    work.Downloading? || work.Recovering? || work.Ready? || work.Publishing? || work.Uploading? || work.Uploaded? ||
    work.Completing? || work.Recording?
  }

  predicate SessionWork(work: Work) {
    work.Recovering? || work.Ready? || work.Publishing? || work.Uploading? || work.Uploaded? || work.Completing? ||
    (work.Recording? && !work.recovery)
  }

  predicate SessionOk(x: Client, i: nat) {
    x.timeout > 0 && x.owner.client == i
  }

  predicate ObservingOk(sh: Shared, x: Client)
    requires x.mode.Observing?
  {
    KnownRecord(sh, x.mode.obs) && StartOk(x, x.mode.obs) && NotedOk(sh, x, x.mode.noted, x.mode.notedAt)
  }

  predicate AcquiringOk(sh: Shared, x: Client)
    requires x.mode.Acquiring?
  {
    var obs, bid := x.mode.obs, x.mode.bid;
    && KnownRecord(sh, obs) && NotedOk(sh, x, x.mode.noted, x.mode.notedAt) && BidOk(sh, x, bid, x.mode.writtenAt)
    && (obs.Some? ==> SameCore(obs.value, bid))
    && (obs.None? ==> bid.generation == 0 && bid.syncId == NoId && !bid.syncing)
    && (obs.Some? && obs.value.lock.Some? ==> LockEnd(sh, obs.value.lock.value) <= sh.now)
  }

  predicate CheckingOk(sh: Shared, x: Client, i: nat)
    requires x.mode.Checking?
  {
    var seen, bid := x.mode.seen, x.mode.bid;
    && KnownRecord(sh, seen) && StartOk(x, seen) && NotedOk(sh, x, x.mode.noted, x.mode.notedAt)
    && BidOk(sh, x, bid, x.mode.writtenAt)
    && (seen == Some(bid) ==> SeenOk(sh, x, i, bid, Some(x.mode.writtenAt + x.timeout)))
  }

  predicate ContinuingOk(sh: Shared, x: Client) {
    && x.update != NoUpdate && x.update.why == Continue
    && StartOk(x, Some(Base(x))) && Acceptable(x, Base(x)) && KnownLock(sh, Base(x).lock)
    && (x.update.Reading? || x.update.Got? ==> x.view.pending == None)
  }

  predicate HeldOk(sh: Shared, x: Client, i: nat)
    requires x.mode.Held?
  {
    BaseOk(sh, x, i) && WorkOk(sh, x, i, x.mode.work) && UpdateFits(x)
  }

  predicate ModeOk(sh: Shared, x: Client, i: nat) {
    && (!x.mode.Down? ==> SessionOk(x, i))
    && (!x.mode.Held? && !x.mode.Continuing? ==> x.update == NoUpdate)
    && (x.mode.Observing? ==> ObservingOk(sh, x))
    && (x.mode.Acquiring? ==> AcquiringOk(sh, x))
    && (x.mode.Checking? ==> CheckingOk(sh, x, i))
    && (x.mode.Continuing? ==> ContinuingOk(sh, x))
    && (x.mode.Held? ==> HeldOk(sh, x, i))
  }

  ghost predicate FreshnessOk(sh: Shared, x: Client, i: nat) {
    && (forall lock :: lock in sh.wrote && lock.owner.client == i ==> lock.stamp <= x.stamps)
    && (forall id :: id in sh.finished && id.Id? && id.client == i ==> id.serial <= x.serials)
  }

  ghost predicate ClientOk(sh: Shared, x: Client, i: nat) {
    FreshnessOk(sh, x, i) && LocalOk(sh, x, i) && ModeOk(sh, x, i) && UpdateOk(sh, x, i)
  }

  ghost predicate Inv(s: System) {
    SharedOk(s.shared) && forall i :: 0 <= i < |s.clients| ==> ClientOk(s.shared, s.clients[i], i)
  }

  // ---------------------------------------------------------------- what others may do to client i

  ghost predicate Rely(sh: Shared, to: Shared, i: nat) {
    && sh.now == to.now
    && (forall lock :: lock in sh.wrote ==> lock in to.wrote && to.wrote[lock] == sh.wrote[lock])
    && (forall lock :: lock in to.wrote && lock !in sh.wrote ==> lock.owner.client != i)
    && (forall id :: id in sh.finished ==> id in to.finished && to.finished[id] == sh.finished[id])
    && (forall id :: id in to.finished && id !in sh.finished ==> id.Id? && id.client != i)
    && (forall g :: g in sh.ids ==> g in to.ids && to.ids[g] == sh.ids[g])
    && sh.top <= to.top
    && (sh.file.Some? ==> to.file.Some? && to.file.value.repo == sh.file.value.repo)
    && (to.file != sh.file ==> !Mine(to, i))
    && (to.file != sh.file && Mine(sh, i) ==>
          sh.file.value.lock.value in sh.wrote && LockEnd(sh, sh.file.value.lock.value) <= sh.now)
    && (to.payload != sh.payload || to.top != sh.top ==> !Mine(sh, i) && !Mine(to, i))
  }

  lemma RelySeen(sh: Shared, to: Shared, x: Client, i: nat, seen: Record, expires: Option<int>)
    requires Rely(sh, to, i) && SeenOk(sh, x, i, seen, expires)
    requires seen.lock.Some? ==> OwnLock(sh, x, seen.lock, expires)
    ensures SeenOk(to, x, i, seen, expires)
  {
  }

  lemma RelyLocal(sh: Shared, to: Shared, x: Client, i: nat)
    requires Rely(sh, to, i) && LocalOk(sh, x, i)
    ensures LocalOk(to, x, i)
  {
  }

  lemma RelyCandidate(sh: Shared, to: Shared, x: Client, i: nat, why: Purpose, candidate: Record)
    requires Rely(sh, to, i) && CandidateOk(sh, x, i, why, candidate)
    ensures CandidateOk(to, x, i, why, candidate)
  {
  }

  lemma RelyUpdate(sh: Shared, to: Shared, x: Client, i: nat)
    requires Rely(sh, to, i) && UpdateOk(sh, x, i) && (x.mode.Down? ==> x.update == NoUpdate)
    requires x.mode.Down? || x.owner.client == i
    ensures UpdateOk(to, x, i)
  {
    if x.update != NoUpdate {
      RelyCandidate(sh, to, x, i, x.update.why, x.update.candidate);
      if ReadBack(x) {
        RelySeen(sh, to, x, i, x.update.candidate, x.update.expires);
      }
    }
  }

  lemma RelyBase(sh: Shared, to: Shared, x: Client, i: nat)
    requires Rely(sh, to, i) && BaseOk(sh, x, i)
    ensures BaseOk(to, x, i)
  {
  }

  lemma RelyWork(sh: Shared, to: Shared, x: Client, i: nat, work: Work)
    requires Rely(sh, to, i) && WorkOk(sh, x, i, work)
    ensures WorkOk(to, x, i, work)
  {
  }

  lemma RelyMode(sh: Shared, to: Shared, x: Client, i: nat)
    requires Rely(sh, to, i) && ModeOk(sh, x, i)
    ensures ModeOk(to, x, i)
  {
    if x.mode.Held? {
      RelyBase(sh, to, x, i);
      RelyWork(sh, to, x, i, x.mode.work);
    } else if x.mode.Checking? && x.mode.seen == Some(x.mode.bid) {
      RelySeen(sh, to, x, i, x.mode.bid, Some(x.mode.writtenAt + x.timeout));
    }
  }

  lemma RelyKeepsClient(sh: Shared, to: Shared, x: Client, i: nat)
    requires ClientOk(sh, x, i) && Rely(sh, to, i)
    ensures ClientOk(to, x, i)
  {
    RelyLocal(sh, to, x, i);
    RelyMode(sh, to, x, i);
    RelyUpdate(sh, to, x, i);
  }
}
