/** Every client and the remote they share, as one transition system.

    Shared state: the remote state file (a compare-and-swap register: content is its own ETag),
    the remote payload, true time, and history variables. Each client has durable state, a
    process that can crash at any step, and a local clock that runs at the common rate with an
    offset of its own. A step is one atomic piece of src/syncstate.go. */
module Protocol {
  import opened Prelude
  import opened StateFile

  /** `wrote` is the true time just before the first write of a lock was issued. `finished` is
      the remote payload at the moment the upload of a sync ID completed. `ids` and `top` are
      the generations verified so far, by any owner, with their sync IDs. */
  datatype Shared = Shared(
    now: int,
    file: Option<Record>,
    payload: int,
    wrote: map<Lock, int>,
    finished: map<SyncId, int>,
    ids: map<nat, SyncId>,
    top: nat)

  datatype Purpose = Refresh | Publish | Complete | FinishInit | Release | Continue

  /** How far one `replaceOwnedRemote` call has come. */
  datatype Update =
    | NoUpdate
    | Reading(why: Purpose, candidate: Record)
    | Got(why: Purpose, candidate: Record, found: Option<Record>)
    | Writing(why: Purpose, candidate: Record, latest: Record, expires: Option<int>, landed: bool)
    | Verifying(why: Purpose, candidate: Record, latest: Record, expires: Option<int>)
    | Verified(why: Purpose, candidate: Record, latest: Record, expires: Option<int>, seen: Option<Record>)

  /** What the main goroutine is doing. `recovery` tells a startup upload from a batch. */
  datatype Work =
    | Startup
    | Initializing
    | InitUploaded(id: SyncId)
    | InitPublishing
    | Downloading
    | Recovering
    | Ready
    | Publishing(recovery: bool)
    | Uploading(recovery: bool)
    | Uploaded(recovery: bool)
    | Completing(recovery: bool)
    | Recording(recovery: bool)
    | Finished
    | Failed
    | Closing

  /** The lock observation of `Acquire`: `notedAt` is read from the local clock. */
  datatype Mode =
    | Down
    | Observing(obs: Option<Record>, noted: Option<Lock>, notedAt: int)
    | Acquiring(obs: Option<Record>, noted: Option<Lock>, notedAt: int, bid: Record, writtenAt: int, landed: bool)
    | Checking(noted: Option<Lock>, notedAt: int, bid: Record, writtenAt: int, seen: Option<Record>)
    | Continuing
    | Held(work: Work)

  datatype Client = Client(
    // durable: the local record, the local payload, and what makes tokens, stamps and IDs fresh
    local: Option<Local>,
    payload: int,
    origin: Option<SyncId>,   // history: the base an unpublished advance was made from
    tokens: nat,
    stamps: nat,
    serials: nat,
    skew: int,
    // configuration of the current session
    owner: Owner,
    timeout: nat,
    persistent: bool,
    failOnIncomplete: bool,
    // the process
    mode: Mode,
    view: View,
    update: Update,
    cancelled: bool,          // payload commands have been cancelled
    dirty: bool)              // a change is queued that no running upload covers

  type Pair = (Shared, Client)

  datatype Step =
    | Boot(timeout: nat, persistent: bool, failOnIncomplete: bool)
    | Reread
    | Note
    | IssueAcquire(freshRepo: nat, mayInitialize: bool)
    | LandAcquire
    | CheckAcquire
    | Enter
    | Retry
    | BeginContinue
    | Crash
    | Cancel
    | BeginRefresh
    | ReadLatest
    | Issue
    | LandWrite
    | ReportOk
    | FailUpdate
    | VerifyRead
    | Conclude
    | Decide
    | Edit(content: int)
    | PayloadProgress(content: int)
    | DownloadProgress(content: int)
    | InitDone(result: int)
    | BeginFinishInit
    | BeginPublish(recovery: bool)
    | UploadDone(result: int)
    | BeginComplete
    | DownloadDone(result: int)
    | RecordLocal
    | FailWork
    | FinishSession
    | BeginClose

  function Clock(sh: Shared, x: Client): int {
    sh.now + x.skew
  }

  function Base(x: Client): Record {
    x.view.remote
  }

  function NewLock(x: Client): Lock {
    Lock(x.owner, x.stamps + 1, x.timeout)
  }

  function NewId(x: Client, i: nat): SyncId {
    Id(i, x.serials + 1)
  }

  /** The last local instant at which the refresh loop still lets commands run. */
  function Deadline(x: Client): int {
    RefreshDeadline(x.view.lockExpiry.GetOr(0), x.timeout)
  }

  predicate Guarded(x: Client) {
    x.mode.Held? && !x.mode.work.Closing?
  }

  /** A command that reads or changes the remote payload is running. */
  predicate PayloadRunning(x: Client) {
    !x.cancelled && PayloadMode(x.mode)
  }

  predicate PayloadMode(mode: Mode) {
    mode.Held? && (mode.work.Initializing? || mode.work.Downloading? || mode.work.Uploading?)
  }

  /** The refresh loop waits for the update mutex while the main goroutine holds it. When that is
      past the deadline and a payload command is to follow, the command is cancelled at once. */
  function Admitted(sh: Shared, x: Client): Client {
    x.(cancelled := x.cancelled || (PayloadMode(x.mode) && Clock(sh, x) > Deadline(x)))
  }

  // ---------------------------------------------------------------- when a step can be taken

  predicate CanAcquire(sh: Shared, x: Client, i: nat, step: Step) {
    match step
    case Boot(timeout, _, _) => x.mode.Down? && timeout > 0
    case Reread => x.mode.Observing?
    case Note => x.mode.Observing? && x.mode.obs.Some? && x.mode.obs.value.lock.Some? && x.mode.noted != x.mode.obs.value.lock
    case IssueAcquire(_, mayInitialize) =>
      x.mode.Observing? &&
      (x.mode.obs.Some? && x.mode.obs.value.lock.Some? ==>
         x.mode.noted == x.mode.obs.value.lock &&
         Clock(sh, x) >= x.mode.notedAt + Ttl(x.mode.obs.value.lock, x.timeout)) &&
      ValidateAcquisition(x.local, x.mode.obs, x.failOnIncomplete, mayInitialize) == None
    case LandAcquire => x.mode.Acquiring? && !x.mode.landed && sh.file == x.mode.obs
    case CheckAcquire => x.mode.Acquiring?
    case Enter =>
      x.mode.Checking? && x.mode.seen == Some(x.mode.bid) &&
      Clock(sh, x) <= RefreshDeadline(x.mode.writtenAt + x.timeout, x.timeout)
    case Retry => x.mode.Checking? && x.mode.seen != Some(x.mode.bid)
    case BeginContinue =>
      x.mode.Observing? && x.persistent && x.mode.noted == None && OwnedBy(x.mode.obs, x.owner) &&
      ValidateAcquisition(x.local, x.mode.obs, x.failOnIncomplete, true) == None
    case Crash => !x.mode.Down?
    case Cancel => x.mode.Held?
    case _ => false
  }

  predicate CanUpdate(sh: Shared, x: Client, i: nat, step: Step) {
    match step
    case BeginRefresh => Guarded(x) && x.update == NoUpdate
    case ReadLatest => x.update.Reading?
    case Issue => x.update.Got?
    case LandWrite => x.update.Writing? && !x.update.landed && sh.file == Some(x.update.latest)
    case ReportOk => x.update.Writing? && x.update.landed
    case FailUpdate => x.update.Reading? || x.update.Writing? || x.update.Verifying?
    case VerifyRead => x.update.Verifying?
    case Conclude => x.update.Verified?
    case _ => false
  }

  predicate CanWork(sh: Shared, x: Client, i: nat, step: Step) {
    x.mode.Held? &&
    match step
    case Decide => x.mode.work.Startup?
    case Edit(_) => Marked(x) && !x.mode.work.Startup? && !x.mode.work.Finished? && !x.mode.work.Closing?
    case PayloadProgress(_) => !x.cancelled && (x.mode.work.Initializing? || x.mode.work.Uploading?)
    case DownloadProgress(_) => !x.cancelled && x.mode.work.Downloading?
    case InitDone(result) => !x.cancelled && x.mode.work.Initializing? && (!x.dirty ==> result == x.payload)
    case BeginFinishInit => x.mode.work.InitUploaded? && x.update == NoUpdate
    case BeginPublish(recovery) =>
      x.mode.work == (if recovery then Recovering else Ready) && x.update == NoUpdate &&
      0 < Base(x).generation < MAX_GENERATION
    case UploadDone(result) => !x.cancelled && x.mode.work.Uploading? && (!x.dirty ==> result == x.payload)
    case BeginComplete => x.mode.work.Uploaded? && x.update == NoUpdate
    case DownloadDone(result) => !x.cancelled && x.mode.work.Downloading? && (!x.dirty ==> result == sh.payload)
    case RecordLocal => x.mode.work.Recording?
    case FailWork =>
      x.mode.work.Startup? || x.mode.work.Initializing? || x.mode.work.InitUploaded? || x.mode.work.Downloading? ||
      x.mode.work.Recovering? || x.mode.work.Uploading? || x.mode.work.Uploaded? || x.mode.work.Recording?
    case FinishSession => x.mode.work.Ready? && x.update == NoUpdate && !x.dirty
    case BeginClose =>
      (x.mode.work.Startup? || x.mode.work.Ready? || x.mode.work.Finished? || x.mode.work.Failed?) && x.update == NoUpdate
    case _ => false
  }

  predicate Marked(x: Client) {
    x.local.None? || x.local.value.active
  }

  predicate Can(sh: Shared, x: Client, i: nat, step: Step) {
    CanAcquire(sh, x, i, step) || CanUpdate(sh, x, i, step) || CanWork(sh, x, i, step)
  }

  // ---------------------------------------------------------------- what a step does

  function ActAcquire(sh: Shared, x: Client, i: nat, step: Step): Pair
    requires CanAcquire(sh, x, i, step)
  {
    match step
    case Boot(timeout, persistent, failOnIncomplete) =>
      (sh, x.(tokens := x.tokens + 1, owner := Owner(i, if persistent then 0 else x.tokens + 1),
              timeout := timeout, persistent := persistent, failOnIncomplete := failOnIncomplete,
              mode := Observing(sh.file, None, 0), update := NoUpdate, cancelled := false, dirty := false))
    case Reread => (sh, x.(mode := Observing(sh.file, x.mode.noted, x.mode.notedAt)))
    case Note => (sh, x.(mode := Observing(x.mode.obs, x.mode.obs.value.lock, Clock(sh, x))))
    case IssueAcquire(freshRepo, _) =>
      var lock := NewLock(x);
      (sh.(wrote := sh.wrote[lock := sh.now]),
       x.(stamps := x.stamps + 1,
          mode := Acquiring(x.mode.obs, x.mode.noted, x.mode.notedAt,
                            AcquisitionCandidate(x.local, x.mode.obs, freshRepo, lock), Clock(sh, x), false)))
    case LandAcquire => (sh.(file := Some(x.mode.bid)), x.(mode := x.mode.(landed := true)))
    case CheckAcquire =>
      (if sh.file == Some(x.mode.bid) then RecordVerified(sh, x.mode.bid) else sh,
       x.(mode := Checking(x.mode.noted, x.mode.notedAt, x.mode.bid, x.mode.writtenAt, sh.file)))
    case Enter =>
      (sh, x.(mode := Held(Startup), update := NoUpdate,
              view := View(x.mode.bid, Some(x.mode.writtenAt + x.timeout), None, None)))
    case Retry => (sh, x.(mode := Observing(x.mode.seen, x.mode.noted, x.mode.notedAt)))
    case BeginContinue =>
      var previous := x.mode.obs.value;
      (sh, x.(mode := Continuing, stamps := x.stamps + 1, view := View(previous, None, None, None),
              update := Reading(Continue, Refreshed(previous, NewLock(x)))))
    case Crash => (sh, x.(mode := Down, update := NoUpdate))
    case Cancel => (sh, x.(cancelled := true))
  }

  /** The history of verified generations, extended by a record its owner has just read back. */
  function RecordVerified(sh: Shared, record: Record): Shared {
    sh.(ids := sh.ids[record.generation := record.syncId], top := record.generation)
  }

  function ActUpdate(sh: Shared, x: Client, i: nat, step: Step): Pair
    requires CanUpdate(sh, x, i, step)
  {
    match step
    case BeginRefresh =>
      (sh, x.(stamps := x.stamps + 1, update := Reading(Refresh, Refreshed(Base(x), NewLock(x)))))
    case ReadLatest => (sh, x.(update := Got(x.update.why, x.update.candidate, sh.file)))
    case Issue =>
      var plan := PlanWrite(x.view, x.owner, Base(x), x.update.candidate, x.update.found, x.timeout, Clock(sh, x));
      var y := x.(view := Remember(x.view, plan));
      if plan.Refuse? then (sh, AfterFailure(y))
      else
        (if plan.candidate.lock.Some? && plan.candidate.lock.value !in sh.wrote
         then sh.(wrote := sh.wrote[plan.candidate.lock.value := sh.now]) else sh,
         y.(update := Writing(x.update.why, plan.candidate, Latest(x), plan.expires, false)))
    case LandWrite => (sh.(file := Some(x.update.candidate)), x.(update := x.update.(landed := true)))
    case ReportOk => (sh, x.(update := Verifying(x.update.why, x.update.candidate, x.update.latest, x.update.expires)))
    case FailUpdate => (sh, AfterFailure(x))
    case VerifyRead =>
      (if sh.file == Some(x.update.candidate) then RecordVerified(sh, x.update.candidate) else sh,
       x.(update := Verified(x.update.why, x.update.candidate, x.update.latest, x.update.expires, sh.file)))
    case Conclude =>
      var verdict := Judge(x.owner, x.update.candidate, x.update.latest, x.update.seen);
      var y := x.(view := Settle(x.view, verdict, x.update.candidate, x.update.expires));
      (sh, if verdict.Adopted? then AfterSuccess(sh, y) else AfterFailure(y))
  }

  function Latest(x: Client): Record
    requires x.update.Got?
  {
    if x.update.found.Some? then x.update.found.value else Base(x)
  }

  /** Where the main goroutine goes when its guarded update succeeded. */
  function SuccessMode(x: Client): Mode
    requires x.update.Verified?
  {
    match x.update.why
    case Refresh => x.mode
    case Publish => Held(Uploading(IsRecovery(x)))
    case Complete => Held(Recording(IsRecovery(x)))
    case FinishInit => Held(Recording(true))
    case Release => Down
    case Continue => Held(Startup)
  }

  function AfterSuccess(sh: Shared, x: Client): Client
    requires x.update.Verified?
  {
    Admitted(sh, x.(update := NoUpdate, mode := SuccessMode(x)))
  }

  function FailureMode(x: Client): Mode
    requires x.update != NoUpdate
  {
    match x.update.why
    case Refresh => x.mode
    case Publish => BrokenMode(IsRecovery(x))
    case Complete => BrokenMode(IsRecovery(x))
    case FinishInit => BrokenMode(true)
    case Release => Down
    case Continue => Down
  }

  function AfterFailure(x: Client): Client
    requires x.update != NoUpdate
  {
    x.(update := NoUpdate, mode := FailureMode(x),
       dirty := x.dirty || ((x.update.why.Publish? || x.update.why.Complete?) && !IsRecovery(x)))
  }

  predicate IsRecovery(x: Client) {
    x.mode.Held? && (x.mode.work == Publishing(true) || x.mode.work == Completing(true))
  }

  /** A failed startup only releases its lock; a failed batch is merged back and stays queued. */
  function BrokenMode(startup: bool): Mode {
    Held(if startup then Failed else Ready)
  }

  predicate AtStartup(work: Work) {
    match work
    case Uploading(recovery) => recovery
    case Uploaded(recovery) => recovery
    case Recording(recovery) => recovery
    case _ => true
  }

  function ActWork(sh: Shared, x: Client, i: nat, step: Step): Pair
    requires CanWork(sh, x, i, step)
  {
    match step
    case Decide =>
      var marked := x.(local := MarkActive(x.local));
      (sh, Admitted(sh, marked.(mode := Held(match StartupBranch(x.local, Base(x))
                                             case Initialize => Initializing
                                             case Download => Downloading
                                             case Ahead => Failed
                                             case Ambiguous => Failed
                                             case Recover => Recovering
                                             case Current => Ready))))
    case Edit(content) => (sh, x.(payload := content, dirty := true))
    case PayloadProgress(content) => (sh.(payload := content), x)
    case DownloadProgress(content) => (sh, x.(payload := content))
    case InitDone(result) =>
      var id := NewId(x, i);
      (sh.(payload := result, finished := sh.finished[id := result]),
       x.(serials := x.serials + 1, mode := Held(InitUploaded(id))))
    case BeginFinishInit =>
      (sh, x.(mode := Held(InitPublishing), update := Reading(FinishInit, Initialized(Base(x), x.mode.work.id))))
    case BeginPublish(recovery) =>
      var id := NewId(x, i);
      (sh, x.(serials := x.serials + 1, local := Some(AdvancedLocal(Base(x), id)), origin := Some(Base(x).syncId),
              dirty := recovery && x.dirty, mode := Held(Publishing(recovery)),
              update := Reading(Publish, Advanced(Base(x), id))))
    case UploadDone(result) =>
      (sh.(payload := result, finished := sh.finished[Base(x).syncId := result]),
       x.(mode := Held(Uploaded(x.mode.work.recovery))))
    case BeginComplete =>
      (sh, x.(mode := Held(Completing(x.mode.work.recovery)), update := Reading(Complete, Completed(Base(x)))))
    case DownloadDone(result) => (sh, x.(payload := result, mode := Held(Recording(true))))
    case RecordLocal => (sh, x.(local := Some(RecordedLocal(Base(x))), origin := None, mode := Held(Ready)))
    case FailWork => (sh, x.(mode := BrokenMode(AtStartup(x.mode.work)), dirty := x.dirty || !AtStartup(x.mode.work)))
    case FinishSession =>
      (sh, x.(local := if x.local.Some? then Some(x.local.value.(active := false)) else None, mode := Held(Finished)))
    case BeginClose =>
      (sh, if x.persistent then x.(mode := Down)
           else x.(mode := Held(Closing), update := Reading(Release, Released(Base(x)))))
  }

  function Act(sh: Shared, x: Client, i: nat, step: Step): Pair
    requires Can(sh, x, i, step)
  {
    if CanAcquire(sh, x, i, step) then ActAcquire(sh, x, i, step)
    else if CanUpdate(sh, x, i, step) then ActUpdate(sh, x, i, step)
    else ActWork(sh, x, i, step)
  }

  // ---------------------------------------------------------------- the system and its runs

  datatype System = System(shared: Shared, clients: seq<Client>)

  /** Timers fire on time: while a payload command runs, nothing but the refresh loop itself holds
      the update mutex, so no instant after the deadline is reached without cancelling it. At other
      times the deadline may pass unnoticed. */
  ghost predicate CanTick(s: System, d: nat) {
    forall i :: 0 <= i < |s.clients| && PayloadRunning(s.clients[i]) ==>
      Clock(s.shared, s.clients[i]) + d <= Deadline(s.clients[i])
  }

  ghost predicate Ticks(s: System, t: System) {
    exists d: nat :: CanTick(s, d) && t == s.(shared := s.shared.(now := s.shared.now + d))
  }

  predicate Moves(s: System, t: System, i: nat, step: Step) {
    i < |s.clients| && Can(s.shared, s.clients[i], i, step) &&
    var (sh, x) := Act(s.shared, s.clients[i], i, step);
    t == System(sh, s.clients[i := x])
  }

  ghost predicate Next(s: System, t: System) {
    Ticks(s, t) || exists i: nat, step :: Moves(s, t, i, step)
  }

  /** No state file, no local state, and any payloads. */
  predicate FreshClient(x: Client) {
    x.local == None && x.origin == None && x.mode == Down && x.update == NoUpdate
  }

  ghost predicate Initial(s: System) {
    s.shared.file == None && s.shared.wrote == map[] && s.shared.finished == map[] &&
    s.shared.ids == map[0 := NoId] && s.shared.top == 0 &&
    forall x :: x in s.clients ==> FreshClient(x)
  }

  ghost predicate Run(r: seq<System>) {
    |r| > 0 && Initial(r[0]) && forall k :: 0 <= k < |r| - 1 ==> Next(r[k], r[k + 1])
  }
}
