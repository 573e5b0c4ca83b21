/** The state file of src/syncstate.go and the pure decisions taken from it: which record a
    guarded update may write, how its verifying read is judged, whether an acquisition may
    proceed, and what startup does with the two records it finds. */
module StateFile {
  import opened Prelude

  /** A lock owner. `token` is the random token of one session, or 0 for a persistent lock ID,
      which every session of the same client shares. */
  datatype Owner = Owner(client: nat, token: nat)

  datatype Lock = Lock(owner: Owner, stamp: nat, ttl: nat)

  /** `rand.Text()` never repeats itself, so an ID carries who drew it and in which draw. The
      empty ID is the one of a record at generation 0. */
  datatype SyncId = NoId | Id(client: nat, serial: nat)

  /** The published record. `active` is never published, so two records with the same
      fields are the same content, and content stands for the ETag. */
  datatype Record = Record(repo: nat, generation: nat, syncId: SyncId, syncing: bool, lock: Option<Lock>)

  /** The durable record beside the payload, with its session marker. */
  datatype Local = Local(repo: nat, generation: nat, syncId: SyncId, syncing: bool, active: bool)

  /** The volatile fields `remote`, `lockExpiry`, `pending` and `pendingExpiry` of a session. */
  datatype View = View(remote: Record, lockExpiry: Option<int>, pending: Option<Record>, pendingExpiry: Option<int>)

  const MAX_GENERATION: nat := 0xFFFF_FFFF_FFFF_FFFF

  predicate SameCore(a: Record, b: Record) {
    a.repo == b.repo && a.generation == b.generation && a.syncId == b.syncId && a.syncing == b.syncing
  }

  function Ttl(lock: Option<Lock>, fallback: nat): nat {
    if lock.None? || lock.value.ttl == 0 then fallback else lock.value.ttl
  }

  predicate OwnedBy(record: Option<Record>, owner: Owner) {
    record.Some? && record.value.lock.Some? && record.value.lock.value.owner == owner
  }

  /** The part of a lock's life, from its end, in which a refresh is no longer attempted. */
  function SafetyWindow(timeout: nat): nat {
    Max(Min(timeout / 20, 1_000_000_000), 1)
  }

  /** From this instant on, a lock that expires at `expires` is no longer refreshed and its
      session's commands are cancelled. */
  function RefreshDeadline(expires: int, timeout: nat): int {
    expires - SafetyWindow(timeout)
  }

  /** A twentieth of the TTL, but between a nanosecond and a second. */
  lemma SafetyWindowValue(timeout: nat)
    ensures timeout < 20 ==> SafetyWindow(timeout) == 1
    ensures 20 <= timeout <= 20_000_000_000 ==> 20 * SafetyWindow(timeout) <= timeout < 20 * (SafetyWindow(timeout) + 1)
    ensures 20_000_000_000 <= timeout ==> SafetyWindow(timeout) == 1_000_000_000
  {
  }

  // ---------------------------------------------------------------- guarded update

  datatype Plan = Refuse | Write(candidate: Record, expires: Option<int>)

  /** What `replaceOwnedRemote` decides after its first read. */
  function PlanWrite(view: View, owner: Owner, previous: Record, candidate: Record,
                     latest: Option<Record>, timeout: nat, writtenAt: int): Plan
  {
    var isPrevious := latest == Some(previous);
    var isPending := view.pending.Some? && latest == view.pending;
    if !OwnedBy(latest, owner) || (!isPrevious && !isPending) then Refuse
    else
      var chosen :=
        if isPending && candidate.lock == previous.lock then candidate.(lock := latest.value.lock) else candidate;
      var expires :=
        if chosen.lock.None? then None
        else if chosen.lock != latest.value.lock then Some(writtenAt + Ttl(chosen.lock, timeout))
        else if isPending then view.pendingExpiry
        else view.lockExpiry;
      Write(chosen, expires)
  }

  function Remember(view: View, plan: Plan): View {
    match plan
    case Refuse => view.(pending := None, pendingExpiry := None)
    case Write(candidate, expires) => view.(pending := Some(candidate), pendingExpiry := expires)
  }

  datatype Verdict = Adopted | Unchanged | Lost

  /** How the verifying read is judged: `Unchanged` keeps the pending record for a retry. */
  function Judge(owner: Owner, candidate: Record, latest: Record, seen: Option<Record>): Verdict {
    if seen != Some(candidate) then
      if seen == Some(latest) then Unchanged else Lost
    else if candidate.lock.Some? && !OwnedBy(seen, owner) then Lost
    else Adopted
  }

  function Settle(view: View, verdict: Verdict, candidate: Record, expires: Option<int>): View {
    match verdict
    case Adopted => View(candidate, expires, None, None)
    case Unchanged => view
    case Lost => view.(pending := None, pendingExpiry := None)
  }

  // ---------------------------------------------------------------- acquisition

  predicate NeedsSyncFromRemote(local: Option<Local>, remote: Record) {
    remote.generation != 0 &&
    (local.None? || local.value.generation < remote.generation ||
     (local.value.generation == remote.generation && local.value.syncId != remote.syncId))
  }

  predicate IncompleteAdvance(local: Option<Local>, remote: Record) {
    local.Some? && local.value.syncing && local.value.generation == remote.generation + 1
  }

  datatype Objection = WrongRepository | IncompleteRemote | Untracked | LocalAhead

  /** `validateAcquisition`. `mayInitialize` says that the destination is empty or that deleting
      its contents was asked for. */
  function ValidateAcquisition(local: Option<Local>, remote: Option<Record>, failOnIncomplete: bool,
                               mayInitialize: bool): Option<Objection>
  {
    if local.Some? && remote.Some? && local.value.repo != remote.value.repo then Some(WrongRepository)
    else if failOnIncomplete && remote.Some? && remote.value.syncing && NeedsSyncFromRemote(local, remote.value)
    then Some(IncompleteRemote)
    else if remote.None? && !mayInitialize then Some(Untracked)
    else if remote.Some? && remote.value.generation > 0 && local.Some? &&
            local.value.generation > remote.value.generation && !IncompleteAdvance(local, remote.value)
    then Some(LocalAhead)
    else None
  }

  /** The record an acquisition writes: the one it observed, with a new lock. */
  function AcquisitionCandidate(local: Option<Local>, remote: Option<Record>, freshRepo: nat, lock: Lock): Record {
    match remote
    case Some(r) => r.(lock := Some(lock))
    case None =>
      Record(if local.Some? then local.value.repo else freshRepo, 0, NoId, false, Some(lock))
  }

  // ---------------------------------------------------------------- startup

  datatype Branch = Initialize | Download | Ahead | Ambiguous | Recover | Current

  /** The branch `InitializeGeneration` takes on the two records. */
  function StartupBranch(local: Option<Local>, remote: Record): Branch {
    if remote.generation == 0 then Initialize
    else if NeedsSyncFromRemote(local, remote) then Download
    else
      var mine := local.value;
      if mine.generation > remote.generation && !IncompleteAdvance(local, remote) then Ahead
      else
        var incomplete := mine.syncing || remote.syncing;
        if incomplete || mine.active then
          if incomplete && mine.generation == remote.generation && mine.syncId == NoId then Ambiguous
          else Recover
        else Current
  }

  /** Each branch in terms of the two records: what they say of one history decides. */
  lemma BranchMeaning(local: Option<Local>, remote: Record)
    ensures StartupBranch(local, remote) == Initialize <==> remote.generation == 0
    ensures remote.generation > 0 && local.None? ==> StartupBranch(local, remote) == Download
    ensures remote.generation > 0 && local.Some? ==>
              var mine, branch := local.value, StartupBranch(local, remote);
              var same := mine.generation == remote.generation && mine.syncId == remote.syncId;
              var oneAhead := mine.generation == remote.generation + 1 && mine.syncing;
              && (branch == Download <==> mine.generation <= remote.generation && !same)
              && (branch == Ahead <==> mine.generation > remote.generation && !oneAhead)
              && (branch == Current <==> same && !mine.syncing && !remote.syncing && !mine.active)
              && (branch == Ambiguous <==> same && mine.syncId == NoId && (mine.syncing || remote.syncing))
              && (branch == Recover <==>
                    oneAhead || (same && (mine.syncId == NoId ==> mine.active && !mine.syncing && !remote.syncing) &&
                                 (mine.syncing || remote.syncing || mine.active)))
  {
  }

  /** An acquisition is refused exactly over a foreign repository, over an untracked destination, or
      where startup could not go on: from a local state that is ahead, or, if that is forbidden, with
      the download of an incomplete payload. */
  lemma ObjectionMeaning(local: Option<Local>, remote: Option<Record>, failOnIncomplete: bool, mayInitialize: bool)
    ensures var objection := ValidateAcquisition(local, remote, failOnIncomplete, mayInitialize);
            && (objection == Some(WrongRepository) <==> local.Some? && remote.Some? && local.value.repo != remote.value.repo)
            && (objection == Some(Untracked) <==> remote.None? && !mayInitialize)
            && (remote.Some? && (local.Some? ==> local.value.repo == remote.value.repo) ==>
                  var branch := StartupBranch(local, remote.value);
                  && (objection == Some(LocalAhead) <==> branch == Ahead)
                  && (objection == Some(IncompleteRemote) <==> failOnIncomplete && remote.value.syncing && branch == Download))
            && (objection.Some? ==> objection.value in {WrongRepository, Untracked, LocalAhead, IncompleteRemote})
            && (remote.None? ==> objection in {None, Some(Untracked)})
  {
  }

  function MarkActive(local: Option<Local>): Option<Local> {
    if local.Some? then Some(local.value.(active := true)) else None
  }

  // ---------------------------------------------------------------- the records each operation writes

  function Refreshed(base: Record, lock: Lock): Record {
    base.(lock := Some(lock))
  }

  function Advanced(base: Record, id: SyncId): Record {
    base.(generation := base.generation + 1, syncId := id, syncing := true)
  }

  function AdvancedLocal(base: Record, id: SyncId): Local {
    Local(base.repo, base.generation + 1, id, true, true)
  }

  function Completed(base: Record): Record {
    base.(syncing := false)
  }

  function Initialized(base: Record, id: SyncId): Record {
    base.(generation := 1, syncId := id, syncing := false)
  }

  function Released(base: Record): Record {
    base.(lock := None)
  }

  /** The local record of a finished initialisation, upload or download of `remote`. */
  function RecordedLocal(remote: Record): Local {
    Local(remote.repo, remote.generation, remote.syncId, remote.syncing, true)
  }
}
