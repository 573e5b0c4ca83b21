/** The session object of src/syncstate.go, over a register that other clients also write and whose
    answers can fail in every way. What its guarded updates do is proved against `Replaced`, which
    is also what the steps of the transition system in `Protocol` do. */
module SyncState {
  import opened Prelude
  import opened StateFile

  // ---------------------------------------------------------------- the remote register

  /** How one call to the remote goes: what others made of the file just before it, how long it
      takes, whether it fails (`Ambiguous`: it took effect, yet an error is reported), what an
      inquiry answers, and whether a signal is waiting afterwards. */
  datatype Fault = Fine | Dropped | Ambiguous
  datatype Weather = Weather(others: Option<Option<Record>>, takes: nat, fault: Fault, yes: bool, signal: bool)

  datatype Sighting = Sighting(found: Option<Record>, at: int)
  datatype Landing = Landing(from: Option<Record>, to: Record, at: int)

  type World = nat -> Weather

  function FileAt(world: World, turn: nat, file: Option<Record>): Option<Record> {
    world(turn).others.GetOr(file)
  }

  function ReadAt(world: World, turn: nat, file: Option<Record>): Option<Option<Record>> {
    if world(turn).fault == Fine then Some(FileAt(world, turn, file)) else None
  }

  predicate LandsAt(world: World, turn: nat, file: Option<Record>, etag: Option<Record>) {
    world(turn).fault != Dropped && FileAt(world, turn, file) == etag
  }

  /** From some call on nothing fails, nobody interferes and no signal comes. */
  ghost predicate Calm(world: World, from: nat) {
    forall t: nat :: from <= t ==> world(t).fault == Fine && world(t).others.None? && !world(t).signal
  }

  /** The same for so many calls. */
  predicate CalmFor(world: World, from: nat, calls: nat) {
    forall t: nat :: from <= t < from + calls ==> world(t).fault == Fine && world(t).others.None? && !world(t).signal
  }

  /** And calls take no time and inquiries are answered by yes. */
  ghost predicate Still(world: World, from: nat) {
    Calm(world, from) && forall t: nat :: from <= t ==> world(t).takes == 0 && world(t).yes
  }

  lemma StillAnswers(world: World, turn: nat, file: Option<Record>)
    ensures Still(world, turn) ==> ReadAt(world, turn, file) == Some(file) && LandsAt(world, turn, file, file)
    ensures Still(world, turn) ==> world(turn).fault == Fine && world(turn).takes == 0
  {
  }

  lemma StillIsCalm(world: World, turn: nat)
    ensures Still(world, turn) ==> Calm(world, turn)
  {
  }

  lemma CalmLater(world: World, from: nat)
    ensures Calm(world, from) ==> forall later :: from <= later ==> Calm(world, later)
  {
  }

  lemma StillLater(world: World, from: nat, later: nat)
    requires from <= later
    ensures Still(world, from) ==> Still(world, later)
  {
  }

  /** The last call failed. */
  predicate JustFailed(world: World, turn: nat) {
    turn > 0 && world(turn - 1).fault != Fine
  }

  lemma LastFailed(world: World, turn: nat)
    requires turn > 0 && world(turn - 1).fault != Fine
    ensures JustFailed(world, turn)
  {
  }

  predicate JustSignalled(world: World, turn: nat) {
    turn > 0 && world(turn - 1).signal
  }

  /** A compare-and-swap register. `seen` and `landed` record this session's successful reads, with
      the time after each, and those of its writes that took effect, with the time before each. */
  class Backend {
    const world: World
    var file: Option<Record>
    var now: int
    var turn: nat
    ghost var seen: seq<Sighting>
    ghost var landed: seq<Landing>
    ghost var inquired: seq<bool>

    constructor (world: World, file: Option<Record>, now: int)
      ensures this.world == world && this.file == file && this.now == now && turn == 0 && seen == [] && landed == [] && inquired == []
    {
      this.world, this.file, this.now, turn, seen, landed, inquired := world, file, now, 0, [], [], [];
    }

    method Pass() returns (w: Weather)
      modifies this`file, this`now, this`turn
      ensures w == world(old(turn)) && turn == old(turn) + 1 && now == old(now) + w.takes
      ensures file == FileAt(world, old(turn), old(file))
    {
      w := world(turn);
      turn, now, file := turn + 1, now + w.takes, w.others.GetOr(file);
    }

    method Read() returns (found: Option<Option<Record>>)
      modifies this`file, this`now, this`turn, this`seen
      ensures turn == old(turn) + 1 && now == old(now) + world(old(turn)).takes
      ensures file == FileAt(world, old(turn), old(file)) && found == ReadAt(world, old(turn), old(file))
      ensures found.Some? ==> found.value == file && seen == old(seen) + [Sighting(file, now)]
      ensures found.None? ==> seen == old(seen)
    {
      var w := Pass();
      if w.fault != Fine { return None; }
      seen := seen + [Sighting(file, now)];
      found := Some(file);
    }

    /** Whether the destination is empty, if that can be found out. */
    method Inquire() returns (empty: Option<bool>)
      modifies this`file, this`now, this`turn, this`inquired
      ensures turn == old(turn) + 1 && now == old(now) + world(old(turn)).takes
      ensures file == FileAt(world, old(turn), old(file))
      ensures empty == if world(old(turn)).fault == Fine then Some(world(old(turn)).yes) else None
      ensures old(inquired) <= inquired && (empty == Some(true) ==> true in inquired)
    {
      var w := Pass();
      if w.fault != Fine { return None; }
      inquired := inquired + [w.yes];
      empty := Some(w.yes);
    }

    /** Waits for an instant, unless a signal comes first. */
    method Sleep(until: int) returns (signal: bool)
      modifies this`file, this`now, this`turn
      ensures now == if signal then old(now) + world(old(turn)).takes else Max(old(now) + world(old(turn)).takes, until)
      ensures turn == old(turn) + 1 && signal == world(old(turn)).signal && file == FileAt(world, old(turn), old(file))
    {
      var w := Pass();
      if !w.signal { now := Max(now, until); }
      signal := w.signal;
    }

    /** `If-Match`, or `If-None-Match: *` when no file was seen. */
    method Write(candidate: Record, etag: Option<Record>) returns (ok: bool)
      modifies this`file, this`now, this`turn, this`landed
      ensures turn == old(turn) + 1 && now == old(now) + world(old(turn)).takes
      ensures ok <==> LandsAt(world, old(turn), old(file), etag) && world(old(turn)).fault == Fine
      ensures if LandsAt(world, old(turn), old(file), etag)
              then landed == old(landed) + [Landing(etag, candidate, old(now))] && file == Some(candidate)
              else landed == old(landed) && file == FileAt(world, old(turn), old(file))
    {
      ghost var at := now;
      var w := Pass();
      if w.fault == Dropped || file != etag { return false; }
      file, landed := Some(candidate), landed + [Landing(file, candidate, at)];
      ok := w.fault == Fine;
    }
  }

  // ---------------------------------------------------------------- one guarded update

  /** What one guarded update is told: the first read (None: it failed), the time just before the
      write, whether the write reported success, and the verifying read. */
  datatype Script = Script(found: Option<Option<Record>>, issued: int, wrote: bool, verified: Option<Option<Record>>)

  /** What the calls of one guarded update will answer. */
  function Foretold(world: World, turn: nat, file: Option<Record>, now: int, view: View, owner: Owner, timeout: nat,
                    previous: Record, candidate: Record): Script
  {
    var found, issued := ReadAt(world, turn, file), now + world(turn).takes;
    var plan := if found.Some? then PlanWrite(view, owner, previous, candidate, found.value, timeout, issued) else Refuse;
    if plan.Write? && LandsAt(world, turn + 1, found.value, found.value) && world(turn + 1).fault == Fine
    then Script(found, issued, true, ReadAt(world, turn + 2, Some(plan.candidate)))
    else Script(found, issued, false, None)
  }

  /** `Gone` is the loss of ownership; `Broken` is any other error. */
  datatype Report = Done | Gone | Broken

  /** The view and the report that follow from it. */
  function Replaced(view: View, owner: Owner, timeout: nat, previous: Record, candidate: Record, s: Script): (View, Report) {
    if s.found.None? then (view, Broken)
    else
      var plan := PlanWrite(view, owner, previous, candidate, s.found.value, timeout, s.issued);
      var remembered := Remember(view, plan);
      if plan.Refuse? then (remembered, Gone)
      else Concluded(remembered, owner, s.found.value.GetOr(previous), s.wrote, s.verified)
  }

  /** The part from the write on, of the update that is pending. */
  function Concluded(view: View, owner: Owner, latest: Record, wrote: bool, verified: Option<Option<Record>>): (View, Report) {
    if !wrote || verified.None? || view.pending.None? then (view, Broken)
    else
      var verdict := Judge(owner, view.pending.value, latest, verified.value);
      (Settle(view, verdict, view.pending.value, view.pendingExpiry),
       match verdict case Adopted => Done case Unchanged => Broken case Lost => Gone)
  }

  /** Success: the file held the previous or the pending record, owned by this session, and then the
      candidate, which differs at most in keeping the lock of an adopted pending record. */
  lemma ReplaceMeaning(view: View, owner: Owner, timeout: nat, previous: Record, candidate: Record, s: Script)
    ensures var (after, report) := Replaced(view, owner, timeout, previous, candidate, s);
            && (!report.Done? ==> after.remote == view.remote && after.lockExpiry == view.lockExpiry)
            && (report.Gone? ==> after.pending.None?)
    ensures var (after, report) := Replaced(view, owner, timeout, previous, candidate, s);
            report.Done? ==>
              && s.wrote && s.found.Some? && s.verified == Some(Some(after.remote)) && after.pending.None?
              && OwnedBy(s.found.value, owner) && s.found.value in {Some(previous), view.pending}
              && SameCore(after.remote, candidate)
              && (after.remote.lock == candidate.lock ||
                  (candidate.lock == previous.lock && s.found.value == view.pending && after.remote.lock == view.pending.value.lock))
  {
  }

  /** The failures. Nothing is known after a failed read; an update of a file that is not the session's
      own, or not a record it knows, is refused. The outcome of a write is open if it failed, if its
      verifying read failed, or if that still shows the record from before: then the written record
      stays pending for a retry. Any other record in its place means that the lock is lost. */
  lemma ReplaceFailure(view: View, owner: Owner, timeout: nat, previous: Record, candidate: Record, s: Script)
    ensures s.found.None? ==> Replaced(view, owner, timeout, previous, candidate, s) == (view, Broken)
    ensures s.found.Some? && !(OwnedBy(s.found.value, owner) && s.found.value in {Some(previous), view.pending}) ==>
              Replaced(view, owner, timeout, previous, candidate, s) == (view.(pending := None, pendingExpiry := None), Gone)
    ensures s.found.Some? && OwnedBy(s.found.value, owner) && s.found.value in {Some(previous), view.pending} ==>
              var plan := PlanWrite(view, owner, previous, candidate, s.found.value, timeout, s.issued);
              var (after, report) := Replaced(view, owner, timeout, previous, candidate, s);
              && plan.Write? && SameCore(plan.candidate, candidate)
              && (!s.wrote || s.verified.None? || (s.verified == s.found != Some(Some(plan.candidate))) ==>
                    report.Broken? && after == view.(pending := Some(plan.candidate), pendingExpiry := plan.expires))
              && (s.wrote && s.verified.Some? && s.verified.value !in {s.found.value, Some(plan.candidate)} ==>
                    report.Gone? && after == view.(pending := None, pendingExpiry := None))
              && (s.wrote && s.verified == Some(Some(plan.candidate)) ==>
                    if plan.candidate.lock.None? || OwnedBy(Some(plan.candidate), owner)
                    then report.Done? && after == StateFile.View(plan.candidate, plan.expires, None, None)
                    else report.Gone? && after == view.(pending := None, pendingExpiry := None))
  {
  }

  /** A lock that was already in the file keeps the expiry noted with it; a new one expires its TTL
      after the instant before the write; no lock has none. */
  lemma ReplaceExpiry(view: View, owner: Owner, timeout: nat, previous: Record, candidate: Record, s: Script)
    ensures var (after, report) := Replaced(view, owner, timeout, previous, candidate, s);
            report.Done? ==>
              var lock, found := after.remote.lock, s.found.value.value;
              if lock.None? then after.lockExpiry == None
              else if lock != found.lock then after.lockExpiry == Some(s.issued + Ttl(lock, timeout))
              else after.lockExpiry == if view.pending == Some(found) then view.pendingExpiry else view.lockExpiry
  {
  }

  /** Whatever is written carries the candidate's own state. */
  lemma PlanKeepsCore(view: View, owner: Owner, timeout: nat, previous: Record, candidate: Record, found: Option<Record>, at: int)
    ensures var plan := PlanWrite(view, owner, previous, candidate, found, timeout, at);
            plan.Write? ==> SameCore(plan.candidate, candidate) && OwnedBy(found, owner)
  {
  }

  /** Undisturbed, an update succeeds with the candidate itself. */
  lemma CalmUpdate(world: World, turn: nat, now: int, view: View, owner: Owner, timeout: nat, previous: Record, candidate: Record)
    requires CalmFor(world, turn, 3) && OwnedBy(Some(previous), owner)
    requires candidate.lock.None? || candidate.lock.value.owner == owner
    ensures var s := Foretold(world, turn, Some(previous), now, view, owner, timeout, previous, candidate);
            var (after, report) := Replaced(view, owner, timeout, previous, candidate, s);
            report.Done? && after.remote == candidate
  {
    assert world(turn).fault == Fine && world(turn + 1).fault == Fine && world(turn + 2).fault == Fine;
  }

  datatype Config = Config(client: nat, owner: Owner, timeout: nat, persistent: bool, failOnIncomplete: bool,
                           force: bool, freshRepo: nat)

  // ---------------------------------------------------------------- acquisition

  const POLL_INTERVAL: nat := 1_000_000_000

  /** How long to wait for another's lock; by default, for its TTL as long as it is not refreshed. */
  datatype LockWait = LockWait(explicit: bool, infinite: bool, duration: nat)

  datatype Acquisition =
    | Acquired
    | Objected(objection: Objection)
    | Unreadable
    | Busy
    | TimedOut
    | RefreshedWhileWaiting
    | Interrupted
    | Unwritable
    | Changed
    | Unverified
    | OwnershipGone
    | GaveUp

  predicate IsDefault(wait: LockWait) {
    !wait.explicit && !wait.infinite && wait.duration == 0
  }

  predicate CanWait(wait: LockWait) {
    IsDefault(wait) || wait.infinite || wait.duration > 0
  }

  /** Only an explicit zero forbids waiting; what is not explicit waits by default, if it sets neither
      a duration nor an unlimited wait. */
  lemma WaitKinds(wait: LockWait)
    ensures !CanWait(wait) <==> wait.explicit && !wait.infinite && wait.duration == 0
    ensures wait.explicit || wait.infinite || wait.duration > 0 <==> !IsDefault(wait)
    ensures IsDefault(wait) ==> CanWait(wait) && Bounds(wait, None)
  {
  }

  /** The deadline that a wait sets. */
  predicate Bounds(wait: LockWait, deadline: Option<int>) {
    deadline.Some? <==> !wait.infinite && wait.duration > 0
  }

  /** Enough waiting for a lock that stays as it is until then. */
  predicate Patient(wait: LockWait, deadline: Option<int>, until: int, now: int, budget: nat) {
    && CanWait(wait)
    && (deadline.Some? ==> until <= deadline.value)
    && (wait.infinite ==> until - now <= budget * POLL_INTERVAL)
  }

  /** The first of these instants. */
  function Earliest(poll: int, expires: int, deadline: Option<int>): (first: int)
    ensures first <= poll && first <= expires && (deadline.Some? ==> first <= deadline.value)
    ensures first in {poll, expires} || Some(first) == deadline
  {
    Min(Min(poll, expires), if deadline.Some? then deadline.value else poll)
  }

  /** A write takes effect, whatever it reports, and is read back before the deadline of its lock. */
  predicate Visible(world: World, turn: nat, file: Option<Record>, found: Option<Record>, now: int, timeout: nat) {
    && LandsAt(world, turn, file, found) && world(turn + 1).fault == Fine && world(turn + 1).others.None?
    && now + world(turn).takes + world(turn + 1).takes < RefreshDeadline(now + timeout, timeout)
  }

  lemma VisibleAnswers(world: World, turn: nat, file: Option<Record>, found: Option<Record>, now: int, timeout: nat, candidate: Record)
    ensures Visible(world, turn, file, found, now, timeout) ==>
              LandsAt(world, turn, file, found) && ReadAt(world, turn + 1, Some(candidate)) == Some(Some(candidate)) &&
              now + world(turn).takes + world(turn + 1).takes < RefreshDeadline(now + timeout, timeout)
  {
  }

  /** A verifying read fails while there is time, and nothing but time keeps the next one from success. */
  predicate ReadsAgain(world: World, turn: nat, begun: int, deadline: int) {
    world(turn).fault != Fine && begun + world(turn).takes < deadline && !world(turn + 1).signal && world(turn + 2).fault == Fine
  }

  /** The next one comes a poll interval later, or at the deadline. */
  function ReadAgainAt(world: World, turn: nat, begun: int, deadline: int): int {
    var failed := begun + world(turn).takes;
    Max(failed + world(turn + 1).takes, Min(failed + POLL_INTERVAL, deadline)) + world(turn + 2).takes
  }

  /** When the read after the sleep is over. */
  predicate Woke(world: World, turn: nat, begun: int, expires: int, deadline: Option<int>, now: int) {
    now == Max(begun + world(turn).takes, Earliest(begun + POLL_INTERVAL, expires, deadline)) + world(turn + 1).takes
  }

  /** By default a wait notes one lock only. */
  function Rank(noted: Option<Lock>, lock: Option<Lock>): nat {
    if noted.None? then 2 else if noted == lock then 1 else 0
  }

  function LockOf(found: Option<Record>): Option<Lock> {
    if found.Some? then found.value.lock else None
  }

  predicate LastSeen(seen: seq<Sighting>, found: Option<Record>) {
    |seen| > 0 && seen[|seen| - 1].found == found
  }

  predicate SeenWith(s: Sighting, lock: Lock) {
    LockOf(s.found) == Some(lock)
  }

  /** The noted lock was in the file by the time noted with it. */
  ghost predicate Noted(seen: seq<Sighting>, noted: Option<Lock>, notedAt: int) {
    noted.Some? ==> exists j :: 0 <= j < |seen| && SeenWith(seen[j], noted.value) && seen[j].at <= notedAt
  }

  /** This very lock was in the file a whole TTL before. */
  ghost predicate Watched(seen: seq<Sighting>, lock: Lock, timeout: nat, at: int) {
    exists j :: 0 <= j < |seen| && SeenWith(seen[j], lock) && seen[j].at + Ttl(Some(lock), timeout) <= at
  }

  predicate SameRepository(local: Option<Local>, found: Option<Record>) {
    local.Some? && found.Some? ==> local.value.repo == found.value.repo
  }

  predicate Allowed(config: Config, local: Option<Local>, inquired: seq<bool>, found: Option<Record>) {
    SameRepository(local, found) && ValidateAcquisition(local, found, config.failOnIncomplete, true) == None &&
    (found.None? ==> config.force || true in inquired)
  }

  /** A write of an acquisition: on a record of the session's own repository that was validated,
      changing only the lock, and over another lock only after watching it for its TTL. */
  ghost predicate Justified(config: Config, local: Option<Local>, inquired: seq<bool>, seen: seq<Sighting>, l: Landing) {
    && Allowed(config, local, inquired, l.from)
    && OwnedBy(Some(l.to), config.owner)
    && l.to == AcquisitionCandidate(local, l.from, config.freshRepo, l.to.lock.value)
    && (LockOf(l.from).Some? ==> Watched(seen, LockOf(l.from).value, config.timeout, l.at))
  }

  ghost predicate AllJustified(config: Config, local: Option<Local>, inquired: seq<bool>, seen: seq<Sighting>,
                               landed: seq<Landing>, before: seq<Landing>) {
    before <= landed && forall k :: |before| <= k < |landed| ==> Justified(config, local, inquired, seen, landed[k])
  }

  lemma StillWatched(seen: seq<Sighting>, noted: Option<Lock>, notedAt: int)
    requires Noted(seen, noted, notedAt) && noted.Some?
    ensures forall timeout: nat, at :: notedAt + Ttl(noted, timeout) <= at ==> Watched(seen, noted.value, timeout, at)
  {
  }

  lemma NotedNow(seen: seq<Sighting>, found: Option<Record>, at: int)
    requires LastSeen(seen, found) && seen[|seen| - 1].at <= at
    ensures Noted(seen, LockOf(found), at)
  {
    if LockOf(found).Some? { assert SeenWith(seen[|seen| - 1], LockOf(found).value); }
  }

  lemma NotedGrows(before: seq<Sighting>, seen: seq<Sighting>, noted: Option<Lock>, notedAt: int)
    requires before <= seen && Noted(before, noted, notedAt)
    ensures Noted(seen, noted, notedAt)
  {
    if noted.Some? {
      var j :| 0 <= j < |before| && SeenWith(before[j], noted.value) && before[j].at <= notedAt;
      assert SeenWith(seen[j], noted.value);
    }
  }

  lemma WatchedGrows(before: seq<Sighting>, seen: seq<Sighting>, lock: Lock, timeout: nat, at: int)
    requires before <= seen && Watched(before, lock, timeout, at)
    ensures Watched(seen, lock, timeout, at)
  {
    var j :| 0 <= j < |before| && SeenWith(before[j], lock) && before[j].at + Ttl(Some(lock), timeout) <= at;
    assert SeenWith(seen[j], lock);
  }

  lemma NothingLanded(config: Config, local: Option<Local>, inquired: seq<bool>, seen: seq<Sighting>, landed: seq<Landing>)
    ensures AllJustified(config, local, inquired, seen, landed, landed) && Noted(seen, None, 0)
  {
  }

  lemma JustifiedGrows(config: Config, local: Option<Local>, asked: seq<bool>, inquired: seq<bool>, before: seq<Sighting>,
                       seen: seq<Sighting>, landed: seq<Landing>, start: seq<Landing>)
    requires asked <= inquired && before <= seen && AllJustified(config, local, asked, before, landed, start)
    ensures AllJustified(config, local, inquired, seen, landed, start)
  {
    forall k | |start| <= k < |landed| ensures Justified(config, local, inquired, seen, landed[k]) {
      assert Justified(config, local, asked, before, landed[k]);
      if LockOf(landed[k].from).Some? {
        WatchedGrows(before, seen, LockOf(landed[k].from).value, config.timeout, landed[k].at);
      }
    }
  }

  lemma JustifiedJoins(config: Config, local: Option<Local>, inquired: seq<bool>, seen: seq<Sighting>,
                       landed: seq<Landing>, middle: seq<Landing>, start: seq<Landing>)
    requires AllJustified(config, local, inquired, seen, landed, middle) && AllJustified(config, local, inquired, seen, middle, start)
    ensures AllJustified(config, local, inquired, seen, landed, start)
  {
  }

  class Session {
    const config: Config
    const backend: Backend
    var remote: Record
    var lockExpiry: Option<int>
    var pending: Option<Record>
    var pendingExpiry: Option<int>
    var local: Option<Local>
    var stamps: nat
    var serials: nat
    ghost var changed: seq<Record>    // the verified record under which each change of the remote payload ran
    ghost var fetched: seq<Record>    // the same for downloads

    ghost function View(): View
      reads this
    {
      StateFile.View(remote, lockExpiry, pending, pendingExpiry)
    }

    /** Nothing will fail or interfere, and the file is the session's own base. */
    ghost predicate Undisturbed()
      reads this, backend
    {
      Calm(backend.world, backend.turn) && backend.file == Some(remote) && OwnedBy(Some(remote), config.owner)
    }

    constructor (config: Config, backend: Backend, local: Option<Local>, stamps: nat, serials: nat)
      ensures this.config == config && this.backend == backend && this.local == local
      ensures pending == None && changed == [] && fetched == []
    {
      this.config, this.backend, this.local, this.stamps, this.serials := config, backend, local, stamps, serials;
      remote, lockExpiry, pending, pendingExpiry := Record(0, 0, NoId, false, None), None, None, None;
      changed, fetched := [], [];
    }

    method NewLock() returns (lock: Lock)
      modifies this`stamps
      ensures lock == Lock(config.owner, old(stamps) + 1, config.timeout) && stamps == old(stamps) + 1
    {
      stamps := stamps + 1;
      lock := Lock(config.owner, stamps, config.timeout);
    }

    method NewId() returns (id: SyncId)
      modifies this`serials
      ensures id == Id(config.client, old(serials) + 1) && serials == old(serials) + 1
    {
      serials := serials + 1;
      id := Id(config.client, serials);
    }

    method Forget()
      modifies this`pending, this`pendingExpiry
      ensures pending == None && pendingExpiry == None
    {
      pending, pendingExpiry := None, None;
    }

    /** `replaceOwnedRemote`. At most one write takes effect, on the very record the first read found. */
    method ReplaceOwnedRemote(previous: Record, candidate: Record) returns (report: Report, ghost script: Script)
      modifies this`remote, this`lockExpiry, this`pending, this`pendingExpiry, backend
      ensures (View(), report) == Replaced(old(View()), config.owner, config.timeout, previous, candidate, script)
      ensures script == Foretold(backend.world, old(backend.turn), old(backend.file), old(backend.now), old(View()),
                                 config.owner, config.timeout, previous, candidate)
      ensures old(backend.now) <= script.issued <= backend.now && old(backend.turn) < backend.turn
      ensures report.Done? ==>
                LastSeen(backend.seen, Some(remote)) && backend.file == Some(remote) && backend.turn == old(backend.turn) + 3
      ensures script.wrote ==> backend.landed != old(backend.landed)
      ensures backend.landed != old(backend.landed) ==>
                (script.found.Some? &&
                 var plan := PlanWrite(old(View()), config.owner, previous, candidate, script.found.value, config.timeout, script.issued);
                 plan.Write? && backend.landed == old(backend.landed) + [Landing(script.found.value, plan.candidate, script.issued)])
    {
      hide Concluded, LandsAt, ReadAt, OwnedBy;
      var found := backend.Read();
      script := Script(found, backend.now, false, None);
      if found.None? { return Broken, script; }
      var latest := found.value;
      var isPrevious := latest == Some(previous);
      var isPending := pending.Some? && latest == pending;
      if !OwnedBy(latest, config.owner) || (!isPrevious && !isPending) {
        Forget();
        return Gone, script;
      }
      var chosen, expires := candidate, lockExpiry;
      if isPending {
        expires := pendingExpiry;
        if chosen.lock == previous.lock { chosen := chosen.(lock := latest.value.lock); }
      }
      var writtenAt := backend.now;
      if chosen.lock.None? {
        expires := None;
      } else if chosen.lock != latest.value.lock {
        expires := Some(writtenAt + Ttl(chosen.lock, config.timeout));
      }
      pending, pendingExpiry := Some(chosen), expires;
      ghost var wrote, verified;
      report, wrote, verified := WritePending(latest.value, chosen);
      script := Script(found, writtenAt, wrote, verified);
    }

    /** The rest of `replaceOwnedRemote`: write what is pending, read it back and judge. */
    method WritePending(latest: Record, chosen: Record) returns (report: Report, ghost wrote: bool, ghost verified: Option<Option<Record>>)
      requires pending == Some(chosen)
      modifies this`remote, this`lockExpiry, this`pending, this`pendingExpiry, backend
      ensures (View(), report) == Concluded(old(View()), config.owner, latest, wrote, verified)
      ensures wrote <==> LandsAt(backend.world, old(backend.turn), old(backend.file), Some(latest)) &&
                         backend.world(old(backend.turn)).fault == Fine
      ensures verified == if wrote then ReadAt(backend.world, old(backend.turn) + 1, Some(chosen)) else None
      ensures old(backend.now) <= backend.now && old(backend.turn) < backend.turn
      ensures report.Done? ==>
                LastSeen(backend.seen, Some(remote)) && backend.file == Some(remote) && backend.turn == old(backend.turn) + 2
      ensures !wrote || verified.None? || (verified == Some(Some(latest)) && latest != chosen) ==>
                report.Broken? && View() == old(View())
      ensures wrote && verified.Some? && verified.value !in {Some(latest), Some(chosen)} ==>
                report.Gone? && View() == old(View()).(pending := None, pendingExpiry := None)
      ensures wrote ==> backend.landed != old(backend.landed)
      ensures backend.landed in {old(backend.landed), old(backend.landed) + [Landing(Some(latest), chosen, old(backend.now))]}
    {
      var expires := pendingExpiry;
      var ok := backend.Write(chosen, Some(latest));
      wrote, verified := ok, None;
      if !ok { return Broken, wrote, verified; }
      var read := backend.Read();
      verified := read;
      if read.None? { return Broken, wrote, verified; }
      if read.value != Some(chosen) {
        if read.value == Some(latest) { return Broken, wrote, verified; }
        Forget();
        return Gone, wrote, verified;
      }
      if chosen.lock.Some? && !OwnedBy(read.value, config.owner) {
        Forget();
        return Gone, wrote, verified;
      }
      Forget();
      remote, lockExpiry := chosen, expires;
      report := Done;
    }

    // -------------------------------------------------------------- local state and payload commands

    method WriteLocal(state: Local) returns (ok: bool)
      modifies this`local, backend
      ensures local == if backend.world(old(backend.turn)).fault == Dropped then old(local) else Some(state)
      ensures ok <==> backend.world(old(backend.turn)).fault == Fine
      ensures backend.turn == old(backend.turn) + 1 && backend.file == FileAt(backend.world, old(backend.turn), old(backend.file))
      ensures backend.landed == old(backend.landed)
    {
      var w := backend.Pass();
      if w.fault != Dropped { local := Some(state); }
      ok := w.fault == Fine;
    }

    /** Uploading, or clearing the untracked payload. */
    method ChangeRemotePayload() returns (ok: bool)
      modifies this`changed, backend
      ensures changed == old(changed) + [remote] && (ok <==> backend.world(old(backend.turn)).fault == Fine)
      ensures backend.turn == old(backend.turn) + 1 && backend.file == FileAt(backend.world, old(backend.turn), old(backend.file))
      ensures backend.landed == old(backend.landed)
    {
      var w := backend.Pass();
      changed := changed + [remote];
      ok := w.fault == Fine;
    }

    method FetchPayload() returns (ok: bool)
      modifies this`fetched, backend
      ensures fetched == old(fetched) + [remote] && (ok <==> backend.world(old(backend.turn)).fault == Fine)
      ensures backend.turn == old(backend.turn) + 1 && backend.file == FileAt(backend.world, old(backend.turn), old(backend.file))
      ensures backend.landed == old(backend.landed)
    {
      var w := backend.Pass();
      fetched := fetched + [remote];
      ok := w.fault == Fine;
    }

    // -------------------------------------------------------------- the operations of a session

    /** One attempt of the refresh loop. */
    method Refresh() returns (report: Report, ghost told: Script)
      modifies this, backend
      ensures var candidate := Refreshed(old(remote), Lock(config.owner, old(stamps) + 1, config.timeout));
              (View(), report) == Replaced(old(View()), config.owner, config.timeout, old(remote), candidate, told)
      ensures SameCore(remote, old(remote)) && local == old(local) && changed == old(changed) && fetched == old(fetched)
      ensures var lock := Lock(config.owner, old(stamps) + 1, config.timeout);
              report.Done? && old(remote).lock != Some(lock) && old(pending).GetOr(old(remote)).lock != Some(lock) ==>
                && remote.lock == Some(lock) && lockExpiry.Some?
                && old(backend.now) + config.timeout <= lockExpiry.value <= backend.now + config.timeout
      ensures !report.Done? ==> remote == old(remote) && lockExpiry == old(lockExpiry)
      ensures old(Undisturbed()) ==> report.Done? && Undisturbed()
    {
      var lock := NewLock();
      ghost var view := View();
      if Undisturbed() {
        CalmUpdate(backend.world, backend.turn, backend.now, view, config.owner, config.timeout, remote, Refreshed(remote, lock));
      }
      report, told := ReplaceOwnedRemote(remote, Refreshed(remote, lock));
      ReplaceMeaning(view, config.owner, config.timeout, view.remote, Refreshed(view.remote, lock), told);
      ReplaceExpiry(view, config.owner, config.timeout, view.remote, Refreshed(view.remote, lock), told);
    }

    /** The advance is durable before it can be published, and published before it returns. */
    method BeforeRemoteChange() returns (ok: bool, ghost id: SyncId, ghost told: Option<Script>)
      modifies this, backend
      ensures id == Id(config.client, old(serials) + 1)
      ensures told.None? ==> !ok && View() == old(View())
      ensures told.Some? ==>
                var (view, report) :=
                  Replaced(old(View()), config.owner, config.timeout, old(remote), Advanced(old(remote), id), told.value);
                View() == view && (ok <==> report.Done?) && local == Some(AdvancedLocal(old(remote), id))
      ensures ok ==> SameCore(remote, Advanced(old(remote), id)) && local == Some(AdvancedLocal(old(remote), id))
      ensures !ok ==> remote == old(remote) && local in {old(local), Some(AdvancedLocal(old(remote), id))}
      ensures ok ==> backend.turn == old(backend.turn) + 4
      ensures old(remote).generation in {0, MAX_GENERATION} ==>
                !ok && local == old(local) && backend.landed == old(backend.landed)
      ensures backend.landed == old(backend.landed) ||
              (local == Some(AdvancedLocal(old(remote), id)) && |backend.landed| == |old(backend.landed)| + 1 &&
               SameCore(backend.landed[|old(backend.landed)|].to, Advanced(old(remote), id)))
      ensures changed == old(changed) && fetched == old(fetched)
      ensures old(Undisturbed()) && 0 < old(remote).generation < MAX_GENERATION ==> ok && Undisturbed()
    {
      id, told := Id(config.client, serials + 1), None;
      if remote.generation == 0 || remote.generation == MAX_GENERATION { return false, id, told; }
      var next := remote.generation + 1;
      var syncId := NewId();
      ok := WriteLocal(Local(remote.repo, next, syncId, true, true));
      if !ok { return false, id, told; }
      var candidate := remote.(generation := next, syncId := syncId, syncing := true);
      var report;
      ghost var script;
      ghost var view := View();
      if Undisturbed() {
        CalmUpdate(backend.world, backend.turn, backend.now, view, config.owner, config.timeout, remote, candidate);
      }
      report, script := ReplaceOwnedRemote(remote, candidate);
      ReplaceMeaning(view, config.owner, config.timeout, view.remote, candidate, script);
      PlanKeepsCore(view, config.owner, config.timeout, view.remote, candidate, script.found.GetOr(None), script.issued);
      ok, told := report.Done?, Some(script);
    }

    /** The completion is verified before the local record says so. */
    method AfterRemoteChange() returns (ok: bool, ghost told: Script)
      modifies this, backend
      ensures var (view, report) := Replaced(old(View()), config.owner, config.timeout, old(remote), Completed(old(remote)), told);
              View() == view && (!report.Done? ==> !ok && local == old(local))
      ensures ok ==> SameCore(remote, Completed(old(remote))) && local == Some(RecordedLocal(remote))
      ensures remote == old(remote) || SameCore(remote, Completed(old(remote)))
      ensures local == old(local) || (SameCore(remote, Completed(old(remote))) && local == Some(RecordedLocal(remote)))
      ensures changed == old(changed) && fetched == old(fetched) && serials == old(serials)
      ensures old(Undisturbed()) ==> ok && Undisturbed()
    {
      var candidate := remote.(syncing := false);
      var report;
      ghost var view := View();
      if Undisturbed() {
        CalmUpdate(backend.world, backend.turn, backend.now, view, config.owner, config.timeout, remote, candidate);
      }
      report, told := ReplaceOwnedRemote(remote, candidate);
      ReplaceMeaning(view, config.owner, config.timeout, view.remote, candidate, told);
      if !report.Done? { return false, told; }
      ok := WriteLocal(Local(candidate.repo, candidate.generation, candidate.syncId, false, true));
    }

    /** Generation 1 is published only after a whole upload, and recorded only once it is verified. */
    method InitializeRemote() returns (ok: bool)
      modifies this, backend
      ensures ok && old(remote).generation == 0 ==>
                (SameCore(remote, Initialized(old(remote), Id(config.client, old(serials) + 1))) &&
                 local == Some(RecordedLocal(remote)) && changed == old(changed) + [old(remote), old(remote)])
      ensures local == old(local) || (remote.generation == 1 && local == Some(RecordedLocal(remote)))
      ensures old(remote).generation == 0 && View() != old(View()) ==>
                backend.world(old(backend.turn)).fault == Fine && backend.world(old(backend.turn) + 1).fault == Fine
      ensures old(remote).generation != 0 ==> ok && View() == old(View()) && local == old(local) && changed == old(changed)
      ensures old(changed) <= changed && (forall r :: r in changed[|old(changed)|..] ==> r == old(remote))
      ensures fetched == old(fetched)
      ensures old(Undisturbed()) ==> ok && Undisturbed()
      ensures CalmFor(backend.world, old(backend.turn), 5) && old(backend.file) == Some(old(remote)) &&
              OwnedBy(Some(old(remote)), config.owner) && old(remote).generation == 0 ==>
                RecordsLast(backend.world, old(backend.turn) + 5, old(local), old(remote), Id(config.client, old(serials) + 1), ok)
    {
      if remote.generation != 0 { return true; }
      ok := ChangeRemotePayload();
      if !ok { return; }
      ok := ChangeRemotePayload();
      if !ok { return; }
      ghost var told;
      ok, told := FinishInitialisation();
    }

    /** The end of the initialisation, after the upload. */
    method FinishInitialisation() returns (ok: bool, ghost told: Script)
      requires remote.generation == 0
      modifies this`remote, this`lockExpiry, this`pending, this`pendingExpiry, this`local, this`serials, backend
      ensures var candidate := Initialized(old(remote), Id(config.client, old(serials) + 1));
              var (view, report) := Replaced(old(View()), config.owner, config.timeout, old(remote), candidate, told);
              View() == view && (!report.Done? ==> !ok && local == old(local))
      ensures ok ==> SameCore(remote, Initialized(old(remote), Id(config.client, old(serials) + 1))) && local == Some(RecordedLocal(remote))
      ensures local == old(local) || (remote.generation == 1 && local == Some(RecordedLocal(remote)))
      ensures old(Undisturbed()) ==> ok && Undisturbed()
      ensures CalmFor(backend.world, old(backend.turn), 3) && old(backend.file) == Some(old(remote)) &&
              OwnedBy(Some(old(remote)), config.owner) ==>
                RecordsLast(backend.world, old(backend.turn) + 3, old(local), old(remote), Id(config.client, old(serials) + 1), ok)
    {
      var id := NewId();
      var candidate := remote.(generation := 1, syncId := id, syncing := false);
      var report;
      ghost var view := View();
      if CalmFor(backend.world, backend.turn, 3) && backend.file == Some(remote) && OwnedBy(Some(remote), config.owner) {
        CalmUpdate(backend.world, backend.turn, backend.now, view, config.owner, config.timeout, remote, candidate);
      }
      report, told := ReplaceOwnedRemote(remote, candidate);
      ReplaceMeaning(view, config.owner, config.timeout, view.remote, candidate, told);
      if !report.Done? { return false, told; }
      ok := WriteLocal(Local(candidate.repo, 1, candidate.syncId, false, true));
    }

    /** Once the remote is initialised, only the write of the local record is left to fail. */
    ghost predicate RecordsLast(world: World, last: nat, before: Option<Local>, acquired: Record, id: SyncId, ok: bool)
      reads this, backend
    {
      && SameCore(remote, Initialized(acquired, id)) && (ok <==> world(last).fault == Fine)
      && local == (if world(last).fault == Dropped then before else Some(RecordedLocal(remote)))
      && backend.file == FileAt(world, last, Some(remote))
    }

    method FinishSession() returns (ok: bool)
      modifies this`local, backend
      ensures ok ==> old(local).Some? && local == Some(old(local).value.(active := false))
      ensures local == old(local) || (old(local).Some? && local == Some(old(local).value.(active := false)))
      ensures backend.landed == old(backend.landed)
      ensures Calm(backend.world, old(backend.turn)) && old(local).Some? ==> ok
    {
      var w := backend.Pass();
      if w.fault != Fine || local.None? { return false; }
      ok := WriteLocal(local.value.(active := false));
    }

    /** A persistent lock is kept; any other is cleared, and nothing else of the file changes. */
    method Close() returns (ok: bool, ghost told: Option<Script>)
      modifies this, backend
      ensures told.None? <==> config.persistent
      ensures told.Some? ==>
                var (view, report) :=
                  Replaced(old(View()), config.owner, config.timeout, old(remote), Released(old(remote)), told.value);
                View() == view && (ok <==> report.Done?)
      ensures config.persistent ==> ok && View() == old(View()) && backend.landed == old(backend.landed)
      ensures !config.persistent && ok && old(remote).lock.Some? ==> remote == Released(old(remote)) && lockExpiry == None
      ensures local == old(local) && changed == old(changed) && fetched == old(fetched)
      ensures old(Undisturbed()) && !config.persistent ==> ok && backend.file == Some(Released(old(remote)))
    {
      if config.persistent { return true, None; }
      var candidate := remote.(lock := None);
      var report;
      ghost var script;
      ghost var view := View();
      if Undisturbed() {
        CalmUpdate(backend.world, backend.turn, backend.now, view, config.owner, config.timeout, remote, candidate);
      }
      report, script := ReplaceOwnedRemote(remote, candidate);
      ReplaceMeaning(view, config.owner, config.timeout, view.remote, candidate, script);
      ok, told := report.Done?, Some(script);
    }

    /** A recorded upload: the recovery of startup, and one batch of `syncer.Sync`. The payload is
        changed only under the verified incomplete record, and the completion is verified last. */
    method TrackedUpload() returns (ok: bool, ghost id: SyncId)
      modifies this, backend
      ensures id == Id(config.client, old(serials) + 1) && fetched == old(fetched)
      ensures changed == old(changed) ||
              (exists r :: changed == old(changed) + [r] && SameCore(r, Advanced(old(remote), id)))
      ensures ok ==> changed != old(changed) && SameCore(remote, Completed(Advanced(old(remote), id)))
      ensures SameCore(remote, Completed(Advanced(old(remote), id))) ==> backend.world(old(backend.turn) + 4).fault == Fine
      ensures ok ==> local == Some(RecordedLocal(remote))
      ensures local in {old(local), Some(AdvancedLocal(old(remote), id))} ||
              (local == Some(RecordedLocal(remote)) && SameCore(remote, Completed(Advanced(old(remote), id))))
      ensures old(Undisturbed()) && 0 < old(remote).generation < MAX_GENERATION ==> ok && Undisturbed()
    {
      ghost var before, after;
      ok, id, before := BeforeRemoteChange();
      if !ok { return; }
      ok := ChangeRemotePayload();
      if !ok { return; }
      ok, after := AfterRemoteChange();
    }

    /** The call that downloads: after the local record was read, and marked if there is one. */
    function FetchTurn(turn: nat, local: Option<Local>): nat {
      if local.Some? then turn + 2 else turn + 1
    }

    /** Startup: what each branch does, and that success leaves the two records in step. */
    method InitializeGeneration() returns (ok: bool)
      modifies this, backend
      ensures ok ==> local.Some? && local.value == RecordedLocal(remote).(repo := local.value.repo)
      ensures old(changed) <= changed && old(fetched) <= fetched
      ensures forall r :: r in changed[|old(changed)|..] ==> r.syncing || r.generation == 0
      ensures match StartupBranch(old(local), old(remote))
              case Initialize => fetched == old(fetched)
              case Download => changed == old(changed) && View() == old(View()) && (ok ==> fetched == old(fetched) + [remote])
              case Recover => fetched == old(fetched) && (ok ==> changed != old(changed) && remote.generation == old(remote).generation + 1)
              case Current => changed == old(changed) && fetched == old(fetched) && View() == old(View())
              case _ => !ok && changed == old(changed) && fetched == old(fetched) && View() == old(View())
      ensures StartupBranch(old(local), old(remote)) == Download && backend.world(FetchTurn(old(backend.turn), old(local))).fault != Fine ==>
                !ok && local in {old(local), MarkActive(old(local))}
      ensures local == old(local) || (local.Some? && local.value.active)
      ensures old(local).Some? && (changed != old(changed) || fetched != old(fetched) || View() != old(View())) ==>
                local.Some? && local.value.active
      ensures old(local).Some? && backend.world(old(backend.turn)).fault == Fine && backend.world(old(backend.turn) + 1).fault != Dropped ==>
                local.Some? && local.value.active
      ensures (old(Undisturbed()) && old(remote).generation < MAX_GENERATION &&
               StartupBranch(old(local), old(remote)) !in {Branch.Ahead, Branch.Ambiguous}) ==> ok && Undisturbed()
    {
      var w := backend.Pass();
      if w.fault != Fine { return false; }
      var found := local;
      if found.Some? {
        ok := WriteLocal(found.value.(active := true));
        if !ok { return; }
      }
      if remote.generation == 0 {
        ok := InitializeRemote();
        return;
      }
      if NeedsSyncFromRemote(found, remote) {
        ok := FetchPayload();
        if !ok { return; }
        ok := WriteLocal(Local(remote.repo, remote.generation, remote.syncId, remote.syncing, true));
        return;
      }
      var mine := found.value;
      var incompleteAdvance := mine.syncing && mine.generation == remote.generation + 1;
      if mine.generation > remote.generation && !incompleteAdvance { return false; }
      var incomplete := mine.syncing || remote.syncing;
      if incomplete || mine.active {
        if incomplete && mine.generation == remote.generation && mine.syncId == NoId { return false; }
        ghost var id;
        ok, id := TrackedUpload();
        return;
      }
      ok := true;
    }

    // -------------------------------------------------------------- acquisition

    method Validate(found: Option<Record>) returns (refusal: Option<Acquisition>)
      modifies backend`file, backend`now, backend`turn, backend`inquired
      ensures old(backend.now) <= backend.now && old(backend.inquired) <= backend.inquired
      ensures refusal.None? ==> Allowed(config, local, backend.inquired, found)
      ensures refusal.Some? && refusal.value.Objected? ==>
                ValidateAcquisition(local, found, config.failOnIncomplete, false) == Some(refusal.value.objection)
      ensures refusal.Some? ==> refusal.value.Objected? || refusal.value.Unreadable?
      ensures refusal == Some(Unreadable) ==> JustFailed(backend.world, backend.turn)
      ensures old(backend.turn) <= backend.turn
      ensures Still(backend.world, old(backend.turn)) ==> backend.file == old(backend.file) && backend.now == old(backend.now)
      ensures Still(backend.world, old(backend.turn)) && ValidateAcquisition(local, found, config.failOnIncomplete, true) == None ==>
                refusal.None?
      ensures found.Some? ==> refusal != Some(Unreadable) && backend.file == old(backend.file)
      ensures found.Some? || config.force ==> backend.turn == old(backend.turn) && backend.now == old(backend.now)
      ensures found.None? && !config.force ==>
                backend.turn == old(backend.turn) + 1 && backend.now == old(backend.now) + backend.world(old(backend.turn)).takes
      ensures found.Some? && ValidateAcquisition(local, found, config.failOnIncomplete, true).Some? ==>
                refusal == Some(Objected(ValidateAcquisition(local, found, config.failOnIncomplete, true).value))
      ensures !SameRepository(local, found) ==> refusal == Some(Objected(WrongRepository))
      ensures found.None? && !config.force && backend.world(old(backend.turn)).fault == Fine && !backend.world(old(backend.turn)).yes ==>
                refusal == Some(Objected(Untracked))
    {
      refusal := None;
      var both := local.Some? && found.Some?;
      if both && local.value.repo != found.value.repo { return Some(Objected(WrongRepository)); }
      if config.failOnIncomplete && found.Some? && found.value.syncing && NeedsSyncFromRemote(local, found.value) {
        return Some(Objected(IncompleteRemote));
      }
      if found.None? && !config.force {
        var empty := backend.Inquire();
        if empty.None? { return Some(Unreadable); }
        if !empty.value { return Some(Objected(Untracked)); }
      }
      var incompleteAdvance := both && local.value.syncing && local.value.generation == found.value.generation + 1;
      if both && found.value.generation > 0 && local.value.generation > found.value.generation && !incompleteAdvance {
        return Some(Objected(LocalAhead));
      }
    }

    /** The inner loop: until the lock is gone, or has been seen unchanged for its whole TTL. Only
        an unlimited wait can go on for ever, and uses up the budget. */
    method AwaitLock(wait: LockWait, deadline: Option<int>, start: Option<Record>, noted0: Option<Lock>, notedAt0: int, budget: nat)
        returns (stop: Option<Acquisition>, found: Option<Record>, noted: Option<Lock>, notedAt: int, left: nat)
      requires LastSeen(backend.seen, start) && Noted(backend.seen, noted0, notedAt0) && backend.seen[|backend.seen| - 1].at <= backend.now
      requires Bounds(wait, deadline)
      modifies backend`file, backend`now, backend`turn, backend`seen
      ensures old(backend.seen) <= backend.seen && left <= budget && old(backend.now) <= backend.now
      ensures LastSeen(backend.seen, found) && Noted(backend.seen, noted, notedAt)
      ensures stop.Some? ==>
                stop.value in {Busy, TimedOut, RefreshedWhileWaiting, Interrupted, Unreadable, GaveUp} &&
                Explained(stop.value, wait, deadline, old(backend.now))
      ensures stop.None? && LockOf(found).Some? ==>
                noted == LockOf(found) && notedAt + Ttl(noted, config.timeout) <= backend.now
      ensures old(backend.turn) <= backend.turn
      ensures LockOf(start).None? ==> stop.None? && found == start && unchanged(backend)
      ensures IsDefault(wait) && noted0.Some? ==> noted == noted0 && notedAt == notedAt0
      ensures stop == Some(GaveUp) ==> wait.infinite && left == 0
      ensures !wait.infinite ==> left == budget
      ensures Calm(backend.world, old(backend.turn)) && old(backend.file) == start && LockOf(start).Some? && noted0.None? &&
              Patient(wait, deadline, old(backend.now) + Ttl(LockOf(start), config.timeout), old(backend.now), budget) ==>
                stop.None? && found == start == backend.file
      ensures stop.None? || stop == Some(GaveUp) ==> |backend.seen| - |old(backend.seen)| >= budget - left
    {
      hide Noted, Calm, JustFailed, JustSignalled, LockOf;
      CalmLater(backend.world, backend.turn);
      stop, found, noted, notedAt, left := None, start, noted0, notedAt0, budget;
      var ripe := false;
      ghost var until := backend.now + Ttl(LockOf(start), config.timeout);
      ghost var calm := Calm(backend.world, backend.turn) && backend.file == start && noted0.None? &&
                        Patient(wait, deadline, until, backend.now, budget);
      while LockOf(found).Some? && stop.None? && !ripe
        invariant old(backend.seen) <= backend.seen && left <= budget && old(backend.now) <= backend.now
        invariant LastSeen(backend.seen, found) && Noted(backend.seen, noted, notedAt)
        invariant backend.seen[|backend.seen| - 1].at <= backend.now
        invariant old(backend.turn) <= backend.turn
        invariant stop.None? || stop == Some(GaveUp) ==> |backend.seen| - |old(backend.seen)| >= budget - left
        invariant stop.Some? ==> stop.value in {Busy, TimedOut, RefreshedWhileWaiting, Interrupted, Unreadable, GaveUp}
        invariant stop.Some? ==> Explained(stop.value, wait, deadline, old(backend.now))
        invariant stop == Some(GaveUp) ==> wait.infinite && left == 0
        invariant ripe ==> stop.None? && noted == LockOf(found) && notedAt + Ttl(noted, config.timeout) <= backend.now
        invariant LockOf(start).None? ==> stop.None? && !ripe && found == start && unchanged(backend)
        invariant IsDefault(wait) && noted0.Some? ==> noted == noted0 && notedAt == notedAt0
        invariant !wait.infinite ==> left == budget
        invariant calm ==> stop.None? && found == start == backend.file
        invariant calm ==> wait.infinite ==> until - backend.now <= left * POLL_INTERVAL
        invariant calm ==> if noted.None? then backend.now == old(backend.now) && !ripe
                           else noted == LockOf(start) && notedAt == old(backend.now)
        decreases stop.None? && !ripe, if IsDefault(wait) then Rank(noted, LockOf(found)) else 0,
                  if wait.infinite then left
                  else if deadline.Some? then deadline.value - backend.now
                  else notedAt + Ttl(noted, config.timeout) - backend.now
      {
        stop, ripe, found, noted, notedAt, left := WatchLock(wait, deadline, found, noted, notedAt, left);
      }
    }

    /** One round for a lock that is in the file: note it, and if its TTL has not passed since, look again. */
    method WatchLock(wait: LockWait, deadline: Option<int>, start: Option<Record>, noted0: Option<Lock>, notedAt0: int, budget: nat)
        returns (stop: Option<Acquisition>, ripe: bool, found: Option<Record>, noted: Option<Lock>, notedAt: int, left: nat)
      requires LastSeen(backend.seen, start) && Noted(backend.seen, noted0, notedAt0) && backend.seen[|backend.seen| - 1].at <= backend.now
      requires Bounds(wait, deadline) && LockOf(start).Some?
      modifies backend`file, backend`now, backend`turn, backend`seen
      ensures old(backend.seen) <= backend.seen && left <= budget && old(backend.now) <= backend.now && old(backend.turn) <= backend.turn
      ensures LastSeen(backend.seen, found) && Noted(backend.seen, noted, notedAt) && backend.seen[|backend.seen| - 1].at <= backend.now
      ensures stop.Some? ==> !ripe && Explained(stop.value, wait, deadline, old(backend.now)) &&
                             stop.value in {Busy, TimedOut, RefreshedWhileWaiting, Interrupted, Unreadable, GaveUp}
      ensures stop == Some(GaveUp) ==> wait.infinite && left == 0
      ensures !wait.infinite ==> left == budget
      ensures stop.None? || stop == Some(GaveUp) ==> |backend.seen| - |old(backend.seen)| >= budget - left
      ensures stop == Some(RefreshedWhileWaiting) <==> IsDefault(wait) && noted0.Some? && noted0 != LockOf(start)
      ensures IsDefault(wait) && noted0.Some? ==> noted == noted0 && notedAt == notedAt0
      ensures noted == LockOf(start) || stop == Some(RefreshedWhileWaiting)
      ensures stop.None? ==> notedAt == if noted0 == LockOf(start) then notedAt0 else old(backend.now)
      ensures stop.None? ==> (ripe <==> notedAt + Ttl(noted, config.timeout) <= old(backend.now))
      ensures ripe ==> found == start && unchanged(backend) && left == budget
      ensures stop.None? && !ripe ==>
                && CanWait(wait) && old(backend.now) < backend.now && (deadline.Some? ==> old(backend.now) < deadline.value)
                && (deadline.None? ==> Min(old(backend.now) + POLL_INTERVAL, notedAt + Ttl(noted, config.timeout)) <= backend.now)
                && (wait.infinite ==> left + 1 == budget)
                && (IsDefault(wait) ==> noted0 in {None, noted})
      ensures var since := if noted0 == LockOf(start) then notedAt0 else old(backend.now);
              Calm(backend.world, old(backend.turn)) && old(backend.file) == start && noted0 in {None, LockOf(start)} &&
              (old(backend.now) < since + Ttl(LockOf(start), config.timeout) ==>
                 CanWait(wait) && (deadline.Some? ==> old(backend.now) < deadline.value) && (wait.infinite ==> budget > 0)) ==>
                stop.None? && found == start == backend.file
    {
      hide Calm, JustFailed, JustSignalled, Woke, Noted, Earliest;
      stop, ripe, found, noted, notedAt, left := None, false, start, noted0, notedAt0, budget;
      if noted != LockOf(found) {
        if IsDefault(wait) && noted.Some? { stop := Some(RefreshedWhileWaiting); return; }
        noted, notedAt := LockOf(found), backend.now;
        NotedNow(backend.seen, found, notedAt);
      }
      var expires := notedAt + Ttl(noted, config.timeout);
      if backend.now >= expires { ripe := true; return; }
      if !CanWait(wait) { stop := Some(Busy); return; }
      if deadline.Some? && backend.now >= deadline.value { stop := Some(TimedOut); return; }
      if wait.infinite {
        if left == 0 { stop := Some(GaveUp); return; }
        left := left - 1;
      }
      ghost var seen := backend.seen;
      stop, found := SleepAndRead(expires, deadline, found);
      NotedGrows(seen, backend.seen, noted, notedAt);
    }

    /** One poll of the lock: after an interval, but at once when it expires or at the deadline. */
    method SleepAndRead(expires: int, deadline: Option<int>, last: Option<Record>) returns (stop: Option<Acquisition>, found: Option<Record>)
      requires LastSeen(backend.seen, last)
      modifies backend`file, backend`now, backend`turn, backend`seen
      ensures old(backend.seen) <= backend.seen && old(backend.now) <= backend.now && old(backend.turn) < backend.turn
      ensures LastSeen(backend.seen, found)
      ensures stop.None? ==>
                && Earliest(old(backend.now) + POLL_INTERVAL, expires, deadline) <= backend.now
                && backend.seen == old(backend.seen) + [Sighting(found, backend.now)]
                && Woke(backend.world, old(backend.turn), old(backend.now), expires, deadline, backend.now)
      ensures stop.Some? ==> backend.seen == old(backend.seen)
      ensures stop == Some(Unreadable) ==> JustFailed(backend.world, backend.turn)
      ensures stop == Some(Interrupted) ==> JustSignalled(backend.world, backend.turn)
      ensures stop in {None, Some(Unreadable), Some(Interrupted)}
      ensures Calm(backend.world, old(backend.turn)) ==> stop.None? && found == backend.file == old(backend.file)
    {
      stop, found := None, last;
      var wakeAt := backend.now + POLL_INTERVAL;
      if expires < wakeAt { wakeAt := expires; }
      if deadline.Some? && deadline.value < wakeAt { wakeAt := deadline.value; }
      var signal := backend.Sleep(wakeAt);
      if signal { return Some(Interrupted), found; }
      var read := backend.Read();
      if read.None? { return Some(Unreadable), found; }
      found := read.value;
    }

    /** Reads until one succeeds, the deadline passes or a signal comes. */
    method VerifyAcquired(deadline: int) returns (found: Option<Option<Record>>, signal: bool)
      modifies backend`file, backend`now, backend`turn, backend`seen
      ensures old(backend.seen) <= backend.seen && old(backend.now) <= backend.now
      ensures found.Some? ==> LastSeen(backend.seen, found.value) && backend.seen[|backend.seen| - 1].at == backend.now
      ensures found.None? && !signal ==> deadline <= backend.now
      ensures ReadAt(backend.world, old(backend.turn), old(backend.file)).Some? ==>
                found == ReadAt(backend.world, old(backend.turn), old(backend.file)) && !signal &&
                backend.now == old(backend.now) + backend.world(old(backend.turn)).takes
      ensures signal ==> JustSignalled(backend.world, backend.turn)
      ensures old(backend.turn) < backend.turn && (found.Some? ==> |old(backend.seen)| < |backend.seen|)
      ensures ReadsAgain(backend.world, old(backend.turn), old(backend.now), deadline) ==>
                found.Some? && !signal && backend.turn == old(backend.turn) + 3 &&
                backend.now == ReadAgainAt(backend.world, old(backend.turn), old(backend.now), deadline)
    {
      signal := false;
      found := backend.Read();
      ghost var first, at := found, backend.now;
      while found.None? && backend.now < deadline
        invariant first.Some? ==> found == first && backend.now == at && backend.turn == old(backend.turn) + 1
        invariant first.None? && backend.turn == old(backend.turn) + 1 ==> found.None? && backend.now == at
        invariant first.None? && ReadsAgain(backend.world, old(backend.turn), old(backend.now), deadline) ==>
                    backend.turn == old(backend.turn) + 1 ||
                    (found.Some? && backend.turn == old(backend.turn) + 3 &&
                     backend.now == ReadAgainAt(backend.world, old(backend.turn), old(backend.now), deadline))
        invariant old(backend.turn) < backend.turn && (found.Some? ==> |old(backend.seen)| < |backend.seen|)
        invariant old(backend.seen) <= backend.seen && old(backend.now) <= backend.now
        invariant found.Some? ==> LastSeen(backend.seen, found.value) && backend.seen[|backend.seen| - 1].at == backend.now
        decreases deadline - backend.now
      {
        signal := backend.Sleep(backend.now + Min(POLL_INTERVAL, deadline - backend.now));
        if signal { return; }
        found := backend.Read();
      }
    }

    /** The conditional write of an acquisition, and its verification under the watchdog. */
    method Bid(found: Option<Record>, noted: Option<Lock>, notedAt: int)
        returns (candidate: Record, ok: bool, current: Option<Option<Record>>, late: bool, issued: int)
      requires LastSeen(backend.seen, found) && Noted(backend.seen, noted, notedAt)
      requires LockOf(found).Some? ==> noted == LockOf(found) && notedAt + Ttl(noted, config.timeout) <= backend.now
      requires Allowed(config, local, backend.inquired, found)
      modifies this`stamps, backend`file, backend`now, backend`turn, backend`seen, backend`landed
      ensures candidate == AcquisitionCandidate(local, found, config.freshRepo, Lock(config.owner, old(stamps) + 1, config.timeout))
      ensures OwnedBy(Some(candidate), config.owner)
      ensures ok <==> LandsAt(backend.world, old(backend.turn), old(backend.file), found) && backend.world(old(backend.turn)).fault == Fine
      ensures issued == old(backend.now) <= backend.now && old(backend.turn) <= backend.turn
      ensures late <==> RefreshDeadline(issued + config.timeout, config.timeout) <= backend.now
      ensures old(backend.seen) <= backend.seen && Noted(backend.seen, noted, notedAt)
      ensures AllJustified(config, local, backend.inquired, backend.seen, backend.landed, old(backend.landed))
      ensures current.Some? ==> LastSeen(backend.seen, current.value) && backend.seen[|backend.seen| - 1].at == backend.now
      ensures current.Some? ==> |old(backend.seen)| < |backend.seen|
      ensures current.None? && !late ==> JustSignalled(backend.world, backend.turn)
      ensures Still(backend.world, old(backend.turn)) && old(backend.file) == found && SafetyWindow(config.timeout) < config.timeout ==>
                !late && current == Some(Some(candidate))
      ensures Visible(backend.world, old(backend.turn), old(backend.file), found, old(backend.now), config.timeout) ==>
                !late && current == Some(Some(candidate))
    {
      hide Still, Calm, ReadAt, LandsAt, ValidateAcquisition, Visible;
      var lock := NewLock();
      candidate := if found.Some? then found.value.(lock := Some(lock))
                   else Record(if local.Some? then local.value.repo else config.freshRepo, 0, NoId, false, Some(lock));
      issued := backend.now;
      StillAnswers(backend.world, backend.turn, found);
      StillLater(backend.world, backend.turn, backend.turn + 1);
      StillAnswers(backend.world, backend.turn + 1, Some(candidate));
      VisibleAnswers(backend.world, backend.turn, backend.file, found, issued, config.timeout, candidate);
      var verifyDeadline := RefreshDeadline(issued + config.timeout, config.timeout);
      ok := backend.Write(candidate, found);
      if noted.Some? { StillWatched(old(backend.seen), noted, notedAt); }
      var signal;
      current, signal := VerifyAcquired(verifyDeadline);
      NotedGrows(old(backend.seen), backend.seen, noted, notedAt);
      late := backend.now >= verifyDeadline;
    }

    /** One attempt to take the lock of the record just validated. `next` is what to go on with. */
    method TryAcquire(wait: LockWait, found: Option<Record>, noted: Option<Lock>, notedAt: int)
        returns (result: Option<Acquisition>, next: Option<Record>, issued: int)
      requires LastSeen(backend.seen, found) && Noted(backend.seen, noted, notedAt)
      requires LockOf(found).Some? ==> noted == LockOf(found) && notedAt + Ttl(noted, config.timeout) <= backend.now
      requires Allowed(config, local, backend.inquired, found)
      modifies this`remote, this`lockExpiry, this`stamps, backend`file, backend`now, backend`turn, backend`seen, backend`landed
      ensures old(backend.seen) <= backend.seen && Noted(backend.seen, noted, notedAt) && old(backend.now) <= backend.now
      ensures AllJustified(config, local, backend.inquired, backend.seen, backend.landed, old(backend.landed))
      ensures result.None? ==> LastSeen(backend.seen, next) && backend.seen[|backend.seen| - 1].at <= backend.now
      ensures result == Some(Acquired) ==>
                && remote == AcquisitionCandidate(local, found, config.freshRepo, Lock(config.owner, old(stamps) + 1, config.timeout))
                && LastSeen(backend.seen, Some(remote)) && OwnedBy(Some(remote), config.owner)
                && old(backend.now) <= issued && lockExpiry == Some(issued + config.timeout)
                && backend.now < RefreshDeadline(issued + config.timeout, config.timeout)
      ensures result != Some(Acquired) ==> remote == old(remote) && lockExpiry == old(lockExpiry)
      ensures result.Some? ==>
                result.value in {Acquired, Unverified, Interrupted, Unwritable, RefreshedWhileWaiting, OwnershipGone, Changed}
      ensures result == Some(Interrupted) ==> JustSignalled(backend.world, backend.turn)
      ensures result in {Some(Interrupted), Some(OwnershipGone), Some(Changed)} ==>
                LandsAt(backend.world, old(backend.turn), old(backend.file), found) && backend.world(old(backend.turn)).fault == Fine
      ensures result == Some(Unwritable) ==>
                !(LandsAt(backend.world, old(backend.turn), old(backend.file), found) && backend.world(old(backend.turn)).fault == Fine)
      ensures result == Some(RefreshedWhileWaiting) ==> IsDefault(wait)
      ensures result == Some(Unverified) ==> RefreshDeadline(old(backend.now) + config.timeout, config.timeout) <= backend.now
      ensures result.None? ==> |backend.seen| > |old(backend.seen)|
      ensures Still(backend.world, old(backend.turn)) && old(backend.file) == found && SafetyWindow(config.timeout) < config.timeout ==>
                result == Some(Acquired)
      ensures Visible(backend.world, old(backend.turn), old(backend.file), found, old(backend.now), config.timeout) ==> result == Some(Acquired)
      ensures old(backend.turn) <= backend.turn
    {
      hide Still, Calm, ValidateAcquisition, AllJustified, AcquisitionCandidate, LandsAt, Visible;
      next := found;
      var candidate, ok, current, late;
      candidate, ok, current, late, issued := Bid(found, noted, notedAt);
      if late { return Some(Unverified), next, issued; }
      if current.None? { return Some(if ok then Interrupted else Unwritable), next, issued; }
      next := current.value;
      if next == Some(candidate) {
        remote, lockExpiry := candidate, Some(issued + config.timeout);
        return Some(Acquired), next, issued;
      }
      result := AfterLosing(wait, noted, ok, found, next, candidate);
    }

    /** What to do when the verifying read shows something else: go on waiting, or give up. */
    method AfterLosing(wait: LockWait, noted: Option<Lock>, wrote: bool, found: Option<Record>, next: Option<Record>, candidate: Record)
        returns (result: Option<Acquisition>)
      ensures result in {None, Some(RefreshedWhileWaiting)} <==>
                CanWait(wait) &&
                if wrote then LockOf(next).Some? && !(OwnedBy(next, config.owner) && SameCore(next.value, candidate))
                else LockOf(next) != LockOf(found)
      ensures result == Some(RefreshedWhileWaiting) ==> IsDefault(wait) && noted.Some? && LockOf(next) != noted
      ensures result.None? ==> !(IsDefault(wait) && noted.Some? && LockOf(next) != noted)
      ensures result == Some(Unwritable) ==> !wrote
      ensures result == Some(OwnershipGone) ==> wrote && OwnedBy(next, config.owner) && SameCore(next.value, candidate)
      ensures result == Some(Changed) ==> wrote && !(OwnedBy(next, config.owner) && SameCore(next.value, candidate))
      ensures result in {None, Some(RefreshedWhileWaiting), Some(Unwritable), Some(OwnershipGone), Some(Changed)}
    {
      var moved := IsDefault(wait) && noted.Some? && LockOf(next) != noted;
      if !wrote {
        if !CanWait(wait) || LockOf(next) == LockOf(found) { return Some(Unwritable); }
        return if moved then Some(RefreshedWhileWaiting) else None;
      }
      if OwnedBy(next, config.owner) && SameCore(next.value, candidate) { return Some(OwnershipGone); }
      if !CanWait(wait) || LockOf(next).None? { return Some(Changed); }
      result := if moved then Some(RefreshedWhileWaiting) else None;
    }

    /** A persistent lock found in place is refreshed rather than taken again. */
    method Continue(previous: Record) returns (result: Acquisition)
      modifies this`remote, this`lockExpiry, this`pending, this`pendingExpiry, this`stamps, backend
      ensures result.Acquired? ==> LastSeen(backend.seen, Some(remote)) && OwnedBy(Some(remote), config.owner) && SameCore(remote, previous)
      ensures var lock := Lock(config.owner, old(stamps) + 1, config.timeout);
              result.Acquired? && old(pending).None? && previous.lock != Some(lock) ==>
                remote.lock == Some(lock) && lockExpiry.Some? && old(backend.now) + config.timeout <= lockExpiry.value
      ensures result in {Acquired, Unwritable}
      ensures CalmFor(backend.world, old(backend.turn), 3) && old(backend.file) == Some(previous) && OwnedBy(Some(previous), config.owner) ==>
                result == Acquired
    {
      var lock := NewLock();
      ghost var view := View();
      ghost var script;
      var report;
      if CalmFor(backend.world, backend.turn, 3) && OwnedBy(Some(previous), config.owner) {
        CalmUpdate(backend.world, backend.turn, backend.now, view, config.owner, config.timeout, previous, Refreshed(previous, lock));
      }
      report, script := ReplaceOwnedRemote(previous, Refreshed(previous, lock));
      ReplaceMeaning(view, config.owner, config.timeout, previous, Refreshed(previous, lock), script);
      ReplaceExpiry(view, config.owner, config.timeout, previous, Refreshed(previous, lock), script);
      result := if report.Done? then Acquired else Unwritable;
    }

    /** One turn of the outer loop: wait, validate what was found then, and try to take it. */
    method AcquireOnce(wait: LockWait, deadline: Option<int>, start: Option<Record>, noted0: Option<Lock>, notedAt0: int, budget: nat)
        returns (outcome: Option<Acquisition>, found: Option<Record>, noted: Option<Lock>, notedAt: int, left: nat)
      requires LastSeen(backend.seen, start) && Noted(backend.seen, noted0, notedAt0) && backend.seen[|backend.seen| - 1].at <= backend.now
      requires Bounds(wait, deadline)
      modifies this`remote, this`lockExpiry, this`stamps, backend
      ensures AllJustified(config, local, backend.inquired, backend.seen, backend.landed, old(backend.landed))
      ensures old(backend.seen) <= backend.seen && old(backend.inquired) <= backend.inquired
      ensures old(backend.now) <= backend.now && old(backend.turn) <= backend.turn && left <= budget
      ensures outcome.None? ==> LastSeen(backend.seen, found) && Noted(backend.seen, noted, notedAt) &&
                                backend.seen[|backend.seen| - 1].at <= backend.now && |backend.seen| - |old(backend.seen)| > budget - left
      ensures IsDefault(wait) && noted0.Some? ==> noted == noted0 && notedAt == notedAt0
      ensures outcome.Some? ==> Explained(outcome.value, wait, deadline, old(backend.now))
      ensures outcome == Some(GaveUp) ==> |backend.seen| - |old(backend.seen)| >= budget
      ensures outcome == Some(Acquired) ==>
                LastSeen(backend.seen, Some(remote)) && OwnedBy(Some(remote), config.owner) && lockExpiry.Some? &&
                backend.now < RefreshDeadline(lockExpiry.value, config.timeout)
      ensures old(Yields(start, wait, deadline, budget)) && noted0.None? ==> outcome == Some(Acquired)
    {
      hide ValidateAcquisition, AcquisitionCandidate, AllJustified, Allowed, Still, Calm, Patient, Noted, JustFailed, JustSignalled,
           LandsAt, Visible, SameRepository, CanWait, IsDefault, Bounds;
      StillIsCalm(backend.world, backend.turn);
      var stop;
      stop, found, noted, notedAt, left := AwaitLock(wait, deadline, start, noted0, notedAt0, budget);
      NothingLanded(config, local, backend.inquired, backend.seen, backend.landed);
      if stop.Some? { return stop, found, noted, notedAt, left; }
      StillLater(backend.world, old(backend.turn), backend.turn);
      var refusal := Validate(found);
      NothingLanded(config, local, backend.inquired, backend.seen, backend.landed);
      if refusal.Some? { return refusal, found, noted, notedAt, left; }
      var issued;
      StillLater(backend.world, old(backend.turn), backend.turn);
      outcome, found, issued := TryAcquire(wait, found, noted, notedAt);
    }

    /** What each way to stop says, just after it. */
    ghost predicate Explained(result: Acquisition, wait: LockWait, deadline: Option<int>, begun: int)
      reads this, backend
    {
      match result
      case Objected(objection) => |backend.seen| > 0 &&
        ValidateAcquisition(local, backend.seen[|backend.seen| - 1].found, config.failOnIncomplete, false) == Some(objection)
      case Unreadable => JustFailed(backend.world, backend.turn)
      case Busy => !CanWait(wait)
      case TimedOut => deadline.Some? && deadline.value <= backend.now
      case RefreshedWhileWaiting => IsDefault(wait)
      case Interrupted => JustSignalled(backend.world, backend.turn)
      case Unverified => RefreshDeadline(begun + config.timeout, config.timeout) <= backend.now
      case _ => true
    }

    /** Nothing objects, fails or interferes, and the TTL leaves time to verify. */
    ghost predicate Obvious(world: World, turn: nat, file: Option<Record>)
      reads this
    {
      Still(world, turn) && SafetyWindow(config.timeout) < config.timeout &&
      ValidateAcquisition(local, file, config.failOnIncomplete, true) == None
    }

    /** So the file yields the lock to a wait that begins now. */
    ghost predicate Yields(start: Option<Record>, wait: LockWait, deadline: Option<int>, budget: nat)
      reads this, backend
    {
      Obvious(backend.world, backend.turn, backend.file) && start == backend.file &&
      (LockOf(start).Some? ==>
         Patient(wait, deadline, backend.now + Ttl(LockOf(start), config.timeout), backend.now, budget))
    }

    /** The lock is free, or the wait is for long enough and no client refreshes it. */
    predicate WaitsEnough(wait: LockWait, file: Option<Record>, budget: nat) {
      budget > 0 &&
      (LockOf(file).Some? ==>
         var ttl := Ttl(LockOf(file), config.timeout);
         && (wait.explicit ==> wait.infinite || wait.duration > 0)
         && (wait.infinite ==> ttl <= (budget - 1) * POLL_INTERVAL)
         && (!wait.infinite && wait.duration > 0 ==> ttl <= wait.duration))
    }

    /** The first read finds the session's own persistent lock. */
    predicate Continues(world: World, turn: nat, file: Option<Record>) {
      config.persistent && ReadAt(world, turn, file).Some? && OwnedBy(ReadAt(world, turn, file).value, config.owner)
    }

    /** What the first read shows is refused. */
    function Refused(world: World, turn: nat, file: Option<Record>): Option<Objection>
      reads this
    {
      var read := ReadAt(world, turn, file);
      if read.Some? && read.value.Some? then ValidateAcquisition(local, read.value, config.failOnIncomplete, true) else None
    }

    /** The first read shows another repository than the local record. */
    predicate Foreign(world: World, turn: nat, file: Option<Record>)
      reads this
    {
      ReadAt(world, turn, file).Some? && !SameRepository(local, ReadAt(world, turn, file).value)
    }

    /** `Acquire`. The budget bounds unlimited waits and lost races, which nothing else bounds. */
    method Acquire(wait: LockWait, budget: nat) returns (result: Acquisition)
      modifies this`remote, this`lockExpiry, this`pending, this`pendingExpiry, this`stamps, backend
      ensures result.Acquired? ==> LastSeen(backend.seen, Some(remote)) && OwnedBy(Some(remote), config.owner)
      ensures !Continues(backend.world, old(backend.turn), old(backend.file)) ==>
                AllJustified(config, local, backend.inquired, backend.seen, backend.landed, old(backend.landed))
      ensures !Continues(backend.world, old(backend.turn), old(backend.file)) && result.Acquired? ==>
                lockExpiry.Some? && backend.now < RefreshDeadline(lockExpiry.value, config.timeout)
      ensures exists deadline :: Explained(result, wait, deadline, old(backend.now)) &&
                (deadline.Some? ==>
                   !wait.infinite && wait.duration > 0 &&
                   old(backend.now) + wait.duration <= deadline.value <=
                     old(backend.now) + backend.world(old(backend.turn)).takes + backend.world(old(backend.turn) + 1).takes + wait.duration)
      ensures Refused(backend.world, old(backend.turn), old(backend.file)).Some? ==>
                backend.landed == old(backend.landed) && View() == old(View()) &&
                result == Objected(Refused(backend.world, old(backend.turn), old(backend.file)).value)
      ensures Foreign(backend.world, old(backend.turn), old(backend.file)) ==>
                backend.landed == old(backend.landed) && View() == old(View()) && result == Objected(WrongRepository)
      ensures Continues(backend.world, old(backend.turn), old(backend.file)) ==>
                result in {Acquired, Unwritable} || result.Objected?
      ensures Continues(backend.world, old(backend.turn), old(backend.file)) && result.Acquired? ==>
                SameCore(remote, ReadAt(backend.world, old(backend.turn), old(backend.file)).value.value)
      ensures result.GaveUp? ==> |backend.seen| >= |old(backend.seen)| + budget
      ensures Obvious(backend.world, old(backend.turn), old(backend.file)) && WaitsEnough(wait, old(backend.file), budget) ==>
                result == Acquired
    {
      hide ValidateAcquisition, AllJustified, Noted, Still, Calm, LandsAt, ReadAt, JustFailed, JustSignalled, SameRepository;
      var refusal, found := LookFirst(wait);
      NothingLanded(config, local, backend.inquired, backend.seen, backend.landed);
      if refusal.Some? {
        assert Explained(refusal.value, wait, None, old(backend.now));
        return refusal.value;
      }
      if config.persistent && OwnedBy(found, config.owner) {
        StillIsCalm(backend.world, backend.turn);
        result := Continue(found.value);
        assert Explained(result, wait, None, old(backend.now));
        return;
      }
      var deadline := if !wait.infinite && wait.duration > 0 then Some(backend.now + wait.duration) else None;
      result := Contend(wait, deadline, found, budget);
      assert Explained(result, wait, deadline, old(backend.now));
    }

    /** The first read, and what is said of it. */
    method LookFirst(ghost wait: LockWait) returns (refusal: Option<Acquisition>, found: Option<Record>)
      modifies backend
      ensures backend.landed == old(backend.landed) && old(backend.seen) <= backend.seen
      ensures old(backend.now) <= backend.now <=
                old(backend.now) + backend.world(old(backend.turn)).takes + backend.world(old(backend.turn) + 1).takes
      ensures refusal.None? ==>
                ReadAt(backend.world, old(backend.turn), old(backend.file)) == Some(found) &&
                LastSeen(backend.seen, found) && backend.seen[|backend.seen| - 1].at <= backend.now && |backend.seen| > |old(backend.seen)|
      ensures refusal.Some? ==>
                (refusal.value.Objected? || (refusal.value.Unreadable? && !Continues(backend.world, old(backend.turn), old(backend.file)))) &&
                Explained(refusal.value, wait, None, old(backend.now))
      ensures Refused(backend.world, old(backend.turn), old(backend.file)).Some? ==>
                refusal == Some(Objected(Refused(backend.world, old(backend.turn), old(backend.file)).value))
      ensures Foreign(backend.world, old(backend.turn), old(backend.file)) ==> refusal == Some(Objected(WrongRepository))
      ensures Obvious(backend.world, old(backend.turn), old(backend.file)) ==>
                refusal.None? && Obvious(backend.world, backend.turn, backend.file) && found == backend.file == old(backend.file)
    {
      hide ValidateAcquisition, Still, LandsAt, JustFailed;
      refusal, found := None, None;
      StillAnswers(backend.world, backend.turn, backend.file);
      StillLater(backend.world, backend.turn, backend.turn + 1);
      var read := backend.Read();
      if read.None? {
        assert JustFailed(backend.world, backend.turn) by { LastFailed(backend.world, backend.turn); }
        return Some(Unreadable), found;
      }
      found := read.value;
      refusal := Validate(found);
      StillLater(backend.world, old(backend.turn), backend.turn);
    }

    /** The outer loop. */
    method Contend(wait: LockWait, deadline: Option<int>, start: Option<Record>, budget: nat) returns (result: Acquisition)
      requires LastSeen(backend.seen, start) && backend.seen[|backend.seen| - 1].at <= backend.now && Bounds(wait, deadline)
      modifies this`remote, this`lockExpiry, this`stamps, backend
      ensures result.Acquired? ==> LastSeen(backend.seen, Some(remote)) && OwnedBy(Some(remote), config.owner)
      ensures AllJustified(config, local, backend.inquired, backend.seen, backend.landed, old(backend.landed))
      ensures result.Acquired? ==> lockExpiry.Some? && backend.now < RefreshDeadline(lockExpiry.value, config.timeout)
      ensures Explained(result, wait, deadline, old(backend.now)) && old(backend.now) <= backend.now
      ensures result.GaveUp? ==> |backend.seen| >= |old(backend.seen)| + budget - 1
      ensures budget > 0 && old(Yields(start, wait, deadline, budget - 1)) ==> result == Acquired
    {
      hide ValidateAcquisition, AllJustified, Noted, Yields;
      NothingLanded(config, local, backend.inquired, backend.seen, backend.landed);
      ghost var easy := budget > 0 && Yields(start, wait, deadline, budget - 1);
      var found, noted, notedAt, left: nat := start, None, 0, budget;
      while left > 0
        invariant LastSeen(backend.seen, found) && Noted(backend.seen, noted, notedAt)
        invariant backend.seen[|backend.seen| - 1].at <= backend.now && local == old(local)
        invariant AllJustified(config, local, backend.inquired, backend.seen, backend.landed, old(backend.landed))
        invariant old(backend.now) <= backend.now && old(backend.turn) <= backend.turn
        invariant |backend.seen| - |old(backend.seen)| >= budget - left
        invariant left == budget ==> found == start && noted.None? && unchanged(backend) && unchanged(this)
        invariant left < budget ==> !easy
      {
        ghost var before, inquired, landed := backend.seen, backend.inquired, backend.landed;
        var outcome;
        outcome, found, noted, notedAt, left := AcquireOnce(wait, deadline, found, noted, notedAt, left - 1);
        JustifiedGrows(config, local, inquired, backend.inquired, before, backend.seen, landed, old(backend.landed));
        JustifiedJoins(config, local, backend.inquired, backend.seen, backend.landed, landed, old(backend.landed));
        if outcome.Some? { return outcome.value; }
      }
      result := GaveUp;
    }
  }
}
