/** Concrete runs. One client initialises the remote, publishes an advance that lands but reports an
    error, and refreshes its lock: the refresh writes the verified base back, so the generation in
    the remote file goes from 2 back to 1. When the refresh does not land, the next update is refused
    although the file is the client's own. And a run in which one client takes another's lock. */
module ProtocolWitness {
  import opened Prelude
  import opened StateFile
  import opened Protocol

  const LOCK := Lock(Owner(0, 1), 1, 100)
  const NEW_LOCK := Lock(Owner(0, 1), 2, 100)
  const EMPTY := Record(7, 0, NoId, false, Some(LOCK))
  const FIRST := Record(7, 1, Id(0, 1), false, Some(LOCK))
  const SECOND := Record(7, 2, Id(0, 2), true, Some(LOCK))
  const BACK := Record(7, 1, Id(0, 1), false, Some(NEW_LOCK))

  const START := Shared(0, None, 0, map[], map[], map[0 := NoId], 0)
  const ISSUED := START.(wrote := map[LOCK := 0])
  const LOCKED := ISSUED.(file := Some(EMPTY))
  const FILLED := LOCKED.(payload := 5, finished := map[Id(0, 1) := 5])
  const PUBLISHED := FILLED.(file := Some(FIRST))
  const VERIFIED := PUBLISHED.(ids := map[0 := NoId, 1 := Id(0, 1)], top := 1)
  const ADVANCED := VERIFIED.(file := Some(SECOND))
  const RENEWED := ADVANCED.(wrote := map[LOCK := 0, NEW_LOCK := 0])
  const REVERTED := RENEWED.(file := Some(BACK))

  const IDLE := Client(None, 5, None, 0, 0, 0, 0, Owner(0, 0), 0, false, false, Down,
                       View(EMPTY, None, None, None), NoUpdate, false, false)
  const WATCHING := IDLE.(tokens := 1, owner := Owner(0, 1), timeout := 100, mode := Observing(None, None, 0))
  const BIDDING := WATCHING.(stamps := 1, mode := Acquiring(None, None, 0, EMPTY, 0, false))
  const BID := BIDDING.(mode := Acquiring(None, None, 0, EMPTY, 0, true))
  const CHECKED := BID.(mode := Checking(None, 0, EMPTY, 0, Some(EMPTY)))
  const HOLDING := CHECKED.(mode := Held(Startup), view := View(EMPTY, Some(100), None, None))
  const UPLOADED := HOLDING.(serials := 1, mode := Held(InitUploaded(Id(0, 1))))
  const FINISHING := UPLOADED.(mode := Held(InitPublishing), update := Reading(FinishInit, FIRST))
  const CURRENT := HOLDING.(serials := 1, local := Some(Local(7, 1, Id(0, 1), false, true)), mode := Held(Ready),
                            view := View(FIRST, Some(100), None, None))
  const PUBLISHING := CURRENT.(serials := 2, local := Some(Local(7, 2, Id(0, 2), true, true)), origin := Some(Id(0, 1)),
                               mode := Held(Publishing(false)), update := Reading(Publish, SECOND))
  const UNSURE := PUBLISHING.(mode := Held(Ready), update := NoUpdate, dirty := true,
                              view := View(FIRST, Some(100), Some(SECOND), Some(100)))
  const REFRESHING := UNSURE.(stamps := 2, update := Reading(Refresh, BACK))

  predicate GoesAs(sh: Shared, x: Client, i: nat, step: Step, to: Shared, y: Client) {
    Can(sh, x, i, step) && Act(sh, x, i, step) == (to, y)
  }

  predicate Goes(sh: Shared, x: Client, step: Step, to: Shared, y: Client) {
    GoesAs(sh, x, 0, step, to, y)
  }

  /** The run goes on with a step of one client. */
  lemma ThenOne(r: seq<System>, sh: Shared, xs: seq<Client>, i: nat, step: Step, to: Shared, y: Client) returns (t: seq<System>)
    requires Run(r) && r[|r| - 1] == System(sh, xs) && i < |xs| && GoesAs(sh, xs[i], i, step, to, y)
    ensures Run(t) && |t| > 1 && t == r + [System(to, xs[i := y])] && Moves(System(sh, xs), System(to, xs[i := y]), i, step)
  {
    hide Can, Act, Initial;
    t := r + [System(to, xs[i := y])];
    assert Moves(System(sh, xs), System(to, xs[i := y]), i, step);
  }

  /** The same for a run of a single client. */
  lemma Then(r: seq<System>, sh: Shared, x: Client, step: Step, to: Shared, y: Client) returns (t: seq<System>)
    requires Run(r) && r[|r| - 1] == System(sh, [x]) && Goes(sh, x, step, to, y)
    ensures Run(t) && |t| > 1 && t == r + [System(to, [y])] && Moves(System(sh, [x]), System(to, [y]), 0, step)
  {
    hide GoesAs, Run, Moves;
    assert [x][0 := y] == [y];
    t := ThenOne(r, sh, [x], 0, step, to, y);
  }

  /** What the file and the client look like once the update the client has begun has landed. */
  ghost predicate LandsAs(sh: Shared, x: Client, chosen: Record, expires: Option<int>, to: Shared, y: Client) {
    && x.update.Reading? && sh.file.Some? && chosen.lock.Some?
    && PlanWrite(x.view, x.owner, Base(x), x.update.candidate, sh.file, x.timeout, Clock(sh, x)) == Write(chosen, expires)
    && to == sh.(file := Some(chosen),
                 wrote := if chosen.lock.value in sh.wrote then sh.wrote else sh.wrote[chosen.lock.value := sh.now])
    && y == x.(view := View(x.view.remote, x.view.lockExpiry, Some(chosen), expires),
               update := Writing(x.update.why, chosen, sh.file.value, expires, true))
  }

  /** A guarded update, from its read to its landing. */
  lemma Lands(r: seq<System>, sh: Shared, x: Client, chosen: Record, expires: Option<int>, to: Shared, y: Client) returns (t: seq<System>)
    requires Run(r) && r[|r| - 1] == System(sh, [x]) && LandsAs(sh, x, chosen, expires, to, y)
    ensures Run(t) && |t| > |r| && t[..|r|] == r && t[|t| - 1] == System(to, [y])
  {
    hide Run, PlanWrite;
    var read := x.(update := Got(x.update.why, x.update.candidate, sh.file));
    t := Then(r, sh, x, ReadLatest, sh, read);
    var issued, marked := y.(update := y.update.(landed := false)), to.(file := sh.file);
    t := Then(t, sh, read, Issue, marked, issued);
    t := Then(t, marked, issued, LandWrite, to, y);
  }

  const INITIALIZING := HOLDING.(mode := Held(Initializing))
  const FIRST_VIEW := View(EMPTY, Some(100), Some(FIRST), Some(100))
  const FIRST_LANDED := FINISHING.(view := FIRST_VIEW, update := Writing(FinishInit, FIRST, EMPTY, Some(100), true))
  const FIRST_REPORTED := FINISHING.(view := FIRST_VIEW, update := Verifying(FinishInit, FIRST, EMPTY, Some(100)))
  const FIRST_READ := FINISHING.(view := FIRST_VIEW, update := Verified(FinishInit, FIRST, EMPTY, Some(100), Some(FIRST)))
  const RECORDING := UPLOADED.(mode := Held(Recording(true)), view := View(FIRST, Some(100), None, None))
  const SECOND_LANDED := PUBLISHING.(view := UNSURE.view, update := Writing(Publish, SECOND, FIRST, Some(100), true))
  const BACK_LANDED := REFRESHING.(view := View(FIRST, Some(100), Some(BACK), Some(100)),
                                   update := Writing(Refresh, BACK, SECOND, Some(100), true))

  lemma GoesBoot()
    ensures Goes(START, IDLE, Boot(100, false, false), START, WATCHING)
  {
  }

  lemma GoesBid()
    ensures Goes(START, WATCHING, IssueAcquire(7, true), ISSUED, BIDDING)
  {
  }

  lemma GoesLand()
    ensures Goes(ISSUED, BIDDING, LandAcquire, LOCKED, BID)
  {
  }

  lemma GoesCheck()
    ensures Goes(LOCKED, BID, CheckAcquire, LOCKED, CHECKED)
  {
    assert LOCKED.ids[0 := NoId] == LOCKED.ids;
  }

  lemma DecideGoes(sh: Shared, x: Client, y: Client)
    requires x.mode == Held(Startup) && x.local == None && Base(x).generation == 0 && !x.cancelled
    requires x.timeout == 100 && x.view.lockExpiry == Some(100) && Clock(sh, x) == 0
    requires y == x.(mode := Held(Initializing))
    ensures Goes(sh, x, Decide, sh, y)
  {
  }

  lemma GoesDecide(sh: Shared, x: Client, y: Client)
    requires sh == LOCKED && x == HOLDING && y == INITIALIZING
    ensures Goes(sh, x, Decide, sh, y)
  {
    hide Goes;
    DecideGoes(sh, x, y);
  }

  lemma GoesUpload()
    ensures Goes(LOCKED, INITIALIZING, InitDone(5), FILLED, UPLOADED)
  {
  }

  lemma GoesFinish()
    ensures Goes(FILLED, UPLOADED, BeginFinishInit, FILLED, FINISHING)
  {
  }

  lemma GoesReport()
    ensures Goes(PUBLISHED, FIRST_LANDED, ReportOk, PUBLISHED, FIRST_REPORTED)
  {
  }

  lemma GoesRead()
    ensures Goes(PUBLISHED, FIRST_REPORTED, VerifyRead, VERIFIED, FIRST_READ)
  {
    assert PUBLISHED.ids[1 := Id(0, 1)] == VERIFIED.ids;
  }

  lemma GoesConclude()
    ensures Goes(VERIFIED, FIRST_READ, Conclude, VERIFIED, RECORDING)
  {
  }

  lemma GoesRecord()
    ensures Goes(VERIFIED, RECORDING, RecordLocal, VERIFIED, CURRENT)
  {
  }

  lemma GoesPublish()
    ensures Goes(VERIFIED, CURRENT, BeginPublish(false), VERIFIED, PUBLISHING)
  {
  }

  lemma GoesFail()
    ensures Goes(ADVANCED, SECOND_LANDED, FailUpdate, ADVANCED, UNSURE)
  {
  }

  lemma GoesRefresh()
    ensures Goes(ADVANCED, UNSURE, BeginRefresh, ADVANCED, REFRESHING)
  {
  }

  lemma GoesEnter(sh: Shared, x: Client, y: Client)
    requires x.mode.Checking? && x.mode.seen == Some(x.mode.bid) && x.timeout == 100 && sh.now == x.skew == x.mode.writtenAt == 0
    requires y == x.(mode := Held(Startup), update := NoUpdate, view := View(x.mode.bid, Some(100), None, None))
    ensures Goes(sh, x, Enter, sh, y)
  {
  }

  /** The file holds the base, or the pending record. */
  lemma PlanIs(view: View, owner: Owner, candidate: Record, found: Record, at: int)
    requires OwnedBy(Some(found), owner) && found.lock.value.ttl == 100 && (found == view.remote || Some(found) == view.pending)
    requires (candidate.lock == found.lock == view.remote.lock && view.pending == None) ||
             (candidate.lock.Some? && candidate.lock.value.ttl == 100 && candidate.lock !in {found.lock, view.remote.lock})
    ensures PlanWrite(view, owner, view.remote, candidate, Some(found), 100, at) ==
            Write(candidate, if candidate.lock == found.lock then view.lockExpiry else Some(at + 100))
  {
  }

  lemma FirstLands()
    ensures LandsAs(FILLED, FINISHING, FIRST, Some(100), PUBLISHED, FIRST_LANDED)
  {
    hide PlanWrite;
    PlanIs(FINISHING.view, FINISHING.owner, FIRST, EMPTY, 0);
  }

  lemma SecondLands()
    ensures LandsAs(VERIFIED, PUBLISHING, SECOND, Some(100), ADVANCED, SECOND_LANDED)
  {
    hide PlanWrite;
    PlanIs(PUBLISHING.view, PUBLISHING.owner, SECOND, FIRST, 0);
  }

  lemma BackLands(sh: Shared, x: Client, to: Shared, y: Client)
    requires sh == ADVANCED && x == REFRESHING && to == REVERTED && y == BACK_LANDED
    ensures LandsAs(sh, x, BACK, Some(100), to, y)
  {
    hide PlanWrite;
    PlanIs(x.view, x.owner, BACK, SECOND, 0);
    assert sh.wrote[NEW_LOCK := 0] == to.wrote;
  }

  lemma Begins()
    ensures Run([System(START, [IDLE])])
  {
  }

  lemma Acquires() returns (r: seq<System>)
    ensures Run(r) && r[|r| - 1] == System(LOCKED, [HOLDING])
  {
    hide Run, Goes;
    Begins();
    r := [System(START, [IDLE])];
    GoesBoot();
    r := Then(r, START, IDLE, Boot(100, false, false), START, WATCHING);
    GoesBid();
    r := Then(r, START, WATCHING, IssueAcquire(7, true), ISSUED, BIDDING);
    GoesLand();
    r := Then(r, ISSUED, BIDDING, LandAcquire, LOCKED, BID);
    GoesCheck();
    r := Then(r, LOCKED, BID, CheckAcquire, LOCKED, CHECKED);
    GoesEnter(LOCKED, CHECKED, HOLDING);
    r := Then(r, LOCKED, CHECKED, Enter, LOCKED, HOLDING);
  }

  lemma Uploads(r: seq<System>) returns (t: seq<System>)
    requires Run(r) && r[|r| - 1] == System(LOCKED, [HOLDING])
    ensures Run(t) && t[|t| - 1] == System(FILLED, [FINISHING])
  {
    hide Run, Goes;
    GoesDecide(LOCKED, HOLDING, INITIALIZING);
    t := Then(r, LOCKED, HOLDING, Decide, LOCKED, INITIALIZING);
    GoesUpload();
    t := Then(t, LOCKED, INITIALIZING, InitDone(5), FILLED, UPLOADED);
    GoesFinish();
    t := Then(t, FILLED, UPLOADED, BeginFinishInit, FILLED, FINISHING);
  }

  lemma Initialises(r: seq<System>) returns (t: seq<System>)
    requires Run(r) && r[|r| - 1] == System(FILLED, [FINISHING])
    ensures Run(t) && t[|t| - 1] == System(VERIFIED, [CURRENT])
  {
    hide Run, Goes, LandsAs;
    FirstLands();
    t := Lands(r, FILLED, FINISHING, FIRST, Some(100), PUBLISHED, FIRST_LANDED);
    GoesReport();
    t := Then(t, PUBLISHED, FIRST_LANDED, ReportOk, PUBLISHED, FIRST_REPORTED);
    GoesRead();
    t := Then(t, PUBLISHED, FIRST_REPORTED, VerifyRead, VERIFIED, FIRST_READ);
    GoesConclude();
    t := Then(t, VERIFIED, FIRST_READ, Conclude, VERIFIED, RECORDING);
    GoesRecord();
    t := Then(t, VERIFIED, RECORDING, RecordLocal, VERIFIED, CURRENT);
  }

  lemma Publishes(r: seq<System>) returns (t: seq<System>)
    requires Run(r) && r[|r| - 1] == System(VERIFIED, [CURRENT])
    ensures Run(t) && t[|t| - 1] == System(ADVANCED, [UNSURE])
  {
    hide Run, Goes, LandsAs;
    GoesPublish();
    t := Then(r, VERIFIED, CURRENT, BeginPublish(false), VERIFIED, PUBLISHING);
    SecondLands();
    t := Lands(t, VERIFIED, PUBLISHING, SECOND, Some(100), ADVANCED, SECOND_LANDED);
    GoesFail();
    t := Then(t, ADVANCED, SECOND_LANDED, FailUpdate, ADVANCED, UNSURE);
  }

  lemma Reverts(r: seq<System>) returns (t: seq<System>)
    requires Run(r) && |r| > 0 && r[|r| - 1] == System(ADVANCED, [UNSURE])
    ensures Run(t) && |t| > |r| && t[..|r|] == r && t[|t| - 1].shared == REVERTED
  {
    hide Run, Goes, LandsAs;
    GoesRefresh();
    var begun := Then(r, ADVANCED, UNSURE, BeginRefresh, ADVANCED, REFRESHING);
    BackLands(ADVANCED, REFRESHING, REVERTED, BACK_LANDED);
    t := Lands(begun, ADVANCED, REFRESHING, BACK, Some(100), REVERTED, BACK_LANDED);
    assert t[..|r|] == t[..|begun|][..|r|];
  }

  /** The generation in the remote file can drop in a run of the protocol. */
  lemma GenerationCanDrop() returns (r: seq<System>, k: nat)
    ensures Run(r) && k < |r| - 1 && r[k].shared.file.Some? && r[|r| - 1].shared.file.Some?
    ensures r[|r| - 1].shared.file.value.generation < r[k].shared.file.value.generation
  {
    var acquired := Acquires();
    var uploaded := Uploads(acquired);
    var current := Initialises(uploaded);
    var unsure := Publishes(current);
    r := Reverts(unsure);
    k := |unsure| - 1;
    assert r[k] == r[..|unsure|][k];
  }

  // ---------------------------------------------------------------- a loss of ownership that never happened

  const THIRD_LOCK := Lock(Owner(0, 1), 3, 100)
  const AGAIN := Record(7, 1, Id(0, 1), false, Some(THIRD_LOCK))
  const MARKED := ADVANCED.(wrote := map[LOCK := 0, NEW_LOCK := 0])

  const OVERWRITTEN := UNSURE.(stamps := 2, view := View(FIRST, Some(100), Some(BACK), Some(100)))
  const REFRESH_READ := REFRESHING.(update := Got(Refresh, BACK, Some(SECOND)))
  const REFRESH_ISSUED := OVERWRITTEN.(update := Writing(Refresh, BACK, SECOND, Some(100), false))
  const RETRYING := OVERWRITTEN.(stamps := 3, update := Reading(Refresh, AGAIN))
  const RETRY_READ := OVERWRITTEN.(stamps := 3, update := Got(Refresh, AGAIN, Some(SECOND)))
  const DENIED := OVERWRITTEN.(stamps := 3, view := View(FIRST, Some(100), None, None))

  lemma GoesReadLatest()
    ensures Goes(ADVANCED, REFRESHING, ReadLatest, ADVANCED, REFRESH_READ)
  {
  }

  lemma IssueGoes(sh: Shared, x: Client, chosen: Record, expires: Option<int>, to: Shared, y: Client)
    requires x.update.Got? && x.update.found.Some? && chosen.lock.Some? && chosen.lock.value !in sh.wrote
    requires PlanWrite(x.view, x.owner, Base(x), x.update.candidate, x.update.found, x.timeout, Clock(sh, x)) == Write(chosen, expires)
    requires to == sh.(wrote := sh.wrote[chosen.lock.value := sh.now])
    requires y == x.(view := View(x.view.remote, x.view.lockExpiry, Some(chosen), expires),
                     update := Writing(x.update.why, chosen, x.update.found.value, expires, false))
    ensures Goes(sh, x, Issue, to, y)
  {
    hide PlanWrite;
  }

  lemma RefusalGoes(sh: Shared, x: Client, y: Client)
    requires x.update.Got? && x.mode == Held(Ready) && x.update.why == Refresh
    requires PlanWrite(x.view, x.owner, Base(x), x.update.candidate, x.update.found, x.timeout, Clock(sh, x)) == Refuse
    requires y == x.(view := View(x.view.remote, x.view.lockExpiry, None, None), update := NoUpdate)
    ensures Goes(sh, x, Issue, sh, y)
  {
    hide PlanWrite;
  }

  /** The file holds neither the base nor the pending record. */
  lemma PlanRefuses(view: View, owner: Owner, candidate: Record, found: Record, timeout: nat, at: int)
    requires found != view.remote && view.pending != Some(found)
    ensures PlanWrite(view, owner, view.remote, candidate, Some(found), timeout, at) == Refuse
  {
  }

  lemma IssuedAs()
    ensures REFRESH_ISSUED == REFRESH_READ.(view := View(FIRST, Some(100), Some(BACK), Some(100)),
                                            update := Writing(Refresh, BACK, SECOND, Some(100), false))
  {
  }

  lemma MarkedAs()
    ensures MARKED == ADVANCED.(wrote := ADVANCED.wrote[NEW_LOCK := 0]) && NEW_LOCK !in ADVANCED.wrote
  {
    assert ADVANCED.wrote[NEW_LOCK := 0] == MARKED.wrote;
  }

  /** The refresh is issued over the publication that landed, but its write does not land. */
  lemma GoesIssue(sh: Shared, x: Client, to: Shared, y: Client)
    requires x.update == Got(Refresh, BACK, Some(SECOND)) && x.timeout == 100 && Clock(sh, x) == sh.now == 0
    requires x.view == View(FIRST, Some(100), Some(SECOND), Some(100)) && x.owner == Owner(0, 1)
    requires to == sh.(wrote := sh.wrote[NEW_LOCK := 0]) && NEW_LOCK !in sh.wrote
    requires y == x.(view := View(FIRST, Some(100), Some(BACK), Some(100)), update := Writing(Refresh, BACK, SECOND, Some(100), false))
    ensures Goes(sh, x, Issue, to, y)
  {
    hide PlanWrite, Goes;
    PlanIs(x.view, x.owner, BACK, SECOND, 0);
    IssueGoes(sh, x, BACK, Some(100), to, y);
  }

  lemma IssuesRefresh(sh: Shared, x: Client, to: Shared, y: Client)
    requires sh == ADVANCED && x == REFRESH_READ && to == MARKED && y == REFRESH_ISSUED
    ensures Goes(sh, x, Issue, to, y)
  {
    hide Goes;
    IssuedAs();
    MarkedAs();
    GoesIssue(sh, x, to, y);
  }

  lemma GoesDrop()
    ensures Goes(MARKED, REFRESH_ISSUED, FailUpdate, MARKED, OVERWRITTEN)
  {
  }

  lemma GoesRetry()
    ensures Goes(MARKED, OVERWRITTEN, BeginRefresh, MARKED, RETRYING)
  {
  }

  lemma GoesReread()
    ensures Goes(MARKED, RETRYING, ReadLatest, MARKED, RETRY_READ)
  {
  }

  lemma GoesDenied(sh: Shared, x: Client, y: Client)
    requires sh == MARKED && x == RETRY_READ && y == DENIED
    ensures Goes(sh, x, Issue, sh, y) && Refused(sh, x)
  {
    hide PlanWrite, Goes;
    PlanRefuses(x.view, x.owner, AGAIN, SECOND, 100, 0);
    RefusalGoes(sh, x, y);
  }

  /** The update that is under way is refused for want of ownership. */
  predicate Refused(sh: Shared, x: Client) {
    x.update.Got? &&
    PlanWrite(x.view, x.owner, Base(x), x.update.candidate, x.update.found, x.timeout, Clock(sh, x)) == Refuse
  }

  /** A run in which an update is refused for want of ownership although the file is the client's own:
      a publication landed and reported an error, a refresh did not land, and `pending` remembers
      only the refresh. */
  lemma OwnershipCanBeDenied() returns (r: seq<System>)
    ensures Run(r) && |r| > 1
    ensures var s, t := r[|r| - 2], r[|r| - 1];
            && |s.clients| == 1 && Moves(s, t, 0, Issue)
            && OwnedBy(s.shared.file, s.clients[0].owner) && t.shared.file == s.shared.file
            && Refused(s.shared, s.clients[0])
  {
    hide Run, Goes, Moves, Refused;
    var acquired := Acquires();
    var uploaded := Uploads(acquired);
    var current := Initialises(uploaded);
    r := Publishes(current);
    GoesRefresh();
    r := Then(r, ADVANCED, UNSURE, BeginRefresh, ADVANCED, REFRESHING);
    GoesReadLatest();
    r := Then(r, ADVANCED, REFRESHING, ReadLatest, ADVANCED, REFRESH_READ);
    IssuesRefresh(ADVANCED, REFRESH_READ, MARKED, REFRESH_ISSUED);
    r := Then(r, ADVANCED, REFRESH_READ, Issue, MARKED, REFRESH_ISSUED);
    GoesDrop();
    r := Then(r, MARKED, REFRESH_ISSUED, FailUpdate, MARKED, OVERWRITTEN);
    GoesRetry();
    r := Then(r, MARKED, OVERWRITTEN, BeginRefresh, MARKED, RETRYING);
    GoesReread();
    r := Then(r, MARKED, RETRYING, ReadLatest, MARKED, RETRY_READ);
    GoesDenied(MARKED, RETRY_READ, DENIED);
    r := Then(r, MARKED, RETRY_READ, Issue, MARKED, DENIED);
  }

  // ---------------------------------------------------------------- a takeover

  const TAKEN := Lock(Owner(1, 1), 1, 100)
  const STOLEN := EMPTY.(lock := Some(TAKEN))
  const LATER := LOCKED.(now := 100)
  const CONTESTED := LATER.(wrote := map[LOCK := 0, TAKEN := 100])
  const SEEING := IDLE.(tokens := 1, owner := Owner(1, 1), timeout := 100, mode := Observing(Some(EMPTY), None, 0))
  const NOTING := SEEING.(mode := Observing(Some(EMPTY), Some(LOCK), 0))
  const TAKING := NOTING.(stamps := 1, mode := Acquiring(Some(EMPTY), Some(LOCK), 0, STOLEN, 100, false))
  const TOOK := NOTING.(stamps := 1, mode := Acquiring(Some(EMPTY), Some(LOCK), 0, STOLEN, 100, true))

  lemma GoesSee()
    ensures GoesAs(LOCKED, IDLE, 1, Boot(100, false, false), LOCKED, SEEING)
  {
  }

  lemma GoesNote()
    ensures GoesAs(LOCKED, SEEING, 1, Note, LOCKED, NOTING)
  {
  }

  lemma GoesTake(sh: Shared, x: Client, to: Shared, y: Client)
    requires sh == LATER && x == NOTING && to == CONTESTED && y == TAKING
    ensures GoesAs(sh, x, 1, IssueAcquire(7, false), to, y)
  {
    assert sh.wrote[TAKEN := 100] == to.wrote;
  }

  lemma GoesTook()
    ensures GoesAs(CONTESTED, TAKING, 1, LandAcquire, CONTESTED.(file := Some(STOLEN)), TOOK)
  {
  }

  lemma BeginsTwo()
    ensures Run([System(START, [IDLE, IDLE])])
  {
  }

  lemma AcquiresBesideAnother() returns (r: seq<System>)
    ensures Run(r) && r[|r| - 1] == System(LOCKED, [HOLDING, IDLE])
  {
    hide Run, GoesAs, Moves;
    BeginsTwo();
    r := [System(START, [IDLE, IDLE])];
    GoesBoot();
    r := ThenOne(r, START, [IDLE, IDLE], 0, Boot(100, false, false), START, WATCHING);
    GoesBid();
    r := ThenOne(r, START, [WATCHING, IDLE], 0, IssueAcquire(7, true), ISSUED, BIDDING);
    GoesLand();
    r := ThenOne(r, ISSUED, [BIDDING, IDLE], 0, LandAcquire, LOCKED, BID);
    GoesCheck();
    r := ThenOne(r, LOCKED, [BID, IDLE], 0, CheckAcquire, LOCKED, CHECKED);
    GoesEnter(LOCKED, CHECKED, HOLDING);
    r := ThenOne(r, LOCKED, [CHECKED, IDLE], 0, Enter, LOCKED, HOLDING);
  }

  /** Time passes while no payload command runs, whatever deadlines there are. */
  lemma TimePasses(r: seq<System>, sh: Shared, xs: seq<Client>, d: nat) returns (t: seq<System>)
    requires Run(r) && r[|r| - 1] == System(sh, xs) && forall x :: x in xs ==> !PayloadRunning(x)
    ensures Run(t) && |t| > 1 && t == r + [System(sh.(now := sh.now + d), xs)]
  {
    hide Initial, Moves, PayloadRunning;
    t := r + [System(sh.(now := sh.now + d), xs)];
    assert CanTick(System(sh, xs), d);
    assert Ticks(System(sh, xs), System(sh.(now := sh.now + d), xs));
  }

  /** A run in which one client takes the lock of another, a TTL after it noted it. */
  lemma LockCanBeTaken() returns (r: seq<System>)
    ensures Run(r) && |r| > 1 && |r[|r| - 2].clients| == 2
    ensures var s, t := r[|r| - 2], r[|r| - 1];
            Guarded(s.clients[0]) && OwnedBy(s.shared.file, s.clients[0].owner) && OwnedBy(t.shared.file, s.clients[1].owner)
            && Moves(s, t, 1, LandAcquire)
  {
    hide Run, GoesAs, Moves;
    r := AcquiresBesideAnother();
    GoesSee();
    r := ThenOne(r, LOCKED, [HOLDING, IDLE], 1, Boot(100, false, false), LOCKED, SEEING);
    GoesNote();
    r := ThenOne(r, LOCKED, [HOLDING, SEEING], 1, Note, LOCKED, NOTING);
    r := TimePasses(r, LOCKED, [HOLDING, NOTING], 100);
    GoesTake(LATER, NOTING, CONTESTED, TAKING);
    r := ThenOne(r, LATER, [HOLDING, NOTING], 1, IssueAcquire(7, false), CONTESTED, TAKING);
    GoesTook();
    r := ThenOne(r, CONTESTED, [HOLDING, TAKING], 1, LandAcquire, CONTESTED.(file := Some(STOLEN)), TOOK);
  }
}
