/** What the watching loop guarantees over every script of inputs. */
module EventLoopTheorems {
  import opened Prelude
  import opened EventLoop

  // ---------------------------------------------------------------- what must still be synced

  /** The event was taken before a sync began that took its path and succeeded. */
  ghost predicate Covered(log: Log, i: nat)
    requires i < |log.taken|
  {
    exists n :: 0 <= n < |log.synced| && CoveredBy(log, i, n)
  }

  predicate CoveredBy(log: Log, i: nat, n: nat)
    requires i < |log.taken| && n < |log.synced|
  {
    i < log.synced[n].began && log.taken[i].path in log.synced[n].batch
  }

  ghost predicate Uncovered(config: Config, log: Log, p: string, i: nat) {
    i < |log.taken| && log.taken[i].path == p && !Skipped(config, p) && !Covered(log, i)
  }

  /** Some payload event on the path, among those numbered from `lo` below `hi`, is not yet covered. */
  ghost predicate Outstanding(config: Config, log: Log, p: string, lo: nat, hi: nat) {
    exists i :: lo <= i < hi && Uncovered(config, log, p, i)
  }

  /** The newest change on a path. */
  function Newest(taken: seq<Change>, p: string): Option<Change> {
    if taken == [] then None
    else if taken[|taken| - 1].path == p then Some(taken[|taken| - 1])
    else Newest(taken[..|taken| - 1], p)
  }

  lemma {:induction false} NewestOfPrefix(taken: seq<Change>, n: nat, p: string)
    requires n <= |taken| && (forall i :: n <= i < |taken| ==> taken[i].path != p)
    ensures Newest(taken, p) == Newest(taken[..n], p)
  {
    if n == |taken| {
      assert taken[..n] == taken;
    } else {
      var before := taken[..|taken| - 1];
      NewestOfPrefix(before, n, p);
      assert before[..n] == taken[..n];
    }
  }

  lemma NewestStep(taken: seq<Change>, item: Change, p: string)
    ensures Newest(taken + [item], p) == if item.path == p then Some(item) else Newest(taken, p)
  {
    assert (taken + [item])[..|taken|] == taken;
  }

  /** Every sync began before what follows it, and none before events that it did not see. */
  ghost predicate Ordered(w: World) {
    && w.log.began <= |w.log.taken|
    && (forall n :: 0 <= n < |w.log.synced| ==> w.log.synced[n].began <= w.log.began)
  }

  function Since(w: World): nat {
    if w.loop.flight.Some? then w.log.began else 0
  }

  /** A path is pending exactly when an event on it, from those that an active sync has not
      taken, is outstanding; what is pending is the newest change. */
  ghost predicate PendingOk(config: Config, w: World) {
    forall p :: && (p in w.loop.pending <==> Outstanding(config, w.log, p, Since(w), |w.log.taken|))
                && (p in w.loop.pending ==> Newest(w.log.taken, p) == Some(w.loop.pending[p]))
  }

  ghost predicate FlightOk(config: Config, w: World)
    requires w.log.began <= |w.log.taken|
  {
    w.loop.flight.Some? ==>
      forall p :: && (p in w.loop.flight.value <==> Outstanding(config, w.log, p, 0, w.log.began))
                  && (p in w.loop.flight.value ==>
                        Newest(w.log.taken[..w.log.began], p) == Some(w.loop.flight.value[p]))
  }

  /** No change is lost, and none is kept once it is synced. */
  ghost predicate NothingLost(config: Config, w: World) {
    Ordered(w) && (!w.loop.lockFailed ==> PendingOk(config, w) && FlightOk(config, w))
  }

  // ---------------------------------------------------------------- every step keeps it

  lemma BeginLosesNothing(config: Config, taken: seq<Change>, command: Command)
    ensures NothingLost(config, Begin(config, taken, command))
  {
    var w := Begin(config, taken, command);
    forall p ensures p in w.loop.pending <==> Outstanding(config, w.log, p, 0, |taken|)
             ensures p in w.loop.pending ==> Newest(taken, p) == Some(w.loop.pending[p]) {
      QueuedAt(config, taken, p);
      if i: nat :| i < |taken| && taken[i].path == p && !Skipped(config, p) { assert Uncovered(config, w.log, p, i); }
    }
  }

  lemma {:induction false} QueuedAt(config: Config, taken: seq<Change>, p: string)
    ensures p in QueueAll(config, taken) <==> !Skipped(config, p) && exists i :: 0 <= i < |taken| && taken[i].path == p
    ensures p in QueueAll(config, taken) ==> Newest(taken, p) == Some(QueueAll(config, taken)[p])
  {
    if taken != [] {
      var before := taken[..|taken| - 1];
      QueuedAt(config, before, p);
      assert taken == before + [taken[|taken| - 1]];
      if i :| 0 <= i < |before| && before[i].path == p { assert taken[i].path == p; }
    }
  }

  /** The log grows by an event, which no earlier sync covers. */
  lemma EventOutstanding(config: Config, w: World, item: Change, p: string, lo: nat)
    requires Ordered(w) && lo <= |w.log.taken|
    ensures var log := w.log.(taken := w.log.taken + [item]);
            && (Outstanding(config, log, p, lo, |log.taken|) <==>
                  Outstanding(config, w.log, p, lo, |w.log.taken|) || (item.path == p && !Skipped(config, p)))
            && (forall hi: nat :: hi <= |w.log.taken| ==>
                  (Outstanding(config, log, p, 0, hi) <==> Outstanding(config, w.log, p, 0, hi)))
  {
    var log := w.log.(taken := w.log.taken + [item]);
    forall i: nat | i < |w.log.taken| ensures Uncovered(config, log, p, i) <==> Uncovered(config, w.log, p, i) {
      EventCovered(w.log, item, i);
    }
    var n := |w.log.taken|;
    assert !Covered(log, n);
    if item.path == p && !Skipped(config, p) { assert Uncovered(config, log, p, n); }
  }

  lemma EventCovered(log: Log, item: Change, i: nat)
    requires i < |log.taken|
    ensures Covered(log.(taken := log.taken + [item]), i) <==> Covered(log, i)
  {
    var after := log.(taken := log.taken + [item]);
    if Covered(log, i) {
      var n :| 0 <= n < |log.synced| && CoveredBy(log, i, n);
      assert CoveredBy(after, i, n);
    }
    if Covered(after, i) {
      var n :| 0 <= n < |log.synced| && CoveredBy(after, i, n);
      assert CoveredBy(log, i, n);
    }
  }

  function Appended(config: Config, w: World, item: Change): World {
    World(w.loop.(pending := Queue(config, w.loop.pending, item)), w.log.(taken := w.log.taken + [item]))
  }

  lemma AppendKeeps(config: Config, w: World, item: Change)
    requires NothingLost(config, w)
    ensures NothingLost(config, Appended(config, w, item))
  {
    var t := Appended(config, w, item);
    if !w.loop.lockFailed {
      forall p ensures p in t.loop.pending <==> Outstanding(config, t.log, p, Since(t), |t.log.taken|)
               ensures p in t.loop.pending ==> Newest(t.log.taken, p) == Some(t.loop.pending[p]) {
        EventOutstanding(config, w, item, p, Since(w));
        NewestStep(w.log.taken, item, p);
        hide Outstanding, Newest;
      }
      if w.loop.flight.Some? {
        forall p ensures Outstanding(config, t.log, p, 0, w.log.began) <==> Outstanding(config, w.log, p, 0, w.log.began) {
          EventOutstanding(config, w, item, p, 0);
        }
        assert t.log.taken[..w.log.began] == w.log.taken[..w.log.began];
      }
    }
  }

  lemma StartKeeps(config: Config, w: World, final: bool)
    requires NothingLost(config, w)
    ensures NothingLost(config, Started(w, final))
  {
    if CanLaunch(w.loop) && !w.loop.lockFailed {
      var t := Started(w, final);
      forall p ensures Outstanding(config, t.log, p, 0, t.log.began) <==> Outstanding(config, w.log, p, 0, |w.log.taken|) {
        BeganIsFree(config, w.log, |w.log.taken|, p);
      }
      assert w.log.taken[..t.log.began] == w.log.taken;
    }
  }

  /** When a sync last began does not matter to what is covered. */
  lemma BeganIsFree(config: Config, log: Log, began: nat, p: string)
    ensures forall lo, hi :: Outstanding(config, log.(began := began), p, lo, hi) <==> Outstanding(config, log, p, lo, hi)
  {
    var after := log.(began := began);
    forall i: nat | i < |log.taken| ensures Covered(after, i) <==> Covered(log, i) {
      if Covered(log, i) {
        var n :| 0 <= n < |log.synced| && CoveredBy(log, i, n);
        assert CoveredBy(after, i, n);
      }
      if Covered(after, i) {
        var n :| 0 <= n < |log.synced| && CoveredBy(after, i, n);
        assert CoveredBy(log, i, n);
      }
    }
    assert forall i :: Uncovered(config, after, p, i) <==> Uncovered(config, log, p, i);
  }

  /** A success covers exactly the events that its sync had taken, on the paths of its batch. */
  lemma SuccessCovers(log: Log, batch: Batch, i: nat)
    requires i < |log.taken|
    ensures Covered(log.(synced := log.synced + [Success(log.began, batch)]), i) <==>
            Covered(log, i) || (i < log.began && log.taken[i].path in batch)
  {
    var after := log.(synced := log.synced + [Success(log.began, batch)]);
    if Covered(log, i) {
      var n :| 0 <= n < |log.synced| && CoveredBy(log, i, n);
      assert CoveredBy(after, i, n);
    }
    if i < log.began && log.taken[i].path in batch { assert CoveredBy(after, i, |log.synced|); }
    if Covered(after, i) {
      var n :| 0 <= n < |after.synced| && CoveredBy(after, i, n);
      if n < |log.synced| { assert CoveredBy(log, i, n); }
    }
  }

  lemma SuccessKeeps(config: Config, w: World)
    requires NothingLost(config, w) && w.loop.flight.Some? && !w.loop.lockFailed
    ensures var log := w.log.(synced := w.log.synced + [Success(w.log.began, w.loop.flight.value)]);
            NothingLost(config, World(w.loop.(flight := None), log))
  {
    var batch := w.loop.flight.value;
    var t := World(w.loop.(flight := None), w.log.(synced := w.log.synced + [Success(w.log.began, batch)]));
    forall p ensures p in t.loop.pending <==> Outstanding(config, t.log, p, 0, |t.log.taken|) {
      SuccessLeaves(config, w, p);
    }
  }

  lemma SuccessLeaves(config: Config, w: World, p: string)
    requires NothingLost(config, w) && w.loop.flight.Some? && !w.loop.lockFailed
    ensures Outstanding(config, w.log.(synced := w.log.synced + [Success(w.log.began, w.loop.flight.value)]), p, 0, |w.log.taken|) <==>
            Outstanding(config, w.log, p, w.log.began, |w.log.taken|)
  {
    var batch := w.loop.flight.value;
    var after := w.log.(synced := w.log.synced + [Success(w.log.began, batch)]);
    forall i: nat | i < |w.log.taken| ensures Uncovered(config, after, p, i) <==> Uncovered(config, w.log, p, i) && i >= w.log.began {
      SuccessCovers(w.log, batch, i);
      if Uncovered(config, w.log, p, i) && i < w.log.began { assert Outstanding(config, w.log, p, 0, w.log.began); }
    }
  }

  lemma FailureKeeps(config: Config, w: World)
    requires NothingLost(config, w) && w.loop.flight.Some? && !w.loop.lockFailed
    ensures NothingLost(config, w.(loop := w.loop.(flight := None, pending := w.loop.flight.value + w.loop.pending)))
  {
    var t := w.(loop := w.loop.(flight := None, pending := w.loop.flight.value + w.loop.pending));
    forall p ensures p in t.loop.pending <==> Outstanding(config, t.log, p, 0, |t.log.taken|)
             ensures p in t.loop.pending ==> Newest(t.log.taken, p) == Some(t.loop.pending[p]) {
      OutstandingSplits(config, w.log, p, w.log.began);
      if p in w.loop.flight.value && p !in w.loop.pending {
        NothingNewer(config, w, p);
        NewestOfPrefix(w.log.taken, w.log.began, p);
      }
    }
  }

  lemma OutstandingSplits(config: Config, log: Log, p: string, n: nat)
    requires n <= |log.taken|
    ensures Outstanding(config, log, p, 0, |log.taken|) <==>
            Outstanding(config, log, p, 0, n) || Outstanding(config, log, p, n, |log.taken|)
  {
    if i :| 0 <= i < |log.taken| && Uncovered(config, log, p, i) {
      assert i < n || n <= i;
    }
  }

  /** A path of the active batch that is not pending again has seen no event since. */
  lemma NothingNewer(config: Config, w: World, p: string)
    requires NothingLost(config, w) && w.loop.flight.Some? && !w.loop.lockFailed
    requires p in w.loop.flight.value && p !in w.loop.pending
    ensures forall i :: w.log.began <= i < |w.log.taken| ==> w.log.taken[i].path != p
  {
    var k :| 0 <= k < w.log.began && Uncovered(config, w.log, p, k);
    forall i: nat | w.log.began <= i < |w.log.taken| ensures w.log.taken[i].path != p {
      if w.log.taken[i].path == p {
        assert !Covered(w.log, i);
        assert Uncovered(config, w.log, p, i);
      }
    }
  }

  /** Only these variables matter to what is lost. */
  lemma SameKeeps(config: Config, w: World, s: Loop)
    requires NothingLost(config, w) && s.pending == w.loop.pending && s.flight == w.loop.flight
    requires w.loop.lockFailed ==> s.lockFailed
    ensures NothingLost(config, w.(loop := s))
  {
  }

  /** Timers and delays aside, a result empties the flight, and a failure puts its batch back. */
  lemma RetryChanges(s: Loop, batch: Batch)
    ensures var t := Retried(s, batch); t.pending == batch + s.pending && t.flight == s.flight && t.lockFailed == s.lockFailed
  {
  }

  lemma RearmChanges(config: Config, s: Loop)
    ensures var t := Rearmed(config, s); t.pending == s.pending && t.flight == s.flight && t.lockFailed == s.lockFailed
  {
  }

  lemma ResultKeeps(config: Config, w: World, outcome: Outcome)
    requires NothingLost(config, w) && w.loop.flight.Some?
    ensures NothingLost(config, Finished(config, w, outcome))
  {
    hide PendingOk, FlightOk, Retried, Rearmed;
    var idle, batch := w.loop.(flight := None), w.loop.flight.value;
    RetryChanges(idle, batch);
    RearmChanges(config, idle);
    if w.loop.lockFailed || outcome.OwnershipLost? {
    } else if outcome.Synced? {
      SuccessKeeps(config, w);
      var log := w.log.(synced := w.log.synced + [Success(w.log.began, batch)]);
      hide NothingLost;
      SameKeeps(config, World(idle, log), Rearmed(config, idle));
    } else {
      FailureKeeps(config, w);
      hide NothingLost;
      SameKeeps(config, w.(loop := idle.(pending := batch + idle.pending)), Retried(idle, batch));
    }
  }

  lemma AbortLoses(s: Loop)
    ensures Aborted(s).pending == s.pending && Aborted(s).flight == s.flight && (s.lockFailed ==> Aborted(s).lockFailed)
  {
  }

  lemma SignalLoses(s: Loop)
    ensures Signalled(s).pending == s.pending && Signalled(s).flight == s.flight && Signalled(s).lockFailed == s.lockFailed
  {
  }

  lemma TakenKeeps(config: Config, w: World, item: Change)
    requires NothingLost(config, w)
    ensures NothingLost(config, Taken(config, w, item))
  {
    hide NothingLost, Started, Queue;
    AppendKeeps(config, w, item);
    var t := Appended(config, w, item);
    if t.loop.syncReady && t.loop.flight.None? && !t.loop.stopping {
      SameKeeps(config, t, t.loop.(syncReady := false));
      StartKeeps(config, t.(loop := t.loop.(syncReady := false)), false);
    }
  }

  lemma TimerKeeps(config: Config, w: World)
    requires NothingLost(config, w) && w.loop.armed.Some?
    ensures NothingLost(config, Step(config, w, Timer))
  {
    hide NothingLost, Started;
    var s := w.loop.(armed := None);
    SameKeeps(config, w, s);
    if s.pending != map[] { StartKeeps(config, w.(loop := s), false); } else { SameKeeps(config, w, s.(syncReady := true)); }
  }

  lemma StepKeeps(config: Config, w: World, input: Input)
    requires NothingLost(config, w) && Selectable(w.loop, input)
    ensures NothingLost(config, Step(config, w, input))
  {
    hide NothingLost, Finished, Taken, Aborted, Signalled;
    match input {
      case Event(item) => TakenKeeps(config, w, item);
      case Timer => TimerKeeps(config, w);
      case Result(outcome) => ResultKeeps(config, w, outcome);
      case LockError(_) =>
        AbortLoses(w.loop);
        SameKeeps(config, w, Step(config, w, input).loop);
      case Signal =>
        SignalLoses(w.loop);
        SameKeeps(config, w, Signalled(w.loop));
      case _ => SameKeeps(config, w, Step(config, w, input).loop);
    }
  }

  lemma {:induction false} ExecuteKeeps(config: Config, w: World, inputs: seq<Input>)
    requires NothingLost(config, w)
    ensures NothingLost(config, Execute(config, w, inputs).0)
    decreases inputs
  {
    hide NothingLost, Step, Selectable, Started, Verdict;
    StartKeeps(config, w, true);
    var t := Head(w);
    if Verdict(w.loop).None? && inputs != [] {
      if Selectable(t.loop, inputs[0]) {
        StepKeeps(config, t, inputs[0]);
        ExecuteKeeps(config, Step(config, t, inputs[0]), inputs[1..]);
      } else {
        ExecuteKeeps(config, t, inputs[1..]);
      }
    }
  }

  /** No change is lost: until the lock fails, a payload event taken since the watcher started is
      pending, in the active batch, or covered by a batch that began later and succeeded; and a path
      is held only for such an event, with its newest change. */
  lemma NoChangeLost(config: Config, drained: seq<Change>, command: Command, inputs: seq<Input>, i: nat)
    requires var w := Execute(config, Begin(config, drained, command), inputs).0; i < |w.log.taken| && !w.loop.lockFailed
    requires var w := Execute(config, Begin(config, drained, command), inputs).0; !Skipped(config, w.log.taken[i].path)
    ensures var w := Execute(config, Begin(config, drained, command), inputs).0;
            var p := w.log.taken[i].path;
            || (p in w.loop.pending && Some(w.loop.pending[p]) == Newest(w.log.taken, p))
            || (w.loop.flight.Some? && p in w.loop.flight.value && i < w.log.began)
            || Covered(w.log, i)
  {
    var w := Execute(config, Begin(config, drained, command), inputs).0;
    hide Execute, Begin, QueueAll;
    BeginLosesNothing(config, drained, command);
    ExecuteKeeps(config, Begin(config, drained, command), inputs);
    if !Covered(w.log, i) {
      assert Uncovered(config, w.log, w.log.taken[i].path, i);
      if i < Since(w) {
        assert Outstanding(config, w.log, w.log.taken[i].path, 0, w.log.began);
      } else {
        assert Outstanding(config, w.log, w.log.taken[i].path, Since(w), |w.log.taken|);
      }
    }
  }

  lemma {:induction false} ExitIsVerdict(config: Config, w: World, inputs: seq<Input>)
    ensures var (t, exit) := Execute(config, w, inputs); exit.Some? ==> Verdict(t.loop) == exit
    decreases inputs
  {
    if Verdict(w.loop).None? && inputs != [] {
      var t := Head(w);
      ExitIsVerdict(config, if Selectable(t.loop, inputs[0]) then Step(config, t, inputs[0]) else t, inputs[1..]);
    }
  }

  lemma CoveredOrOutstanding(config: Config, log: Log, i: nat)
    requires i < |log.taken| && !Skipped(config, log.taken[i].path)
    ensures Covered(log, i) || Outstanding(config, log, log.taken[i].path, 0, |log.taken|)
  {
    assert Covered(log, i) || Uncovered(config, log, log.taken[i].path, i);
  }

  /** The session is finished only with the watcher drained, nothing in flight, and every payload
      event covered; it fails for want of a final sync exactly on the paths still outstanding. */
  lemma FinishMeansSynced(config: Config, drained: seq<Change>, command: Command, inputs: seq<Input>)
    ensures var (w, exit) := Execute(config, Begin(config, drained, command), inputs);
            exit.Some? && exit.value.Finish? ==>
              && w.loop.watcherClosed && w.loop.errorsClosed && w.loop.flight.None? && w.loop.pending == map[]
              && !w.loop.lockFailed && !w.loop.watchFailed && !w.loop.running
              && forall i :: 0 <= i < |w.log.taken| && !Skipped(config, w.log.taken[i].path) ==> Covered(w.log, i)
    ensures var (w, exit) := Execute(config, Begin(config, drained, command), inputs);
            exit == Some(FinalSyncFailed) ==>
              && w.loop.finalAttempted && w.loop.pending != map[]
              && forall p :: p in w.loop.pending <==> Outstanding(config, w.log, p, 0, |w.log.taken|)
  {
    var (w, exit) := Execute(config, Begin(config, drained, command), inputs);
    ExitIsVerdict(config, Begin(config, drained, command), inputs);
    BeginLosesNothing(config, drained, command);
    ExecuteKeeps(config, Begin(config, drained, command), inputs);
    hide Execute, Begin, QueueAll;
    if exit.Some? && exit.value.Finish? {
      forall i: nat | i < |w.log.taken| && !Skipped(config, w.log.taken[i].path) ensures Covered(w.log, i) {
        CoveredOrOutstanding(config, w.log, i);
        assert w.log.taken[i].path !in w.loop.pending;
      }
    }
  }

  // ---------------------------------------------------------------- interval mode

  /** Until shutdown an interval loop is in one of three modes: syncing, waiting for its timer, or
      ready to sync at the first change. */
  predicate Syncing(s: Loop) {
    s.flight.Some? && s.armed.None? && !s.syncReady
  }

  predicate Waiting(s: Loop) {
    s.flight.None? && s.armed.Some? && !s.syncReady
  }

  predicate AtRest(s: Loop) {
    s.flight.None? && s.armed.None? && s.syncReady && s.pending == map[]
  }

  /** None of them: nothing will start a sync before shutdown. */
  predicate Stalled(s: Loop) {
    s.flight.None? && s.armed.None? && !s.syncReady
  }

  predicate Live(s: Loop) {
    Syncing(s) || Waiting(s) || AtRest(s)
  }

  /** Somewhere in the run a metadata event is taken while the loop is at rest. */
  predicate MetadataAtRest(config: Config, w: World, inputs: seq<Input>)
    decreases inputs
  {
    Verdict(w.loop).None? && inputs != [] &&
    (var t := Head(w);
     || (inputs[0].Event? && Selectable(t.loop, inputs[0]) && AtRest(t.loop) && !t.loop.stopping && Skipped(config, inputs[0].item.path))
     || MetadataAtRest(config, if Selectable(t.loop, inputs[0]) then Step(config, t, inputs[0]) else t, inputs[1..]))
  }

  /** A failed lock has stopped the loop, and a stopped loop has no timer. */
  predicate Settled(s: Loop) {
    (s.lockFailed ==> s.stopping) && (s.stopping ==> s.armed.None?)
  }

  lemma SettledStep(config: Config, w: World, input: Input)
    requires Settled(w.loop) && Selectable(w.loop, input)
    ensures Settled(Step(config, w, input).loop)
    ensures w.loop.stopping ==> Step(config, w, input).loop.stopping
  {
    match input
    case Event(_) =>
    case EventsClosed =>
    case WatchError(_) =>
    case ErrorsClosed =>
    case LockError(_) =>
    case Timer =>
    case Result(outcome) =>
      match outcome {
        case Synced =>
        case Failed =>
        case OwnershipLost =>
      }
    case Exited(_) =>
    case Signal =>
  }

  lemma IntervalStep(config: Config, w: World, input: Input)
    requires config.interval > 0 && Selectable(w.loop, input) && Settled(w.loop) && (Live(w.loop) || Stalled(w.loop))
    requires !Step(config, w, input).loop.stopping
    ensures var t := Step(config, w, input).loop;
            !w.loop.stopping && (Live(t) || Stalled(t)) &&
            (Stalled(t) <==> Stalled(w.loop) || (input.Event? && AtRest(w.loop) && Skipped(config, input.item.path)))
  {
    hide Signalled, Aborted, Started, Live, Stalled, AtRest, Settled, Syncing, Waiting;
    SettledStep(config, w, input);
    Modes(w.loop);
    Modes(Step(config, w, input).loop);
    if input.Event? {
      hide Taken;
      IntervalEvent(config, w, input.item);
    } else if input.Result? {
      hide Finished;
      IntervalResult(config, w, input.outcome);
    } else if input.Timer? {
      IntervalTimer(config, w);
    } else {
      IntervalOther(config, w, input);
    }
  }

  /** A signal always stops the loop. */
  lemma SignalEffect(s: Loop)
    ensures Signalled(s).stopping && Signalled(s).retryDelay == s.retryDelay
  {
  }

  lemma AbortEffect(s: Loop)
    ensures (Aborted(s) == s || Aborted(s).stopping) && Aborted(s).retryDelay == s.retryDelay
  {
  }

  lemma Modes(s: Loop)
    ensures !(Live(s) && Stalled(s)) && (Syncing(s) || Waiting(s) || AtRest(s) ==> Live(s))
    ensures (Live(s) || Stalled(s)) && s.flight.Some? ==> Syncing(s)
    ensures (Live(s) || Stalled(s)) && s.armed.Some? ==> Live(s)
  {
  }

  lemma IntervalOther(config: Config, w: World, input: Input)
    requires Selectable(w.loop, input) && !input.Event? && !input.Result? && !input.Timer?
    requires !w.loop.stopping && !Step(config, w, input).loop.stopping && (Live(w.loop) || Stalled(w.loop))
    ensures var t := Step(config, w, input).loop;
            (Live(t) || Stalled(t)) && (Stalled(t) <==> Stalled(w.loop))
  {
    hide Signalled, Aborted, Live, Stalled;
    match input
    case EventsClosed => SameMode(w.loop, w.loop.(watcherClosed := true));
    case ErrorsClosed => SameMode(w.loop, w.loop.(errorsClosed := true));
    case WatchError(_) =>
    case LockError(_) => AbortEffect(w.loop);
    case Exited(_) =>
    case Signal => SignalEffect(w.loop);
  }

  lemma SameMode(s: Loop, t: Loop)
    requires t.flight == s.flight && t.armed == s.armed && t.syncReady == s.syncReady && t.pending == s.pending
    ensures Live(t) == Live(s) && Stalled(t) == Stalled(s) && AtRest(t) == AtRest(s)
  {
  }

  lemma IntervalTimer(config: Config, w: World)
    requires w.loop.armed.Some? && Live(w.loop)
    ensures Live(Step(config, w, Timer).loop)
  {
    hide Started;
    var s := w.loop.(armed := None);
    if s.pending == map[] { assert AtRest(s.(syncReady := true)); } else { StartedSyncs(World(s, w.log)); }
  }

  lemma StartedSyncs(w: World)
    requires w.loop.pending != map[] && w.loop.flight.None? && w.loop.armed.None? && !w.loop.syncReady
    ensures Syncing(Started(w, false).loop)
  {
  }

  lemma IntervalEvent(config: Config, w: World, item: Change)
    requires !w.loop.stopping && (Live(w.loop) || Stalled(w.loop))
    ensures var t := Taken(config, w, item).loop;
            (Live(t) || Stalled(t)) && (Stalled(t) <==> Stalled(w.loop) || (AtRest(w.loop) && Skipped(config, item.path)))
  {
    assert !Skipped(config, item.path) ==> item.path in Queue(config, w.loop.pending, item);
  }

  lemma IntervalResult(config: Config, w: World, outcome: Outcome)
    requires config.interval > 0 && Syncing(w.loop) && Settled(w.loop) && !Finished(config, w, outcome).loop.stopping
    ensures Waiting(Finished(config, w, outcome).loop)
  {
    match outcome
    case Synced =>
    case Failed =>
    case OwnershipLost =>
  }

  /** Stopping is for good. */
  lemma {:induction false} StoppingStays(config: Config, w: World, inputs: seq<Input>)
    requires Settled(w.loop)
    ensures Settled(Execute(config, w, inputs).0.loop)
    ensures w.loop.stopping ==> Execute(config, w, inputs).0.loop.stopping
    decreases inputs
  {
    if Verdict(w.loop).None? && inputs != [] {
      var t := Head(w);
      if Selectable(t.loop, inputs[0]) {
        SettledStep(config, t, inputs[0]);
        StoppingStays(config, Step(config, t, inputs[0]), inputs[1..]);
      } else {
        StoppingStays(config, t, inputs[1..]);
      }
    }
  }

  lemma {:induction false} IntervalRun(config: Config, w: World, inputs: seq<Input>)
    requires config.interval > 0 && Settled(w.loop) && (Live(w.loop) || Stalled(w.loop))
    requires !Execute(config, w, inputs).0.loop.stopping
    ensures var t := Execute(config, w, inputs).0.loop;
            (Live(t) || Stalled(t)) && (Stalled(t) <==> Stalled(w.loop) || MetadataAtRest(config, w, inputs))
    decreases inputs
  {
    hide Step, Selectable, Live, Stalled, AtRest;
    StoppingStays(config, w, inputs);
    if inputs != [] {
      if Selectable(w.loop, inputs[0]) {
        var t := Step(config, w, inputs[0]);
        SettledStep(config, w, inputs[0]);
        StoppingStays(config, t, inputs[1..]);
        IntervalStep(config, w, inputs[0]);
        IntervalRun(config, t, inputs[1..]);
      } else {
        IntervalRun(config, w, inputs[1..]);
      }
    }
  }

  /** Interval mode keeps syncing, is in exactly one of its modes at every loop head, and stalls if
      and only if a metadata event is dequeued while it is at rest. */
  lemma IntervalModeStallsIff(config: Config, drained: seq<Change>, command: Command, inputs: seq<Input>)
    requires config.interval > 0 && !Execute(config, Begin(config, drained, command), inputs).0.loop.stopping
    ensures var s := Execute(config, Begin(config, drained, command), inputs).0.loop;
            if MetadataAtRest(config, Begin(config, drained, command), inputs) then Stalled(s) else Live(s)
  {
    StoppingStays(config, Begin(config, drained, command), inputs);
    IntervalRun(config, Begin(config, drained, command), inputs);
  }

  /** A run that stalls: the timer fires with nothing to do, the state file's own event arrives, and
      then no change is synced although one is pending. */
  lemma StallingRun(config: Config, state: Change, item: Change)
    requires config.interval > 0 && Skipped(config, state.path) && !Skipped(config, item.path)
    ensures var w := Execute(config, Begin(config, [], NoCommand), [Timer, Event(state), Event(item)]).0;
            Stalled(w.loop) && !w.loop.stopping && w.loop.pending == map[item.path := item]
  {
    var inputs := [Timer, Event(state), Event(item)];
    var w := Begin(config, [], NoCommand);
    assert inputs[1..] == [Event(state), Event(item)] && inputs[1..][1..] == [Event(item)] && inputs[1..][1..][1..] == [];
    var a := Step(config, w, Timer);
    var b := Step(config, a, Event(state));
    var c := Step(config, b, Event(item));
    assert Execute(config, c, []) == (c, None);
    assert Execute(config, b, inputs[1..][1..]) == (c, None);
    assert Execute(config, a, inputs[1..]) == (c, None);
  }

  // ---------------------------------------------------------------- retries

  /** The delay before the next retry, after so many failures in a row. */
  function Backoff(failures: nat): nat {
    if failures == 0 then INITIAL_RETRY_DELAY else Min(2 * Backoff(failures - 1), MAX_RETRY_DELAY)
  }

  /** Failures since the last success, outside shutdown. */
  function Failures(config: Config, w: World, inputs: seq<Input>, before: nat): nat
    decreases inputs
  {
    if Verdict(w.loop).Some? || inputs == [] then before
    else
      var t := Head(w);
      if !Selectable(t.loop, inputs[0]) then Failures(config, t, inputs[1..], before)
      else
        Failures(config, Step(config, t, inputs[0]), inputs[1..],
                 if inputs[0] == Result(Synced) then 0
                 else if inputs[0] == Result(Failed) && !t.loop.stopping then before + 1
                 else before)
  }

  lemma {:induction false} DelayIsBackoff(config: Config, w: World, inputs: seq<Input>, before: nat)
    requires w.loop.retryDelay == Backoff(before)
    ensures Execute(config, w, inputs).0.loop.retryDelay == Backoff(Failures(config, w, inputs, before))
    decreases inputs
  {
    if Verdict(w.loop).None? && inputs != [] {
      var t := Head(w);
      assert t.loop.retryDelay == w.loop.retryDelay;
      if Selectable(t.loop, inputs[0]) {
        DelayStep(config, t, inputs[0]);
        DelayIsBackoff(config, Step(config, t, inputs[0]), inputs[1..],
                       if inputs[0] == Result(Synced) then 0
                       else if inputs[0] == Result(Failed) && !t.loop.stopping then before + 1
                       else before);
      } else {
        DelayIsBackoff(config, t, inputs[1..], before);
      }
    }
  }

  lemma DelayStep(config: Config, w: World, input: Input)
    requires Selectable(w.loop, input)
    ensures Step(config, w, input).loop.retryDelay ==
            if input == Result(Synced) then INITIAL_RETRY_DELAY
            else if input == Result(Failed) && !w.loop.stopping then Min(2 * w.loop.retryDelay, MAX_RETRY_DELAY)
            else w.loop.retryDelay
  {
    if input.Result? {
      hide Finished;
      DelayResult(config, w, input.outcome);
    } else {
      DelayKept(config, w, input);
    }
  }

  lemma DelayKept(config: Config, w: World, input: Input)
    requires Selectable(w.loop, input) && !input.Result?
    ensures Step(config, w, input).loop.retryDelay == w.loop.retryDelay
  {
    hide Signalled, Aborted, Taken, Started;
    match input
    case Event(item) => TakenKeepsDelay(config, w, item);
    case LockError(_) => AbortEffect(w.loop);
    case Timer => StartedKeepsDelay(World(w.loop.(armed := None), w.log));
    case Signal => SignalEffect(w.loop);
    case _ =>
  }

  lemma TakenKeepsDelay(config: Config, w: World, item: Change)
    ensures Taken(config, w, item).loop.retryDelay == w.loop.retryDelay
  {
  }

  lemma StartedKeepsDelay(w: World)
    ensures Started(w, false).loop.retryDelay == w.loop.retryDelay
  {
  }

  /** A failure arms the timer with the delay and doubles it. */
  lemma DelayResult(config: Config, w: World, outcome: Outcome)
    requires w.loop.flight.Some?
    ensures var t := Finished(config, w, outcome).loop;
            match outcome
            case Synced => t.retryDelay == INITIAL_RETRY_DELAY
            case OwnershipLost => t.retryDelay == w.loop.retryDelay
            case Failed => if w.loop.stopping then t.retryDelay == w.loop.retryDelay
                           else t.armed == Some(w.loop.retryDelay) && t.retryDelay == Min(2 * w.loop.retryDelay, MAX_RETRY_DELAY)
  {
  }

  /** The delay doubles from one second up to a minute: after six failures in a row it stays there. */
  lemma {:induction false} BackoffValue(failures: nat)
    ensures Backoff(failures) == [1, 2, 4, 8, 16, 32, 60][if failures < 6 then failures else 6] * SECOND
  {
    if failures > 0 { BackoffValue(failures - 1); }
  }

  // ---------------------------------------------------------------- shutdown

  /** How many sync results the shutdown still waits for, at most. */
  function Awaited(s: Loop): nat {
    (if s.flight.Some? then 1 else 0) + (if s.finalAttempted then 0 else 1)
  }

  predicate Draining(s: Loop) {
    s.stopping && s.watcherClosed && s.errorsClosed && !s.running
  }

  function Results(inputs: seq<Input>): nat {
    if inputs == [] then 0 else (if inputs[0].Result? then 1 else 0) + Results(inputs[1..])
  }

  lemma DrainingStep(config: Config, w: World, input: Input)
    requires Draining(w.loop) && Settled(w.loop) && Selectable(w.loop, input)
    ensures var t := Step(config, w, input).loop;
            Draining(t) && Awaited(t) <= Awaited(w.loop) && (input.Result? ==> Awaited(t) < Awaited(w.loop) && t.flight.None?)
    ensures Head(w).loop.flight.Some? && w.loop.flight.None? ==> Awaited(Head(w).loop) == Awaited(w.loop)
  {
    SettledStep(config, w, input);
    match input
    case Result(outcome) =>
      match outcome {
        case Synced =>
        case Failed =>
        case OwnershipLost =>
      }
    case Signal =>
    case _ =>
  }

  lemma {:induction false} DrainingEnds(config: Config, w: World, inputs: seq<Input>)
    requires Draining(w.loop) && Settled(w.loop) && Results(inputs) >= Awaited(w.loop)
    ensures Execute(config, w, inputs).1.Some?
    decreases inputs
  {
    if Verdict(w.loop).None? && inputs != [] {
      var t := Head(w);
      if Selectable(t.loop, inputs[0]) {
        DrainingStep(config, t, inputs[0]);
        SettledStep(config, t, inputs[0]);
        DrainingEnds(config, Step(config, t, inputs[0]), inputs[1..]);
      } else {
        DrainingEnds(config, t, inputs[1..]);
      }
    }
  }

  /** Shutdown is never held up for more than two sync results: once the watcher is drained and the
      command is gone, the loop ends with the second at the latest. */
  lemma ShutdownEnds(config: Config, drained: seq<Change>, command: Command, before: seq<Input>, inputs: seq<Input>)
    requires Draining(Execute(config, Begin(config, drained, command), before).0.loop) && Results(inputs) >= 2
    ensures Execute(config, Execute(config, Begin(config, drained, command), before).0, inputs).1.Some?
  {
    StoppingStays(config, Begin(config, drained, command), before);
    DrainingEnds(config, Execute(config, Begin(config, drained, command), before).0, inputs);
  }
}
