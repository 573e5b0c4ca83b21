/** The watching side of src/main.go: the startup drain of `initializeWatching` and the select loop
    of `run`. Channels are scripts of inputs; an input whose channel is closed, idle or switched
    off is never selected, so the loop passes over it. */
module EventLoop {
  import opened Prelude
  import opened Rules

  const SECOND: nat := 1_000_000_000
  const INITIAL_RETRY_DELAY: nat := SECOND
  const MAX_RETRY_DELAY: nat := 60 * SECOND

  datatype Change = Change(path: string, isDir: bool, removed: bool)
  type Batch = map<string, Change>

  /** The metadata paths of the state file, if one is kept, and the sync interval (0: at exit only). */
  datatype Config = Config(metadata: Option<(string, string)>, interval: nat)

  datatype Outcome = Synced | Failed | OwnershipLost

  /** One ready case of the select; an error is `true`, a nil error or a closed lock channel `false`. */
  datatype Input =
    | Event(item: Change)
    | EventsClosed
    | WatchError(failed: bool)
    | ErrorsClosed
    | LockError(failed: bool)
    | Timer
    | Result(outcome: Outcome)
    | Exited(code: int)
    | Signal

  datatype Exit = LockFailure | WatchFailure | FinalSyncFailed | Finish(code: int)

  /** The variables of the loop; `flight` is the batch of an active sync, `armed` the delay of an
      armed timer, `running` says that the wrapped command has not exited. */
  datatype Loop = Loop(
    pending: Batch, flight: Option<Batch>, stopping: bool, watcherClosed: bool, errorsClosed: bool,
    finalAttempted: bool, syncReady: bool, abandoned: bool, watchFailed: bool, lockFailed: bool,
    armed: Option<nat>, retryDelay: nat, running: bool, code: int, signals: nat)

  /** What has happened: every event taken, how many there were when the last sync began, and the
      batches that were synced, each with the number of events that preceded it. */
  datatype Log = Log(taken: seq<Change>, began: nat, synced: seq<Success>)
  datatype Success = Success(began: nat, batch: Batch)

  datatype World = World(loop: Loop, log: Log)

  // ---------------------------------------------------------------- what each case does

  predicate Skipped(config: Config, path: string) {
    config.metadata.Some? && IsProtected(config.metadata.value.0, config.metadata.value.1, path)
  }

  function Queue(config: Config, pending: Batch, item: Change): Batch {
    if Skipped(config, item.path) then pending else pending[item.path := item]
  }

  function QueueAll(config: Config, taken: seq<Change>): Batch {
    if taken == [] then map[] else Queue(config, QueueAll(config, taken[..|taken| - 1]), taken[|taken| - 1])
  }

  predicate Selectable(s: Loop, input: Input) {
    match input
    case Event(_) => !s.watcherClosed
    case EventsClosed => !s.watcherClosed
    case WatchError(_) => !s.errorsClosed
    case ErrorsClosed => !s.errorsClosed
    case Timer => s.armed.Some?
    case Result(_) => s.flight.Some?
    case Exited(_) => s.running
    case LockError(_) => true
    case Signal => true
  }

  /** Whether `startSync` starts a sync, and what that makes of the loop's variables. */
  predicate CanLaunch(s: Loop) {
    s.flight.None? && s.pending != map[]
  }

  function Launched(s: Loop, final: bool): Loop {
    s.(flight := Some(s.pending), pending := map[], finalAttempted := final || s.finalAttempted)
  }

  function Started(w: World, final: bool): World {
    if CanLaunch(w.loop) then World(Launched(w.loop, final), w.log.(began := |w.log.taken|)) else w
  }

  function Aborted(s: Loop): Loop {
    if s.lockFailed then s else s.(lockFailed := true, stopping := true, armed := None, syncReady := false)
  }

  function Taken(config: Config, w: World, item: Change): World {
    var s := w.loop.(pending := Queue(config, w.loop.pending, item));
    var log := w.log.(taken := w.log.taken + [item]);
    if s.syncReady && s.flight.None? && !s.stopping then Started(World(s.(syncReady := false), log), false) else World(s, log)
  }

  /** The failed batch goes back, except where a newer event has come, and a retry is timed. */
  function Retried(s: Loop, batch: Batch): Loop {
    var t := s.(pending := batch + s.pending);
    if t.stopping then t
    else t.(syncReady := false, armed := Some(t.retryDelay), retryDelay := Min(2 * t.retryDelay, MAX_RETRY_DELAY))
  }

  function Rearmed(config: Config, s: Loop): Loop {
    var t := s.(retryDelay := INITIAL_RETRY_DELAY);
    if !t.stopping && config.interval > 0 then t.(syncReady := false, armed := Some(config.interval)) else t
  }

  function Finished(config: Config, w: World, outcome: Outcome): World
    requires w.loop.flight.Some?
  {
    var s, batch := w.loop.(flight := None), w.loop.flight.value;
    match outcome
    case OwnershipLost => w.(loop := Aborted(s))
    case Failed => w.(loop := Retried(s, batch))
    case Synced => World(Rearmed(config, s), w.log.(synced := w.log.synced + [Success(w.log.began, batch)]))
  }

  function Signalled(s: Loop): Loop {
    var t := if s.running then s else s.(signals := s.signals + 1);
    if !t.stopping then t.(stopping := true, armed := None, syncReady := false)
    else if t.running || t.abandoned || t.signals < 2 then t
    else t.(abandoned := true, finalAttempted := true)
  }

  /** One case of the select. */
  function Step(config: Config, w: World, input: Input): World
    requires Selectable(w.loop, input)
  {
    var s := w.loop;
    match input
    case Event(item) => Taken(config, w, item)
    case EventsClosed => w.(loop := s.(watcherClosed := true))
    case WatchError(failed) =>
      if failed && !s.watchFailed then w.(loop := s.(watchFailed := true, stopping := true, armed := None)) else w
    case ErrorsClosed => w.(loop := s.(errorsClosed := true))
    case LockError(failed) => if failed then w.(loop := Aborted(s)) else w
    case Timer =>
      var t := s.(armed := None);
      if t.pending != map[] then Started(World(t, w.log), false) else w.(loop := t.(syncReady := true))
    case Result(outcome) => Finished(config, w, outcome)
    case Exited(code) =>
      var t := s.(running := false, code := code);
      w.(loop := if t.stopping then t else t.(stopping := true, armed := None, syncReady := false))
    case Signal => w.(loop := Signalled(s))
  }

  /** Shut down, drained, idle and without a command: the loop may end. */
  predicate Quiet(s: Loop) {
    s.stopping && s.watcherClosed && s.errorsClosed && s.flight.None? && !s.running
  }

  /** The top of the loop: how it ends, or the final sync that it starts first. */
  function Verdict(s: Loop): Option<Exit> {
    if !Quiet(s) then None
    else if s.lockFailed then Some(LockFailure)
    else if s.pending != map[] && !s.finalAttempted then None
    else if s.watchFailed then Some(WatchFailure)
    else if s.pending != map[] then Some(FinalSyncFailed)
    else Some(Finish(s.code))
  }

  function Head(w: World): World {
    if Quiet(w.loop) && Verdict(w.loop).None? then Started(w, true) else w
  }

  /** The whole loop over a script of inputs: the state it leaves, and how it ended if it did. */
  function Execute(config: Config, w: World, inputs: seq<Input>): (World, Option<Exit>)
    decreases inputs
  {
    if Verdict(w.loop).Some? then (w, Verdict(w.loop))
    else if inputs == [] then (Head(w), None)
    else
      var t := Head(w);
      Execute(config, if Selectable(t.loop, inputs[0]) then Step(config, t, inputs[0]) else t, inputs[1..])
  }

  datatype Command = NoCommand | Running | CannotStart(code: int)

  /** The state in which the loop begins, with the changes that startup drained. */
  function Fresh(config: Config, pending: Batch, command: Command): Loop {
    var stopping := command.CannotStart?;
    Loop(pending, None, stopping, false, false, false, false, false, false, false,
         if config.interval > 0 && !stopping then Some(config.interval) else None,
         INITIAL_RETRY_DELAY, command.Running?, if stopping then command.code else 0, 0)
  }

  function Begin(config: Config, taken: seq<Change>, command: Command): World {
    World(Fresh(config, QueueAll(config, taken), command), Log(taken, 0, []))
  }

  // ---------------------------------------------------------------- startup

  datatype Startup =
    | Arrived(item: Change)
    | ArrivalsClosed
    | Broke(failed: bool)
    | BreaksClosed
    | Interrupt
    | Reconciled(ok: bool)

  datatype StartupVerdict = Interrupted | WatcherFailed | ReconcileFailed | Ready

  /** The events taken: those before the channel is seen closed. */
  function Arrivals(script: seq<Startup>): seq<Change> {
    if script == [] then []
    else
      var before, last := script[..|script| - 1], script[|script| - 1];
      if last.Arrived? && ArrivalsClosed !in before then Arrivals(before) + [last.item] else Arrivals(before)
  }

  ghost predicate WatcherBroke(script: seq<Startup>) {
    exists k :: 0 <= k < |script| && script[k] == Broke(true) && BreaksClosed !in script[..k]
  }

  /** Startup takes every event until reconciliation returns; it cancels the reconciliation exactly
      when a signal or a watcher error came first, and then never reports success. */
  method InitializeWatching(config: Config, script: seq<Startup>)
      returns (pending: Batch, verdict: Option<StartupVerdict>, cancelled: bool, n: nat)
    ensures n <= |script| && (forall k :: 0 <= k < n ==> !script[k].Reconciled?)
    ensures if n < |script| then script[n].Reconciled? && verdict.Some? else verdict.None?
    ensures pending == QueueAll(config, Arrivals(script[..n]))
    ensures cancelled <==> Interrupt in script[..n] || WatcherBroke(script[..n])
    ensures verdict == Some(Interrupted) <==> n < |script| && Interrupt in script[..n]
    ensures verdict == Some(WatcherFailed) <==> n < |script| && Interrupt !in script[..n] && WatcherBroke(script[..n])
    ensures verdict == Some(Ready) <==> n < |script| && !cancelled && script[n].ok
  {
    pending, verdict, cancelled, n := map[], None, false, 0;
    var eventsOpen, errorsOpen, watcherFailed, interrupted := true, true, false, false;
    assert script[..0] == [];
    while n < |script|
      invariant n <= |script| && (forall k :: 0 <= k < n ==> !script[k].Reconciled?)
      invariant pending == QueueAll(config, Arrivals(script[..n]))
      invariant eventsOpen <==> ArrivalsClosed !in script[..n]
      invariant errorsOpen <==> BreaksClosed !in script[..n]
      invariant watcherFailed <==> WatcherBroke(script[..n])
      invariant interrupted <==> Interrupt in script[..n]
      invariant cancelled == (interrupted || watcherFailed) && verdict.None?
    {
      hide QueueAll, Arrivals;
      StartupStep(config, script, n);
      match script[n] {
        case Arrived(item) =>
          if eventsOpen { pending := QueueChange(config, pending, item); }
        case ArrivalsClosed => eventsOpen := false;
        case Broke(failed) =>
          if errorsOpen && failed && !watcherFailed { watcherFailed, cancelled := true, true; }
        case BreaksClosed => errorsOpen := false;
        case Interrupt =>
          if !interrupted { interrupted, cancelled := true, true; }
        case Reconciled(ok) =>
          verdict := Some(if interrupted then Interrupted else if watcherFailed then WatcherFailed
                          else if ok then Ready else ReconcileFailed);
          return;
      }
      n := n + 1;
    }
  }

  lemma StartupStep(config: Config, script: seq<Startup>, n: nat)
    requires n < |script|
    ensures QueueAll(config, Arrivals(script[..n + 1])) ==
            if script[n].Arrived? && ArrivalsClosed !in script[..n]
            then Queue(config, QueueAll(config, Arrivals(script[..n])), script[n].item)
            else QueueAll(config, Arrivals(script[..n]))
    ensures forall x :: x in script[..n + 1] <==> x in script[..n] || x == script[n]
    ensures WatcherBroke(script[..n + 1]) <==>
            WatcherBroke(script[..n]) || (script[n] == Broke(true) && BreaksClosed !in script[..n])
  {
    var before, now := script[..n], script[..n + 1];
    assert now == before + [script[n]] && now[..n] == before;
    forall k | 0 <= k <= n ensures now[..k] == script[..k] && (k < n ==> before[..k] == script[..k]) {}
    if script[n].Arrived? {
      var taken := Arrivals(before);
      assert (taken + [script[n].item])[..|taken|] == taken;
    }
    if WatcherBroke(before) {
      var k :| 0 <= k < n && before[k] == Broke(true) && BreaksClosed !in before[..k];
      assert now[k] == Broke(true) && BreaksClosed !in now[..k];
    }
    if script[n] == Broke(true) && BreaksClosed !in before { assert now[n] == Broke(true) && BreaksClosed !in now[..n]; }
    if WatcherBroke(now) {
      var k :| 0 <= k <= n && now[k] == Broke(true) && BreaksClosed !in now[..k];
      if k < n { assert before[k] == Broke(true) && BreaksClosed !in before[..k]; }
    }
  }

  method QueueChange(config: Config, pending: Batch, item: Change) returns (r: Batch)
    ensures r == Queue(config, pending, item)
  {
    if config.metadata.Some? {
      var exact, _ := Protects(config.metadata.value.0, config.metadata.value.1, item.path);
      if exact { return pending; }
    }
    r := pending[item.path := item];
  }

  /** Events received during a failed attempt are newer and win. */
  method MergeFailedBatch(pending: Batch, failed: Batch) returns (r: Batch)
    ensures r == failed + pending
  {
    r := pending;
    var left := failed.Keys;
    while left != {}
      invariant left <= failed.Keys
      invariant r == (map p | p in failed && p !in left :: failed[p]) + pending
    {
      var path :| path in left;
      if path !in r { r := r[path := failed[path]]; }
      left := left - {path};
    }
    assert (map p | p in failed && p !in left :: failed[p]) == failed;
  }

  // ---------------------------------------------------------------- the loop itself

  class Watching {
    const config: Config
    var pending: Batch
    var active: bool
    var batch: Batch
    var stopping: bool
    var watcherClosed: bool
    var errorsClosed: bool
    var finalAttempted: bool
    var syncReady: bool
    var abandoned: bool
    var watchFailed: bool
    var lockFailed: bool
    var armed: Option<nat>
    var retryDelay: nat
    var running: bool
    var code: int
    var signals: nat
    ghost var log: Log

    ghost function State(): World
      reads this
    {
      World(Loop(pending, if active then Some(batch) else None, stopping, watcherClosed, errorsClosed, finalAttempted,
                 syncReady, abandoned, watchFailed, lockFailed, armed, retryDelay, running, code, signals), log)
    }

    constructor (config: Config, pending: Batch, command: Command, ghost taken: seq<Change>)
      requires pending == QueueAll(config, taken)
      ensures this.config == config && State() == Begin(config, taken, command)
    {
      this.config, this.pending, active, batch := config, pending, false, map[];
      stopping, watcherClosed, errorsClosed, finalAttempted, syncReady := command.CannotStart?, false, false, false, false;
      abandoned, watchFailed, lockFailed := false, false, false;
      armed := if config.interval > 0 && !command.CannotStart? then Some(config.interval) else None;
      retryDelay, running, signals := INITIAL_RETRY_DELAY, command.Running?, 0;
      code := if command.CannotStart? then command.code else 0;
      log := Log(taken, 0, []);
    }

    method StartSync(final: bool)
      modifies this`pending, this`active, this`batch, this`finalAttempted, this`log
      ensures State() == Started(old(State()), final)
    {
      if active || |pending| == 0 { return; }
      Launch(final);
    }

    method Launch(final: bool)
      requires !active
      modifies this`pending, this`active, this`batch, this`finalAttempted, this`log
      ensures State() == World(Launched(old(State()).loop, final), old(State()).log.(began := |old(State()).log.taken|))
    {
      batch, pending, active := pending, map[], true;
      if final { finalAttempted := true; }
      log := log.(began := |log.taken|);
    }

    method AbortForLockFailure()
      modifies this`lockFailed, this`stopping, this`armed, this`syncReady
      ensures State() == old(State()).(loop := Aborted(old(State()).loop))
    {
      if lockFailed { return; }
      lockFailed, stopping, armed, syncReady := true, true, None, false;
    }

    method TakeEvent(item: Change)
      modifies this
      ensures State() == Taken(config, old(State()), item)
    {
      pending := QueueChange(config, pending, item);
      log := log.(taken := log.taken + [item]);
      if syncReady && !active && !stopping {
        syncReady := false;
        StartSync(false);
      }
    }

    method TakeResult(outcome: Outcome)
      requires active
      modifies this`active, this`pending, this`stopping, this`syncReady, this`lockFailed, this`armed, this`retryDelay, this`log
      ensures State() == Finished(config, old(State()), outcome)
    {
      ghost var w := State();
      Idle();
      if outcome == OwnershipLost {
        AbortForLockFailure();
      } else if outcome == Failed {
        Retry(batch);
      } else {
        Succeed();
      }
      assert State() == Finished(config, w, outcome) by { hide Aborted, Retried, Rearmed; }
    }

    /** The result was read: nothing is active. */
    method Idle()
      requires active
      modifies this`active
      ensures State() == old(State()).(loop := old(State()).loop.(flight := None)) && batch == old(State()).loop.flight.value
    {
      active := false;
    }

    method Succeed()
      modifies this`syncReady, this`armed, this`retryDelay, this`log
      ensures State() == World(Rearmed(config, old(State()).loop),
                               old(log).(synced := old(log).synced + [Success(old(log).began, batch)]))
    {
      hide Rearmed;
      Rearm();
      log := log.(synced := log.synced + [Success(log.began, batch)]);
    }

    method Retry(failed: Batch)
      modifies this`pending, this`syncReady, this`armed, this`retryDelay
      ensures State() == old(State()).(loop := Retried(old(State()).loop, failed))
    {
      pending := MergeFailedBatch(pending, failed);
      if !stopping {
        syncReady, armed := false, Some(retryDelay);
        retryDelay := 2 * retryDelay;
        if retryDelay > MAX_RETRY_DELAY { retryDelay := MAX_RETRY_DELAY; }
      }
    }

    method Rearm()
      modifies this`syncReady, this`armed, this`retryDelay
      ensures State() == old(State()).(loop := Rearmed(config, old(State()).loop))
    {
      retryDelay := INITIAL_RETRY_DELAY;
      if !stopping && config.interval > 0 { syncReady, armed := false, Some(config.interval); }
    }

    method TakeTimer()
      requires armed.Some?
      modifies this
      ensures State() == Step(config, old(State()), Timer)
    {
      armed := None;
      if |pending| > 0 { StartSync(false); } else { syncReady := true; }
    }

    method TakeSignal()
      modifies this`signals, this`stopping, this`armed, this`syncReady, this`abandoned, this`finalAttempted
      ensures State() == old(State()).(loop := Signalled(old(State()).loop))
    {
      if !running { signals := signals + 1; }
      if !stopping {
        stopping, armed, syncReady := true, None, false;
      } else if running || abandoned {
      } else if signals < 2 {
      } else {
        abandoned, finalAttempted := true, true;
      }
    }

    method TakeWatchError(failed: bool)
      requires !errorsClosed
      modifies this`watchFailed, this`stopping, this`armed
      ensures State() == Step(config, old(State()), WatchError(failed))
    {
      if failed && !watchFailed { watchFailed, stopping, armed := true, true, None; }
    }

    method TakeExit(status: int)
      requires running
      modifies this`running, this`code, this`stopping, this`armed, this`syncReady
      ensures State() == Step(config, old(State()), Exited(status))
    {
      running, code := false, status;
      if !stopping { stopping, armed, syncReady := true, None, false; }
    }

    method Select(input: Input)
      requires Selectable(State().loop, input)
      modifies this
      ensures State() == Step(config, old(State()), input)
    {
      hide Taken, Finished, Signalled, Aborted, Started;
      match input {
        case Event(item) => TakeEvent(item);
        case EventsClosed => watcherClosed := true;
        case WatchError(failed) => TakeWatchError(failed);
        case ErrorsClosed => errorsClosed := true;
        case LockError(failed) =>
          if failed { AbortForLockFailure(); }
        case Timer => TakeTimer();
        case Result(outcome) => TakeResult(outcome);
        case Exited(status) => TakeExit(status);
        case Signal => TakeSignal();
      }
    }

    method Ready(input: Input) returns (ready: bool)
      ensures ready == Selectable(State().loop, input)
    {
      match input {
        case Event(_) => ready := !watcherClosed;
        case EventsClosed => ready := !watcherClosed;
        case WatchError(_) => ready := !errorsClosed;
        case ErrorsClosed => ready := !errorsClosed;
        case Timer => ready := armed.Some?;
        case Result(_) => ready := active;
        case Exited(_) => ready := running;
        case LockError(_) => ready := true;
        case Signal => ready := true;
      }
    }

    /** The top of the loop. */
    method Top() returns (exit: Option<Exit>)
      modifies this
      ensures exit == Verdict(old(State()).loop)
      ensures State() == if exit.Some? then old(State()) else Head(old(State()))
    {
      exit := None;
      if stopping && watcherClosed && errorsClosed && !active && !running {
        if lockFailed { return Some(LockFailure); }
        if |pending| > 0 && !finalAttempted {
          StartSync(true);
        } else {
          if watchFailed { return Some(WatchFailure); }
          if |pending| > 0 { return Some(FinalSyncFailed); }
          return Some(Finish(code));
        }
      }
    }

    method Run(inputs: seq<Input>) returns (exit: Option<Exit>)
      modifies this
      ensures (State(), exit) == Execute(config, old(State()), inputs)
    {
      exit := Top();
      var n := 0;
      assert inputs[0..] == inputs;
      while exit.None? && n < |inputs|
        invariant n <= |inputs|
        invariant exit.None? ==> Verdict(State().loop).None? && Head(State()) == State()
        invariant exit.None? ==> Execute(config, State(), inputs[n..]) == Execute(config, old(State()), inputs)
        invariant exit.Some? ==> (State(), exit) == Execute(config, old(State()), inputs)
        decreases exit.None?, |inputs| - n
      {
        assert inputs[n..][1..] == inputs[n + 1..];
        var ready := Ready(inputs[n]);
        if ready { Select(inputs[n]); }
        exit := Top();
        n := n + 1;
      }
    }
  }
}
