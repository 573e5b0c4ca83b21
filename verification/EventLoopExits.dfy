/** How the watching loop ends, in terms of the inputs that it selected: what stops it, which exit
    follows, when the final sync is made, and what the timer is set to. */
module EventLoopExits {
  import opened Prelude
  import opened EventLoop
  import opened EventLoopTheorems

  // ---------------------------------------------------------------- the inputs that were selected

  /** The state with which the loop goes on after passing over or selecting an input. */
  function After(config: Config, w: World, input: Input): World {
    var t := Head(w);
    if Selectable(t.loop, input) then Step(config, t, input) else t
  }

  function Selected(config: Config, w: World, inputs: seq<Input>): seq<Input>
    decreases inputs
  {
    if Verdict(w.loop).Some? || inputs == [] then []
    else
      (if Selectable(Head(w).loop, inputs[0]) then [inputs[0]] else []) + Selected(config, After(config, w, inputs[0]), inputs[1..])
  }

  predicate FailsLock(input: Input) {
    input in {LockError(true), Result(OwnershipLost)}
  }

  predicate Stops(input: Input) {
    FailsLock(input) || input.Signal? || input.Exited? || input == WatchError(true)
  }

  ghost predicate SomeStops(selected: seq<Input>) {
    exists x :: x in selected && Stops(x)
  }

  ghost predicate SomeFailsLock(selected: seq<Input>) {
    exists x :: x in selected && FailsLock(x)
  }

  ghost predicate SomeExits(selected: seq<Input>) {
    exists x :: x in selected && x.Exited?
  }

  lemma OneMore(input: Input, rest: seq<Input>)
    ensures SomeStops([input] + rest) <==> Stops(input) || SomeStops(rest)
    ensures SomeFailsLock([input] + rest) <==> FailsLock(input) || SomeFailsLock(rest)
    ensures SomeExits([input] + rest) <==> input.Exited? || SomeExits(rest)
    ensures forall x :: x in [input] + rest <==> x == input || x in rest
  {
    assert forall x :: x in [input] + rest <==> x == input || x in rest;
    if Stops(input) { assert input in [input] + rest; }
    if x :| x in rest && Stops(x) { assert x in [input] + rest; }
    if FailsLock(input) { assert input in [input] + rest; }
    if x :| x in rest && FailsLock(x) { assert x in [input] + rest; }
    if input.Exited? { assert input in [input] + rest; }
    if x :| x in rest && x.Exited? { assert x in [input] + rest; }
  }

  function EventsOf(selected: seq<Input>): seq<Change> {
    if selected == [] then []
    else (if selected[0].Event? then [selected[0].item] else []) + EventsOf(selected[1..])
  }

  /** The status of the command, once it has exited. */
  function Status(selected: seq<Input>, running: bool, default: int): int {
    if !running || selected == [] then default
    else if selected[0].Exited? then selected[0].code
    else Status(selected[1..], running, default)
  }

  /** The signals that come when no command is there to take them. */
  function Interrupts(selected: seq<Input>, running: bool): nat {
    if selected == [] then 0
    else (if selected[0].Signal? && !running then 1 else 0) + Interrupts(selected[1..], running && !selected[0].Exited?)
  }

  /** What stops the loop keeps it stopped, and signals are counted without a command only. */
  predicate Consistent(s: Loop) {
    && (s.lockFailed || s.watchFailed || s.signals > 0 ==> s.stopping)
    && (s.running ==> s.signals == 0)
    && (s.abandoned <==> s.signals >= 2)
  }

  // ---------------------------------------------------------------- one step

  /** None of these variables differs. */
  predicate SameFlags(s: Loop, t: Loop) {
    && t.stopping == s.stopping && t.lockFailed == s.lockFailed && t.watchFailed == s.watchFailed
    && t.watcherClosed == s.watcherClosed && t.errorsClosed == s.errorsClosed && t.abandoned == s.abandoned
    && t.running == s.running && t.code == s.code && t.signals == s.signals
  }

  lemma FlagsStay(s: Loop, final: bool)
    ensures SameFlags(s, s) && SameFlags(s, Launched(s, final))
  {
  }

  lemma LaunchKeeps(w: World, final: bool)
    ensures SameFlags(w.loop, Started(w, final).loop) && Started(w, final).log.taken == w.log.taken
    ensures Consistent(w.loop) ==> Consistent(Started(w, final).loop)
  {
    hide Consistent, CanLaunch, Launched, SameFlags;
    FlagsStay(w.loop, final);
    ConsistentFlags(w.loop, Started(w, final).loop);
  }

  lemma HeadKeeps(w: World)
    ensures SameFlags(w.loop, Head(w).loop) && Head(w).log.taken == w.log.taken
    ensures Consistent(w.loop) ==> Consistent(Head(w).loop)
  {
    hide Consistent, Started, Quiet, Verdict;
    LaunchKeeps(w, true);
  }

  /** The timer has fired. */
  function Fired(w: World): World {
    var t := w.loop.(armed := None);
    if t.pending != map[] then Started(World(t, w.log), false) else w.(loop := t.(syncReady := true))
  }

  lemma TimerIsFired(config: Config, w: World)
    requires w.loop.armed.Some?
    ensures Step(config, w, Timer) == Fired(w)
  {
    hide Started;
  }

  lemma ConsistentFlags(s: Loop, t: Loop)
    requires SameFlags(s, t)
    ensures Consistent(s) ==> Consistent(t)
  {
  }

  lemma SignalSets(s: Loop)
    requires Consistent(s)
    ensures var t := Signalled(s);
            && Consistent(t) && t.stopping && t.signals == s.signals + (if s.running then 0 else 1)
            && t.lockFailed == s.lockFailed && t.watchFailed == s.watchFailed && t.running == s.running && t.code == s.code
            && t.watcherClosed == s.watcherClosed && t.errorsClosed == s.errorsClosed
            && (t.finalAttempted <==> s.finalAttempted || (t.abandoned && !s.abandoned)) && (s.abandoned ==> t.abandoned)
  {
  }

  lemma AbortSets(s: Loop)
    requires Consistent(s)
    ensures var t := Aborted(s);
            && Consistent(t) && t.stopping && t.lockFailed
            && t == s.(lockFailed := true, stopping := true, armed := t.armed, syncReady := t.syncReady)
  {
  }

  /** Which of the variables that decide the end an input sets. */
  predicate Sets(s: Loop, input: Input, t: Loop) {
    && Consistent(t)
    && (t.stopping <==> s.stopping || Stops(input))
    && (t.lockFailed <==> s.lockFailed || FailsLock(input))
    && (t.watchFailed <==> s.watchFailed || input == WatchError(true))
    && (t.watcherClosed <==> s.watcherClosed || input.EventsClosed?)
    && (t.errorsClosed <==> s.errorsClosed || input.ErrorsClosed?)
    && (t.running <==> s.running && !input.Exited?)
    && t.code == (if input.Exited? then input.code else s.code)
    && t.signals == s.signals + (if input.Signal? && !s.running then 1 else 0)
  }

  lemma RetrySame(s: Loop, batch: Batch)
    ensures var t := Retried(s, batch);
            t == s.(pending := t.pending, syncReady := t.syncReady, armed := t.armed, retryDelay := t.retryDelay)
  {
  }

  lemma RearmSame(config: Config, s: Loop)
    ensures var t := Rearmed(config, s);
            t == s.(pending := t.pending, syncReady := t.syncReady, armed := t.armed, retryDelay := t.retryDelay)
  {
  }

  lemma SetsNothing(s: Loop, input: Input, t: Loop)
    requires Consistent(s) && (input.Event? || input.Timer? || input in {Result(Synced), Result(Failed)})
    requires SameFlags(s, t)
    ensures Sets(s, input, t)
  {
  }

  lemma EventSets(config: Config, w: World, item: Change)
    requires Consistent(w.loop)
    ensures Sets(w.loop, Event(item), Taken(config, w, item).loop) && Taken(config, w, item).log.taken == w.log.taken + [item]
  {
    hide Queue, Sets, Consistent, Started;
    var queued := World(w.loop.(pending := Queue(config, w.loop.pending, item)), w.log.(taken := w.log.taken + [item]));
    LaunchKeeps(World(queued.loop.(syncReady := false), queued.log), false);
    SetsNothing(w.loop, Event(item), Taken(config, w, item).loop);
  }

  lemma TimerSets(config: Config, w: World)
    requires Consistent(w.loop) && w.loop.armed.Some?
    ensures Sets(w.loop, Timer, Step(config, w, Timer).loop) && Step(config, w, Timer).log.taken == w.log.taken
  {
    hide Sets, Consistent, Started, Step;
    TimerIsFired(config, w);
    LaunchKeeps(World(w.loop.(armed := None), w.log), false);
    SetsNothing(w.loop, Timer, Fired(w).loop);
  }

  lemma ResultSets(config: Config, w: World, outcome: Outcome)
    requires Consistent(w.loop) && w.loop.flight.Some?
    ensures Sets(w.loop, Result(outcome), Finished(config, w, outcome).loop) && Finished(config, w, outcome).log.taken == w.log.taken
  {
    hide Retried, Rearmed;
    var s := w.loop.(flight := None);
    match outcome
    case OwnershipLost => AbortSets(s);
    case Failed =>
      RetrySame(s, w.loop.flight.value);
      SetsNothing(w.loop, Result(outcome), Finished(config, w, outcome).loop);
    case Synced =>
      RearmSame(config, s);
      SetsNothing(w.loop, Result(outcome), Finished(config, w, outcome).loop);
  }

  lemma StepSets(config: Config, w: World, input: Input)
    requires Consistent(w.loop) && Selectable(w.loop, input)
    ensures Sets(w.loop, input, Step(config, w, input).loop)
    ensures Step(config, w, input).log.taken == w.log.taken + (if input.Event? then [input.item] else [])
  {
    hide Signalled, Aborted, Taken, Finished, Started;
    match input
    case Event(item) => EventSets(config, w, item);
    case LockError(_) => AbortSets(w.loop);
    case Timer => TimerSets(config, w);
    case Result(outcome) => ResultSets(config, w, outcome);
    case Signal => SignalSets(w.loop);
    case _ =>
  }

  // ---------------------------------------------------------------- whole runs

  /** The state follows from what was selected. */
  ghost predicate Follows(w: World, selected: seq<Input>, t: World) {
    && Consistent(t.loop)
    && (t.loop.stopping <==> w.loop.stopping || SomeStops(selected))
    && (t.loop.lockFailed <==> w.loop.lockFailed || SomeFailsLock(selected))
    && (t.loop.watchFailed <==> w.loop.watchFailed || WatchError(true) in selected)
    && (t.loop.watcherClosed <==> w.loop.watcherClosed || EventsClosed in selected)
    && (t.loop.errorsClosed <==> w.loop.errorsClosed || ErrorsClosed in selected)
    && (t.loop.running <==> w.loop.running && !SomeExits(selected))
    && t.loop.code == Status(selected, w.loop.running, w.loop.code)
    && t.loop.signals == w.loop.signals + Interrupts(selected, w.loop.running)
    && t.log.taken == w.log.taken + EventsOf(selected)
  }

  lemma FollowsNone(w: World, t: World)
    requires Consistent(w.loop) && SameFlags(w.loop, t.loop) && t.log.taken == w.log.taken
    ensures Follows(w, [], t)
  {
    assert w.log.taken + [] == w.log.taken;
  }

  lemma FollowsHead(w: World, u: World, selected: seq<Input>, t: World)
    requires Follows(u, selected, t) && SameFlags(w.loop, u.loop) && u.log.taken == w.log.taken
    ensures Follows(w, selected, t)
  {
    hide SomeStops, SomeFailsLock, SomeExits;
  }

  lemma FollowsStep(config: Config, w: World, input: Input, rest: seq<Input>, t: World)
    requires Consistent(w.loop) && Selectable(w.loop, input) && Follows(Step(config, w, input), rest, t)
    ensures Follows(w, [input] + rest, t)
  {
    hide Step, Consistent, Stops, FailsLock;
    StepSets(config, w, input);
    var all := [input] + rest;
    assert all[0] == input && all[1..] == rest;
    OneMore(input, rest);
    hide SomeStops, SomeFailsLock, SomeExits;
  }

  /** Over any script, the variables that decide the end are what the selected inputs make them. */
  lemma {:induction false} RunFollows(config: Config, w: World, inputs: seq<Input>)
    requires Consistent(w.loop)
    ensures Follows(w, Selected(config, w, inputs), Execute(config, w, inputs).0)
    decreases inputs
  {
    hide Step, Selectable, Verdict, Follows, Consistent, Head, SameFlags;
    HeadKeeps(w);
    FlagsStay(w.loop, true);
    var t := Head(w);
    if Verdict(w.loop).Some? || inputs == [] {
      FollowsNone(w, Execute(config, w, inputs).0);
    } else {
      var u, rest := After(config, w, inputs[0]), Selected(config, After(config, w, inputs[0]), inputs[1..]);
      if Selectable(t.loop, inputs[0]) {
        StepSets(config, t, inputs[0]);
        ConsistentAfter(config, t, inputs[0]);
        RunFollows(config, u, inputs[1..]);
        FollowsStep(config, t, inputs[0], rest, Execute(config, w, inputs).0);
        FollowsHead(w, t, [inputs[0]] + rest, Execute(config, w, inputs).0);
      } else {
        RunFollows(config, u, inputs[1..]);
        assert [] + rest == rest;
        FollowsHead(w, t, rest, Execute(config, w, inputs).0);
      }
    }
  }

  lemma ConsistentAfter(config: Config, w: World, input: Input)
    requires Consistent(w.loop) && Selectable(w.loop, input)
    ensures Consistent(Step(config, w, input).loop)
  {
    StepSets(config, w, input);
  }

  // ---------------------------------------------------------------- the final sync

  /** The top of the loop starts the final sync. */
  predicate StartsFinal(w: World) {
    Quiet(w.loop) && Verdict(w.loop).None? && Head(w).loop.flight.Some?
  }

  function FinalSyncs(config: Config, w: World, inputs: seq<Input>): nat
    decreases inputs
  {
    if Verdict(w.loop).Some? then 0
    else
      (if StartsFinal(w) then 1 else 0) + (if inputs == [] then 0 else FinalSyncs(config, After(config, w, inputs[0]), inputs[1..]))
  }

  /** The last sync began with every event, and no more will come. */
  predicate TookAll(w: World) {
    w.loop.watcherClosed && w.log.began == |w.log.taken|
  }

  /** Whether the final sync was attempted is whether it was made, or the session abandoned. */
  ghost predicate Attempted(w: World, made: bool) {
    Consistent(w.loop) && (w.loop.finalAttempted <==> made || w.loop.abandoned) && (made ==> TookAll(w))
  }

  lemma AttemptedSignal(s: Loop, made: bool)
    requires Consistent(s) && (s.finalAttempted <==> made || s.abandoned)
    ensures Signalled(s).finalAttempted <==> made || Signalled(s).abandoned
  {
  }

  /** What bears on the final sync stays, and so does that everything was taken. */
  predicate SameFinal(w: World, t: World) {
    && t.loop.finalAttempted == w.loop.finalAttempted && t.loop.abandoned == w.loop.abandoned
    && (TookAll(w) ==> TookAll(t))
  }

  lemma LaunchSame(w: World)
    ensures SameFinal(w, Started(w, false))
  {
  }

  lemma TakenSame(config: Config, w: World, item: Change)
    ensures w.loop.watcherClosed || SameFinal(w, Taken(config, w, item))
  {
    hide Queue;
  }

  lemma AbortSame(s: Loop)
    ensures var t := Aborted(s);
            t == s.(lockFailed := true, stopping := t.stopping, armed := t.armed, syncReady := t.syncReady)
  {
  }

  lemma ResultSame(config: Config, w: World, outcome: Outcome)
    requires w.loop.flight.Some?
    ensures SameFinal(w, Finished(config, w, outcome))
  {
    hide Retried, Rearmed, Aborted;
    var s, batch := w.loop.(flight := None), w.loop.flight.value;
    RetrySame(s, batch);
    RearmSame(config, s);
    AbortSame(s);
  }

  lemma TimerSame(config: Config, w: World)
    requires w.loop.armed.Some?
    ensures SameFinal(w, Step(config, w, Timer))
  {
    hide Started, Step;
    TimerIsFired(config, w);
    LaunchSame(World(w.loop.(armed := None), w.log));
  }

  lemma AttemptedStep(config: Config, w: World, input: Input, made: bool)
    requires Attempted(w, made) && Selectable(w.loop, input)
    ensures Attempted(Step(config, w, input), made)
  {
    hide Signalled, Aborted, Taken, Finished, Started, Consistent;
    StepSets(config, w, input);
    ConsistentAfter(config, w, input);
    match input
    case Event(item) => TakenSame(config, w, item);
    case LockError(_) => AbortSame(w.loop);
    case Timer => TimerSame(config, w);
    case Result(outcome) => ResultSame(config, w, outcome);
    case Signal => AttemptedSignal(w.loop, made);
    case _ =>
  }

  lemma AttemptedHead(w: World, made: bool)
    requires Attempted(w, made)
    ensures Attempted(Head(w), made || StartsFinal(w)) && !(made && StartsFinal(w))
  {
  }

  lemma {:induction false} AttemptedRun(config: Config, w: World, inputs: seq<Input>, made: bool)
    requires Attempted(w, made)
    ensures var n := FinalSyncs(config, w, inputs);
            n <= (if made then 0 else 1) && Attempted(Execute(config, w, inputs).0, made || n == 1)
    decreases inputs
  {
    hide Step, Selectable, Attempted, StartsFinal, Verdict;
    if Verdict(w.loop).None? {
      AttemptedHead(w, made);
      var t, now := Head(w), made || StartsFinal(w);
      if inputs != [] {
        if Selectable(t.loop, inputs[0]) { AttemptedStep(config, t, inputs[0], now); }
        AttemptedRun(config, After(config, w, inputs[0]), inputs[1..], now);
      }
    }
  }

  /** Shut down, drained, idle and without a command, with changes left and a sound lock, the loop
      makes one more sync, of all of them, and it makes it once; only a session that was abandoned,
      by a second signal without a command, may do without. So a final sync that is reported failed
      was made, and began with every event. */
  lemma FinalSyncIsMade(config: Config, drained: seq<Change>, command: Command, inputs: seq<Input>)
    ensures var (w, exit) := Execute(config, Begin(config, drained, command), inputs);
            var n := FinalSyncs(config, Begin(config, drained, command), inputs);
            && n <= 1 && (n == 1 ==> TookAll(w))
            && (Quiet(w.loop) && w.loop.pending != map[] && !w.loop.lockFailed ==> n == 1 || w.loop.abandoned)
            && (exit == Some(FinalSyncFailed) ==> n == 1 || w.loop.abandoned)
            && (w.loop.abandoned <==> Interrupts(Selected(config, Begin(config, drained, command), inputs), command.Running?) >= 2)
            && (exit.None? ==> !Quiet(w.loop))
  {
    var b := Begin(config, drained, command);
    AttemptedRun(config, b, inputs, false);
    RunFollows(config, b, inputs);
    ExitIsVerdict(config, b, inputs);
    NoExitIsBusy(config, b, inputs);
  }

  lemma HeadIsBusy(w: World)
    requires Verdict(w.loop).None?
    ensures !Quiet(Head(w).loop)
  {
  }

  lemma {:induction false} NoExitIsBusy(config: Config, w: World, inputs: seq<Input>)
    ensures Execute(config, w, inputs).1.None? ==> !Quiet(Execute(config, w, inputs).0.loop)
    decreases inputs
  {
    hide Step, Selectable, Verdict, Quiet;
    if Verdict(w.loop).None? {
      HeadIsBusy(w);
      if inputs != [] { NoExitIsBusy(config, After(config, w, inputs[0]), inputs[1..]); }
    }
  }

  /** Once something has stopped the loop, no sync begins but the final one. */
  predicate BeginsNothing(w: World, t: World) {
    t.log.began == w.log.began && (t.loop.flight.Some? ==> t.loop.flight == w.loop.flight)
  }

  lemma StoppedSignal(s: Loop)
    ensures Signalled(s).flight == s.flight && Aborted(s).flight == s.flight
  {
  }

  lemma StoppedStep(config: Config, w: World, input: Input)
    requires w.loop.stopping && Settled(w.loop) && Selectable(w.loop, input)
    ensures BeginsNothing(w, Step(config, w, input))
  {
    hide Signalled, Aborted, Queue, Started;
    StoppedSignal(w.loop);
    match input
    case Result(outcome) => StoppedResult(config, w, outcome);
    case _ =>
  }

  lemma StoppedResult(config: Config, w: World, outcome: Outcome)
    requires w.loop.flight.Some?
    ensures BeginsNothing(w, Finished(config, w, outcome))
  {
    hide Retried, Rearmed, Aborted;
    RetrySame(w.loop.(flight := None), w.loop.flight.value);
    RearmSame(config, w.loop.(flight := None));
    AbortSame(w.loop.(flight := None));
  }

  lemma StoppedHead(w: World)
    ensures !StartsFinal(w) ==> Head(w) == w
    ensures Settled(w.loop) && w.loop.stopping ==> Settled(Head(w).loop) && Head(w).loop.stopping
  {
  }

  lemma {:induction false} StoppedBeginsNothing(config: Config, w: World, inputs: seq<Input>)
    requires w.loop.stopping && Settled(w.loop) && FinalSyncs(config, w, inputs) == 0
    ensures BeginsNothing(w, Execute(config, w, inputs).0)
    decreases inputs
  {
    hide Step, Selectable, StartsFinal, Verdict, Settled, Head;
    if Verdict(w.loop).None? {
      StoppedHead(w);
      if inputs != [] {
        if Selectable(Head(w).loop, inputs[0]) {
          StoppedStep(config, w, inputs[0]);
          SettledStep(config, w, inputs[0]);
        }
        StoppedBeginsNothing(config, After(config, w, inputs[0]), inputs[1..]);
      }
    }
  }

  // ---------------------------------------------------------------- the exit

  /** How the loop ends, if it does: a failed lock comes before a failed watcher, that before changes
      that were not synced, and otherwise the status is the command's. It ends only when something has
      stopped it, the watcher is drained, and the command is gone. */
  lemma ExitMeaning(config: Config, drained: seq<Change>, command: Command, inputs: seq<Input>)
    ensures var b := Begin(config, drained, command);
            var (w, exit), selected := Execute(config, b, inputs), Selected(config, b, inputs);
            exit.Some? ==>
              && exit.value == (if SomeFailsLock(selected) then LockFailure
                                else if WatchError(true) in selected then WatchFailure
                                else if w.loop.pending != map[] then FinalSyncFailed
                                else Finish(Status(selected, command.Running?, if command.CannotStart? then command.code else 0)))
              && (command.CannotStart? || SomeStops(selected)) && (command.Running? ==> SomeExits(selected))
              && EventsClosed in selected && ErrorsClosed in selected && w.loop.flight.None?
  {
    var b := Begin(config, drained, command);
    RunFollows(config, b, inputs);
    ExitIsVerdict(config, b, inputs);
    hide SomeFailsLock, SomeStops, SomeExits, Execute, Selected, QueueAll;
  }

  // ---------------------------------------------------------------- timers

  /** The timer waits for the interval, or for the retry after the failures since the last success. */
  predicate Timed(config: Config, s: Loop, failures: nat) {
    && s.retryDelay == Backoff(failures)
    && (s.armed.Some? ==> s.armed == (if failures == 0 then Some(config.interval) else Some(Backoff(failures - 1))))
    && (s.armed.Some? && failures == 0 ==> config.interval > 0)
  }

  function FailuresAfter(t: World, input: Input, before: nat): nat {
    if input == Result(Synced) then 0
    else if input == Result(Failed) && !t.loop.stopping then before + 1
    else before
  }

  /** A sync, an armed timer and, before shutdown, readiness for the first change exclude each other. */
  predicate OneAtATime(s: Loop) {
    && (s.flight.Some? ==> s.armed.None? && (s.syncReady ==> s.stopping))
    && (s.armed.Some? ==> !s.syncReady)
  }

  lemma TimedEvent(config: Config, w: World, item: Change, failures: nat)
    requires Timed(config, w.loop, failures) && OneAtATime(w.loop)
    ensures Timed(config, Taken(config, w, item).loop, failures) && OneAtATime(Taken(config, w, item).loop)
  {
    hide Queue, Backoff;
  }

  lemma TimedTimer(config: Config, w: World, failures: nat)
    requires Timed(config, w.loop, failures) && OneAtATime(w.loop) && w.loop.armed.Some?
    ensures Timed(config, Step(config, w, Timer).loop, failures) && OneAtATime(Step(config, w, Timer).loop)
  {
    hide Backoff, Step;
    TimerIsFired(config, w);
  }

  lemma TimedResult(config: Config, w: World, outcome: Outcome, failures: nat)
    requires Timed(config, w.loop, failures) && OneAtATime(w.loop) && Settled(w.loop) && w.loop.flight.Some?
    ensures var t := Finished(config, w, outcome).loop;
            Timed(config, t, FailuresAfter(w, Result(outcome), failures)) && OneAtATime(t)
  {
    match outcome
    case Synced =>
    case Failed =>
    case OwnershipLost =>
  }

  lemma TimedStep(config: Config, w: World, input: Input, failures: nat)
    requires Timed(config, w.loop, failures) && OneAtATime(w.loop) && Settled(w.loop) && Selectable(w.loop, input)
    ensures var t := Step(config, w, input).loop;
            Timed(config, t, FailuresAfter(w, input, failures)) && OneAtATime(t)
  {
    hide Taken, Finished, Started, Backoff;
    match input
    case Event(item) => TimedEvent(config, w, item, failures);
    case Timer => TimedTimer(config, w, failures);
    case Result(outcome) => TimedResult(config, w, outcome, failures);
    case _ =>
  }

  lemma TimedHead(config: Config, w: World, failures: nat)
    requires Timed(config, w.loop, failures) && OneAtATime(w.loop) && Settled(w.loop)
    ensures Timed(config, Head(w).loop, failures) && OneAtATime(Head(w).loop) && Settled(Head(w).loop)
  {
    hide Backoff;
  }

  lemma {:induction false} TimedRun(config: Config, w: World, inputs: seq<Input>, failures: nat)
    requires Timed(config, w.loop, failures) && OneAtATime(w.loop) && Settled(w.loop)
    ensures var t := Execute(config, w, inputs).0.loop;
            Timed(config, t, Failures(config, w, inputs, failures)) && OneAtATime(t)
    decreases inputs
  {
    hide Step, Selectable, Timed, OneAtATime, Verdict, Settled;
    if Verdict(w.loop).None? {
      TimedHead(config, w, failures);
      var t := Head(w);
      if inputs != [] {
        if Selectable(t.loop, inputs[0]) {
          TimedStep(config, t, inputs[0], failures);
          SettledStep(config, t, inputs[0]);
          TimedRun(config, Step(config, t, inputs[0]), inputs[1..], FailuresAfter(t, inputs[0], failures));
        } else {
          TimedRun(config, t, inputs[1..], failures);
        }
      }
    }
  }

  /** Whenever the timer is armed, it is for the whole interval if no sync has failed since the last
      success, and otherwise for the backoff of the failures before the last one. */
  lemma TimerMeaning(config: Config, drained: seq<Change>, command: Command, inputs: seq<Input>)
    ensures var b := Begin(config, drained, command);
            Timed(config, Execute(config, b, inputs).0.loop, Failures(config, b, inputs, 0))
    ensures config.interval > 0 && !command.CannotStart? ==> Begin(config, drained, command).loop.armed == Some(config.interval)
  {
    hide QueueAll;
    TimedRun(config, Begin(config, drained, command), inputs, 0);
  }

  /** Nothing has been synced, and nothing will be before shutdown. */
  predicate Unsynced(w: World) {
    w.loop.flight.None? && w.loop.armed.None? && !w.loop.syncReady && w.log.synced == [] && w.log.began == 0
  }

  lemma UnsyncedStep(config: Config, w: World, input: Input)
    requires Unsynced(w) && Selectable(w.loop, input)
    ensures Unsynced(Step(config, w, input)) 
  {
    hide Queue;
  }

  lemma {:induction false} UnsyncedRun(config: Config, w: World, inputs: seq<Input>)
    requires Unsynced(w) && Settled(w.loop) && !Execute(config, w, inputs).0.loop.stopping
    ensures Unsynced(Execute(config, w, inputs).0)
    decreases inputs
  {
    hide Step, Selectable, Unsynced, Settled;
    StoppingStays(config, w, inputs);
    if inputs != [] {
      if Selectable(w.loop, inputs[0]) {
        UnsyncedStep(config, w, inputs[0]);
        SettledStep(config, w, inputs[0]);
        UnsyncedRun(config, Step(config, w, inputs[0]), inputs[1..]);
      } else {
        UnsyncedRun(config, w, inputs[1..]);
      }
    }
  }

  /** Without an interval nothing is synced before shutdown. */
  lemma SyncsAtExitOnly(config: Config, drained: seq<Change>, command: Command, inputs: seq<Input>)
    requires config.interval == 0 && !Execute(config, Begin(config, drained, command), inputs).0.loop.stopping
    ensures Unsynced(Execute(config, Begin(config, drained, command), inputs).0)
  {
    hide QueueAll;
    StoppingStays(config, Begin(config, drained, command), inputs);
    UnsyncedRun(config, Begin(config, drained, command), inputs);
  }
}
