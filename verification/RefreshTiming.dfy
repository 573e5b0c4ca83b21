/** When `refreshLoop` of src/syncstate.go renews the lock, retries and gives up. Times are
    nanoseconds of the owner's own clock, and timers fire on time. While the loop sleeps, and while an
    attempt waits for the update mutex, the main goroutine may adopt pending records, which move
    the recorded expiry. */
module RefreshTiming {
  import opened Prelude
  import opened StateFile

  /** When the next refresh of a lock is due. */
  function Due(expires: int, timeout: nat): int {
    expires - timeout + Max(timeout / 2, 1)
  }

  function RefreshDelay(now: int, expires: Option<int>, timeout: nat): nat {
    if expires.None? then 0 else Max(Due(expires.value, timeout) - now, 0)
  }

  predicate DeadlinePassed(now: int, expires: Option<int>, timeout: nat) {
    expires.None? || now >= RefreshDeadline(expires.value, timeout)
  }

  function RetryDelay(now: int, expires: Option<int>, timeout: nat, poll: nat): Option<nat> {
    if DeadlinePassed(now, expires, timeout) then None else Some(Min(poll, RefreshDeadline(expires.value, timeout) - now))
  }

  // ---------------------------------------------------------------- one attempt

  /** How one attempt goes: where the expiry was moved before the timer fires, the wait for the update
      mutex, the expiries that its holders adopted meanwhile and when, the time the update takes, its
      result, and for a success how far into the update the lock was written. */
  datatype Outcome = Renewed(after: nat) | Failed | OwnershipLost
  datatype Adoption = Adoption(after: nat, expires: int)
  datatype Attempt = Attempt(moved: Option<int>, wait: nat, adopted: seq<Adoption>, work: nat, outcome: Outcome)

  /** The timer is set to `fire` and the lock in force ends at `expires`, or the commands were cancelled. */
  datatype Refresher = Armed(fire: int, expires: int) | Cancelled(at: int, expires: int)

  /** What the attempt finds when the timer fires; the timer itself is not set again. */
  function Woken(r: Refresher, a: Attempt): (w: Refresher)
    requires r.Armed?
    ensures w.Armed?
  {
    Armed(r.fire, a.moved.GetOr(r.expires))
  }

  /** What is recorded so long after the beginning of the wait. */
  function Recorded(expires: int, adopted: seq<Adoption>, after: int): int
    decreases adopted
  {
    if adopted == [] then expires
    else Recorded(if adopted[0].after <= after then adopted[0].expires else expires, adopted[1..], after)
  }

  /** The recorded expiry at an instant of the wait. */
  function ExpiryAt(r: Refresher, a: Attempt, at: int): int
    requires r.Armed?
  {
    Recorded(r.expires, a.adopted, Min(at - r.fire, a.wait))
  }

  /** When the watchdog of the wait fires. */
  function WatchdogAt(timeout: nat, r: Refresher): int
    requires r.Armed?
  {
    Max(r.fire, RefreshDeadline(r.expires, timeout))
  }

  /** The watchdog fires during the wait, and finds the expiry where it was. */
  predicate WatchdogCancels(timeout: nat, r: Refresher, a: Attempt)
    requires r.Armed?
  {
    WatchdogAt(timeout, r) <= r.fire + a.wait && ExpiryAt(r, a, WatchdogAt(timeout, r)) <= r.expires
  }

  function WrittenAt(r: Refresher, a: Attempt): int
    requires r.Armed? && a.outcome.Renewed?
  {
    r.fire + a.wait + Min(a.outcome.after, a.work)
  }

  /** One attempt, from the firing of the timer: the wait under the first watchdog, then the update
      under the second, which cancels at the deadline, since only the update itself could move the
      expiry now. */
  function Fire(timeout: nat, poll: nat, r: Refresher, a: Attempt): Refresher
    requires r.Armed?
  {
    var start := r.fire + a.wait;
    var expires := ExpiryAt(r, a, start);
    var end, deadline := start + a.work, RefreshDeadline(expires, timeout);
    if WatchdogCancels(timeout, r, a) then Cancelled(WatchdogAt(timeout, r), r.expires)
    else if start >= deadline then Cancelled(start, expires)
    else if end >= deadline then Cancelled(deadline, expires)
    else
      match a.outcome
      case OwnershipLost => Cancelled(end, expires)
      case Failed => Armed(end + RetryDelay(end, Some(expires), timeout, poll).value, expires)
      case Renewed(_) =>
        var renewed := WrittenAt(r, a) + timeout;
        Armed(end + RefreshDelay(end, Some(renewed), timeout), renewed)
  }

  function Try(timeout: nat, poll: nat, r: Refresher, a: Attempt): Refresher
    requires r.Armed?
  {
    Fire(timeout, poll, Woken(r, a), a)
  }

  function TryAll(timeout: nat, poll: nat, r: Refresher, script: seq<Attempt>): Refresher
    decreases script
  {
    if r.Cancelled? || script == [] then r else TryAll(timeout, poll, Try(timeout, poll, r, script[0]), script[1..])
  }

  // ---------------------------------------------------------------- the deadline

  /** The half-life refresh falls strictly before the deadline exactly for a TTL of at least 3 ns. */
  lemma HalfLifeBeforeDeadline(expires: int, timeout: nat)
    ensures Due(expires, timeout) < RefreshDeadline(expires, timeout) <==> timeout >= 3
  {
  }

  /** A refresh is due when half of the TTL is left; a lock of a nanosecond is due at its end. */
  lemma DueAtHalf(expires: int, timeout: nat)
    ensures timeout >= 2 ==> timeout <= 2 * (expires - Due(expires, timeout)) <= timeout + 1
    ensures timeout == 1 ==> Due(expires, timeout) == expires
  {
  }

  /** A retry is offered exactly before the deadline, and never scheduled past it; it comes a poll
      interval later unless the deadline comes first. */
  lemma RetryInTime(now: int, expires: int, timeout: nat, poll: nat)
    ensures RetryDelay(now, Some(expires), timeout, poll).Some? <==> now < RefreshDeadline(expires, timeout)
    ensures RetryDelay(now, Some(expires), timeout, poll).Some? ==>
              var retry := now + RetryDelay(now, Some(expires), timeout, poll).value;
              && retry <= RefreshDeadline(expires, timeout) && retry <= now + poll
              && retry in {now + poll, RefreshDeadline(expires, timeout)}
  {
  }

  /** Without a recorded expiry a refresh is due at once, and too late. */
  lemma NoExpiry(now: int, timeout: nat, poll: nat)
    ensures RefreshDelay(now, None, timeout) == 0 && DeadlinePassed(now, None, timeout) && RetryDelay(now, None, timeout, poll).None?
  {
  }

  /** The timer is due by the deadline of a lock that was written by then. */
  predicate OnTime(timeout: nat, r: Refresher) {
    r.Armed? ==> r.expires - timeout <= r.fire <= RefreshDeadline(r.expires, timeout)
  }

  /** The first setting of the timer. */
  function First(timeout: nat, now: int, expires: int): Refresher {
    Armed(now + RefreshDelay(now, Some(expires), timeout), expires)
  }

  /** It is set to the half-life, or to now if that has passed. */
  lemma FirstAtHalf(timeout: nat, now: int, expires: int)
    ensures First(timeout, now, expires) == Armed(Max(now, Due(expires, timeout)), expires)
  {
  }

  lemma FirstIsOnTime(timeout: nat, now: int, expires: int)
    requires timeout >= 3 && expires - timeout <= now <= RefreshDeadline(expires, timeout)
    ensures OnTime(timeout, First(timeout, now, expires))
  {
  }

  /** What is adopted was written after the base and before the adoption. */
  predicate Forward(timeout: nat, r: Refresher, a: Attempt)
    requires r.Armed?
  {
    && (a.moved.Some? ==> r.expires <= a.moved.value <= r.fire + timeout)
    && (forall i :: 0 <= i < |a.adopted| ==>
          Woken(r, a).expires <= a.adopted[i].expires <= r.fire + a.adopted[i].after + timeout)
    && (forall i, j :: 0 <= i < j < |a.adopted| ==> a.adopted[i].expires <= a.adopted[j].expires)
  }

  lemma {:induction false} RecordedGrows(expires: int, other: int, adopted: seq<Adoption>, after: int, later: int)
    requires expires <= other && after <= later
    requires forall i :: 0 <= i < |adopted| ==> other <= adopted[i].expires
    requires forall i, j :: 0 <= i < j < |adopted| ==> adopted[i].expires <= adopted[j].expires
    ensures expires <= Recorded(expires, adopted, after) <= Recorded(other, adopted, later)
    decreases adopted
  {
    if adopted != [] {
      var first := adopted[0];
      RecordedGrows(if first.after <= after then first.expires else expires, if first.after <= later then first.expires else other,
                    adopted[1..], after, later);
    }
  }

  lemma {:induction false} RecordedBounded(expires: int, adopted: seq<Adoption>, after: int, bound: int)
    requires forall i :: 0 <= i < |adopted| ==> adopted[i].expires <= adopted[i].after + bound
    ensures Recorded(expires, adopted, after) == expires || Recorded(expires, adopted, after) <= after + bound
    decreases adopted
  {
    if adopted != [] {
      RecordedBounded(if adopted[0].after <= after then adopted[0].expires else expires, adopted[1..], after, bound);
    }
  }

  /** During the wait the recorded expiry only moves on, and never beyond a TTL from the instant. */
  lemma ExpiryMovesOn(timeout: nat, r: Refresher, a: Attempt, at: int, later: int)
    requires r.Armed? && Forward(timeout, r, a) && r.fire <= at <= later
    ensures var w := Woken(r, a);
            && w.expires <= ExpiryAt(w, a, at) <= ExpiryAt(w, a, later)
            && (ExpiryAt(w, a, later) == w.expires || ExpiryAt(w, a, later) <= later + timeout)
  {
    var w := Woken(r, a);
    RecordedGrows(w.expires, w.expires, a.adopted, Min(at - r.fire, a.wait), Min(later - r.fire, a.wait));
    RecordedBounded(w.expires, a.adopted, Min(later - r.fire, a.wait), r.fire + timeout);
  }

  predicate AllForward(timeout: nat, poll: nat, r: Refresher, script: seq<Attempt>)
    decreases script
  {
    r.Armed? && script != [] ==>
      Forward(timeout, r, script[0]) && AllForward(timeout, poll, Try(timeout, poll, r, script[0]), script[1..])
  }

  /** The watchdog did not cancel, and the mutex is released past the deadline then in force. */
  predicate HeldTooLong(timeout: nat, r: Refresher, a: Attempt)
    requires r.Armed?
  {
    !WatchdogCancels(timeout, r, a) && r.fire + a.wait > RefreshDeadline(ExpiryAt(r, a, r.fire + a.wait), timeout)
  }

  predicate SomeHeldTooLong(timeout: nat, poll: nat, r: Refresher, script: seq<Attempt>)
    decreases script
  {
    r.Armed? && script != [] &&
    (HeldTooLong(timeout, Woken(r, script[0]), script[0]) || SomeHeldTooLong(timeout, poll, Try(timeout, poll, r, script[0]), script[1..]))
  }

  /** That is: the expiry was moved on by the old deadline, so that the watchdog was content, and the
      mutex is then held past the deadline last recorded, which no watchdog guards. */
  lemma HeldTooLongIff(timeout: nat, r: Refresher, a: Attempt)
    requires r.Armed? && OnTime(timeout, r) && Forward(timeout, r, a)
    ensures var w, release := Woken(r, a), r.fire + a.wait;
            HeldTooLong(timeout, w, a) <==>
              w.expires < ExpiryAt(w, a, RefreshDeadline(w.expires, timeout)) &&
              RefreshDeadline(ExpiryAt(w, a, release), timeout) < release
  {
    var w, release := Woken(r, a), r.fire + a.wait;
    var alarm := RefreshDeadline(w.expires, timeout);
    ExpiryMovesOn(timeout, r, a, release, release);
    if alarm <= release { ExpiryMovesOn(timeout, r, a, alarm, release); } else { ExpiryMovesOn(timeout, r, a, release, alarm); }
  }

  /** Such a wait: the old deadline is 95, an adoption moves the expiry from 100 to 160 at 70, and the
      mutex is released at 160, past the new deadline of 155. */
  lemma LateCancellation(poll: nat)
    ensures var r, a := Armed(60, 100), Attempt(None, 100, [Adoption(10, 160)], 0, Failed);
            OnTime(100, r) && Forward(100, r, a) && Try(100, poll, r, a) == Cancelled(160, 160) && RefreshDeadline(160, 100) == 155
  {
    assert Recorded(100, [Adoption(10, 160)], 100) == 160 && Recorded(100, [Adoption(10, 160)], 35) == 160;
  }

  /** The same even where the expiry was moved on after the timer was set: the attempt is early then,
      and its watchdog waits for the new expiry. */
  lemma WokenIsOnTime(timeout: nat, r: Refresher, a: Attempt)
    requires r.Armed? && OnTime(timeout, r) && Forward(timeout, r, a)
    ensures OnTime(timeout, Woken(r, a)) && r.expires <= Woken(r, a).expires && Forward(timeout, Woken(r, a), a)
  {
  }

  /** One attempt cancels by the deadline of the lock in force exactly if the mutex was not held too
      long, and otherwise when it is released. The expiry never moves back, and a renewed lock was
      written while its predecessor was safely in force. */
  lemma TryInTime(timeout: nat, poll: nat, r: Refresher, a: Attempt)
    requires timeout >= 3 && r.Armed? && OnTime(timeout, r) && Forward(timeout, r, a)
    ensures var w, t := Woken(r, a), Try(timeout, poll, r, a);
            && OnTime(timeout, t) && r.expires <= t.expires
            && (t.Cancelled? ==> (t.at <= RefreshDeadline(t.expires, timeout) <==> !HeldTooLong(timeout, w, a)))
            && (HeldTooLong(timeout, w, a) ==> t == Cancelled(w.fire + a.wait, ExpiryAt(w, a, w.fire + a.wait)))
            && (a.outcome.Renewed? && t.Armed? ==>
                  WrittenAt(w, a) < RefreshDeadline(ExpiryAt(w, a, w.fire + a.wait), timeout))
  {
    hide Recorded;
    var w := Woken(r, a);
    ExpiryMovesOn(timeout, r, a, w.fire + a.wait, w.fire + a.wait);
    if WatchdogAt(timeout, w) <= w.fire + a.wait { ExpiryMovesOn(timeout, r, a, WatchdogAt(timeout, w), w.fire + a.wait); }
  }

  /** Whatever the attempts meet, commands are cancelled by the deadline of the lock then in force,
      before it expires, if and only if no attempt found the mutex held too long. */
  lemma {:induction false} CancelledInTime(timeout: nat, poll: nat, r: Refresher, script: seq<Attempt>)
    requires timeout >= 3 && r.Armed? && OnTime(timeout, r) && AllForward(timeout, poll, r, script)
    ensures var t := TryAll(timeout, poll, r, script);
            && OnTime(timeout, t) && r.expires <= t.expires
            && (t.Cancelled? ==> (t.at <= RefreshDeadline(t.expires, timeout) <==> !SomeHeldTooLong(timeout, poll, r, script)))
            && (t.Armed? ==> !SomeHeldTooLong(timeout, poll, r, script))
    decreases script
  {
    hide Try, OnTime, HeldTooLong, Forward;
    if script != [] {
      TryInTime(timeout, poll, r, script[0]);
      var t := Try(timeout, poll, r, script[0]);
      if t.Armed? { CancelledInTime(timeout, poll, t, script[1..]); }
    }
  }

  /** A lock of one or two nanoseconds is never refreshed: its first attempt is already too late. */
  lemma TinyLocksExpire(timeout: nat, poll: nat, now: int, expires: int, a: Attempt)
    requires timeout < 3 && a.adopted == [] && a.moved.None?
    ensures Try(timeout, poll, First(timeout, now, expires), a).Cancelled?
  {
  }

  // ---------------------------------------------------------------- while a command runs

  /** Nothing but the loop itself takes the mutex or moves the expiry, as while a payload command runs. */
  predicate Quiet(a: Attempt) {
    a.moved.None? && a.adopted == [] && a.wait == 0
  }

  predicate AllQuiet(script: seq<Attempt>) {
    forall a :: a in script ==> Quiet(a)
  }

  /** The least recorded expiry at an instant after the timer was set: an attempt records its own at its end. */
  function InForce(timeout: nat, poll: nat, r: Refresher, script: seq<Attempt>, at: int): int
    decreases script
  {
    if r.Cancelled? || script == [] || at <= r.fire + script[0].work then r.expires
    else InForce(timeout, poll, Try(timeout, poll, r, script[0]), script[1..], at)
  }

  /** The loop has not cancelled before this instant, nor is its next timer due before it. */
  predicate Reaches(timeout: nat, poll: nat, r: Refresher, script: seq<Attempt>, at: int) {
    match TryAll(timeout, poll, r, script)
    case Armed(fire, _) => at <= fire
    case Cancelled(cancelled, _) => at <= cancelled
  }

  lemma QuietTry(timeout: nat, poll: nat, r: Refresher, a: Attempt)
    requires timeout >= 3 && r.Armed? && OnTime(timeout, r) && Quiet(a)
    ensures var t := Try(timeout, poll, r, a);
            && OnTime(timeout, t)
            && (t.Armed? ==> r.fire + a.work < RefreshDeadline(r.expires, timeout))
            && (t.Cancelled? ==> t.expires == r.expires && t.at <= RefreshDeadline(r.expires, timeout))
  {
  }

  /** So no instant past the deadline of the recorded expiry is reached uncancelled. */
  lemma {:induction false} QuietInTime(timeout: nat, poll: nat, r: Refresher, script: seq<Attempt>, at: int)
    requires timeout >= 3 && r.Armed? && OnTime(timeout, r) && AllQuiet(script) && Reaches(timeout, poll, r, script, at)
    ensures at <= RefreshDeadline(InForce(timeout, poll, r, script, at), timeout)
    decreases script
  {
    if script == [] {
    } else {
      QuietTry(timeout, poll, r, script[0]);
      InForceStep(timeout, poll, r, script, at);
      hide Try, InForce, Reaches, OnTime;
      var t := Try(timeout, poll, r, script[0]);
      if r.fire + script[0].work < at && t.Armed? { QuietInTime(timeout, poll, t, script[1..], at); }
    }
  }

  lemma InForceStep(timeout: nat, poll: nat, r: Refresher, script: seq<Attempt>, at: int)
    requires r.Armed? && script != [] && Reaches(timeout, poll, r, script, at)
    ensures var t := Try(timeout, poll, r, script[0]);
            && (at <= r.fire + script[0].work ==> InForce(timeout, poll, r, script, at) == r.expires)
            && (r.fire + script[0].work < at ==>
                  InForce(timeout, poll, r, script, at) == if t.Cancelled? then t.expires else InForce(timeout, poll, t, script[1..], at))
            && (if t.Cancelled? then at <= t.at else Reaches(timeout, poll, t, script[1..], at))
  {
    hide Try;
    var t := Try(timeout, poll, r, script[0]);
    assert TryAll(timeout, poll, r, script) == TryAll(timeout, poll, t, script[1..]);
    assert t.Cancelled? ==> TryAll(timeout, poll, t, script[1..]) == t;
  }

  predicate CancelledBy(r: Refresher, at: int) {
    r.Cancelled? && r.at <= at
  }

  /** An attempt that had to wait for the mutex goes on from its release as a quiet one, unless the
      commands are cancelled by then: already during the wait, or because the deadline has passed. */
  lemma ReleasedIsQuiet(timeout: nat, poll: nat, r: Refresher, a: Attempt)
    requires timeout >= 3 && r.Armed? && OnTime(timeout, r) && Forward(timeout, r, a)
    ensures var start := r.fire + a.wait;
            var released := Armed(start, ExpiryAt(Woken(r, a), a, start));
            CancelledBy(Try(timeout, poll, r, a), start) ||
            (OnTime(timeout, released) && r.expires <= released.expires &&
             Try(timeout, poll, r, a) == Try(timeout, poll, released, Attempt(None, 0, [], a.work, a.outcome)))
  {
    var w, start := Woken(r, a), r.fire + a.wait;
    ExpiryMovesOn(timeout, r, a, start, start);
    if WatchdogAt(timeout, w) <= start { ExpiryMovesOn(timeout, r, a, WatchdogAt(timeout, w), start); }
  }

  // ---------------------------------------------------------------- what an attempt comes to

  /** The end of an attempt, and the deadline of the lock in force when the mutex is free. */
  function EndOf(r: Refresher, a: Attempt): int
    requires r.Armed?
  {
    r.fire + a.wait + a.work
  }

  function DeadlineOf(timeout: nat, r: Refresher, a: Attempt): int
    requires r.Armed?
  {
    RefreshDeadline(ExpiryAt(Woken(r, a), a, r.fire + a.wait), timeout)
  }

  /** What an attempt that ends before the deadline in force comes to: a lost lock cancels at once, a
      failure is retried a poll interval later, but by the deadline, and a renewed lock is due again at
      its own half-life. Every other attempt cancels. */
  lemma AttemptOutcome(timeout: nat, poll: nat, r: Refresher, a: Attempt)
    requires r.Armed?
    ensures var w, t := Woken(r, a), Try(timeout, poll, r, a);
            var end, deadline := EndOf(r, a), DeadlineOf(timeout, r, a);
            if WatchdogCancels(timeout, w, a) || end >= deadline then t.Cancelled?
            else
              match a.outcome
              case OwnershipLost => t.Cancelled? && t.at == end
              case Failed =>
                && t.Armed? && end <= t.fire <= end + poll && t.fire <= deadline && (t.fire < deadline ==> t.fire == end + poll)
                && RefreshDeadline(t.expires, timeout) == deadline
              case Renewed(_) =>
                t.Armed? && t.expires == WrittenAt(w, a) + timeout && t.fire == Max(end, Due(t.expires, timeout))
  {
  }

  /** So one failure does not end a session: with more than a poll interval left, the retry comes
      strictly before the deadline, and if it then succeeds in time the lock is renewed. */
  lemma RetrySucceeds(timeout: nat, poll: nat, r: Refresher, failed: Attempt, renewed: Attempt)
    requires timeout >= 3 && r.Armed? && OnTime(timeout, r) && Quiet(failed) && Quiet(renewed)
    requires failed.outcome.Failed? && renewed.outcome.Renewed?
    requires EndOf(r, failed) + poll + renewed.work < RefreshDeadline(r.expires, timeout)
    ensures var t := Try(timeout, poll, r, failed);
            && t == Armed(EndOf(r, failed) + poll, r.expires) && t.fire < RefreshDeadline(r.expires, timeout)
            && TryAll(timeout, poll, r, [failed, renewed]).Armed?
            && TryAll(timeout, poll, r, [failed, renewed]).expires == WrittenAt(t, renewed) + timeout
  {
    var script, t := [failed, renewed], Try(timeout, poll, r, failed);
    assert script[1..] == [renewed] && [renewed][1..] == [];
    AttemptOutcome(timeout, poll, r, failed);
    AttemptOutcome(timeout, poll, t, renewed);
    hide Try;
    assert TryAll(timeout, poll, r, script) == TryAll(timeout, poll, t, [renewed]);
    assert TryAll(timeout, poll, t, [renewed]) == TryAll(timeout, poll, Try(timeout, poll, t, renewed), []);
  }

  // ---------------------------------------------------------------- failures end

  /** The expiry is moved before the attempt updates. */
  predicate Moves(a: Attempt) {
    a.moved.Some? || a.adopted != []
  }

  /** Every expiry that is adopted is at most this. */
  predicate Within(a: Attempt, last: int) {
    (a.moved.Some? ==> a.moved.value <= last) && (forall i :: 0 <= i < |a.adopted| ==> a.adopted[i].expires <= last)
  }

  function Adoptions(script: seq<Attempt>): nat {
    if script == [] then 0 else (if Moves(script[0]) then 1 else 0) + Adoptions(script[1..])
  }

  /** The timer is set to the very deadline. */
  function AtDeadline(timeout: nat, r: Refresher): nat {
    if r.Armed? && r.fire >= RefreshDeadline(r.expires, timeout) then 1 else 0
  }

  /** A failure goes on by a poll interval or to the deadline; from there only an adoption leads on. */
  lemma FailureAdvances(timeout: nat, poll: nat, r: Refresher, a: Attempt)
    requires r.Armed? && !a.outcome.Renewed? && Try(timeout, poll, r, a).Armed?
    ensures var t := Try(timeout, poll, r, a);
            && r.fire <= t.fire <= RefreshDeadline(t.expires, timeout)
            && (r.fire + poll <= t.fire || AtDeadline(timeout, t) == 1)
            && (AtDeadline(timeout, r) == 1 ==> Moves(a))
            && forall last :: r.expires <= last && Within(a, last) ==> t.expires <= last
  {
    forall last | r.expires <= last && Within(a, last) ensures Try(timeout, poll, r, a).expires <= last {
      RecordedWithin(Woken(r, a).expires, a.adopted, a.wait, last);
    }
  }

  lemma {:induction false} RecordedWithin(expires: int, adopted: seq<Adoption>, after: int, last: int)
    requires expires <= last && forall i :: 0 <= i < |adopted| ==> adopted[i].expires <= last
    ensures Recorded(expires, adopted, after) <= last
    decreases adopted
  {
    if adopted != [] {
      RecordedWithin(if adopted[0].after <= after then adopted[0].expires else expires, adopted[1..], after, last);
    }
  }

  lemma {:induction false} FailuresAdvance(timeout: nat, poll: nat, r: Refresher, script: seq<Attempt>)
    requires r.Armed? && (forall a :: a in script ==> !a.outcome.Renewed?) && TryAll(timeout, poll, r, script).Armed?
    ensures var t := TryAll(timeout, poll, r, script);
            r.fire + (|script| - Adoptions(script) + AtDeadline(timeout, r)) * poll <= t.fire + AtDeadline(timeout, t) * poll
    decreases script
  {
    if script != [] {
      hide AtDeadline;
      assert script[0] in script;
      var t := Try(timeout, poll, r, script[0]);
      FailureAdvances(timeout, poll, r, script[0]);
      FailuresAdvance(timeout, poll, t, script[1..]);
      Steps(poll, |script| - 1 - Adoptions(script[1..]) + AtDeadline(timeout, t), |script| - Adoptions(script) + AtDeadline(timeout, r),
            t.fire - r.fire, AtDeadline(timeout, t));
    }
  }

  lemma Steps(poll: nat, rest: int, all: int, gap: int, last: nat)
    requires 0 <= gap && (poll <= gap || last == 1) && all <= rest + 1 && (poll > gap ==> all <= rest)
    ensures all * poll <= gap + rest * poll
  {
    assert (rest + 1) * poll == rest * poll + poll;
    if poll <= gap { Product(all, rest + 1, poll); } else { Product(all, rest, poll); }
  }

  lemma Product(a: int, b: int, poll: nat)
    requires a <= b
    ensures a * poll <= b * poll
  {
    assert b * poll == a * poll + (b - a) * poll && (b - a) * poll >= 0;
  }

  /** A run of failing refreshes ends in cancellation: every failure, unless it follows an adoption,
      uses up a poll interval of the time to the last deadline that is ever adopted. */
  lemma FailuresEnd(timeout: nat, poll: nat, r: Refresher, script: seq<Attempt>, last: int)
    requires r.Armed? && (forall a :: a in script ==> !a.outcome.Renewed?)
    requires r.expires <= last && (forall a :: a in script ==> Within(a, last))
    requires r.fire <= RefreshDeadline(last, timeout)
    requires RefreshDeadline(last, timeout) - r.fire < (|script| - Adoptions(script) - 1) * poll
    ensures TryAll(timeout, poll, r, script).Cancelled?
  {
    var t, n := TryAll(timeout, poll, r, script), |script| - Adoptions(script);
    assert (n - 1) * poll == n * poll - poll && (n + AtDeadline(timeout, r)) * poll == n * poll + AtDeadline(timeout, r) * poll;
    assert AtDeadline(timeout, t) * poll <= poll && AtDeadline(timeout, r) * poll >= 0;
    if t.Armed? {
      StaysBelow(timeout, poll, r, script, last);
      FailuresAdvance(timeout, poll, r, script);
    }
  }

  lemma {:induction false} StaysBelow(timeout: nat, poll: nat, r: Refresher, script: seq<Attempt>, last: int)
    requires r.Armed? && (forall a :: a in script ==> !a.outcome.Renewed?) && TryAll(timeout, poll, r, script).Armed?
    requires r.expires <= last && (forall a :: a in script ==> Within(a, last))
    requires r.fire <= RefreshDeadline(last, timeout)
    ensures TryAll(timeout, poll, r, script).fire <= RefreshDeadline(last, timeout)
    decreases script
  {
    if script != [] {
      assert script[0] in script;
      FailureAdvances(timeout, poll, r, script[0]);
      StaysBelow(timeout, poll, Try(timeout, poll, r, script[0]), script[1..], last);
    }
  }

  // ---------------------------------------------------------------- the loop

  /** The refresh loop's view of the session: its clock and the recorded expiry. */
  class Refreshing {
    const timeout: nat
    const poll: nat
    var clock: int
    var lockExpiry: int

    constructor (timeout: nat, poll: nat, clock: int, lockExpiry: int)
      ensures this.timeout == timeout && this.poll == poll && this.clock == clock && this.lockExpiry == lockExpiry
    {
      this.timeout, this.poll, this.clock, this.lockExpiry := timeout, poll, clock, lockExpiry;
    }

    /** `startRefreshWatchdog`, the wait for the mutex, and `stopRefreshWatchdog`: the result is when
        the watchdog cancelled, if it did. */
    method AwaitMutex(a: Attempt) returns (cancelled: Option<int>)
      modifies this`clock, this`lockExpiry
      ensures var r := Armed(old(clock), old(lockExpiry));
              && clock == old(clock) + a.wait && lockExpiry == ExpiryAt(r, a, clock)
              && cancelled == if WatchdogCancels(timeout, r, a) then Some(WatchdogAt(timeout, r)) else None
    {
      hide Min, Max, RefreshDeadline;
      var start, expires, released := clock, lockExpiry, clock + a.wait;
      var alarm := Max(clock, RefreshDeadline(expires, timeout));
      var found := expires;
      assert a.adopted[0..] == a.adopted;
      for n := 0 to |a.adopted|
        invariant Recorded(found, a.adopted[n..], Min(alarm - start, a.wait)) == Recorded(expires, a.adopted, Min(alarm - start, a.wait))
        invariant Recorded(lockExpiry, a.adopted[n..], Min(released - start, a.wait)) ==
                  Recorded(expires, a.adopted, Min(released - start, a.wait))
      {
        var adopted := a.adopted[n];
        assert a.adopted[n..][0] == adopted && a.adopted[n..][1..] == a.adopted[n + 1..];
        if adopted.after <= Min(alarm - start, a.wait) { found := adopted.expires; }
        if adopted.after <= Min(released - start, a.wait) { lockExpiry := adopted.expires; }
      }
      cancelled := if alarm <= released && found <= expires then Some(alarm) else None;
      clock := released;
    }

    /** One round of the loop, from the firing of the timer to its next setting. */
    method AttemptRefresh(a: Attempt) returns (r: Refresher)
      modifies this`clock, this`lockExpiry
      ensures r == Try(timeout, poll, Armed(old(clock), old(lockExpiry)), a)
      ensures r.Armed? ==> clock == r.fire && lockExpiry == r.expires
    {
      lockExpiry := a.moved.GetOr(lockExpiry);
      var expires := lockExpiry;
      var cancelled := AwaitMutex(a);
      if cancelled.Some? { return Cancelled(cancelled.value, expires); }
      if DeadlinePassed(clock, Some(lockExpiry), timeout) { return Cancelled(clock, lockExpiry); }
      var started, alarm := clock, RefreshDeadline(lockExpiry, timeout);
      clock := clock + a.work;
      if clock >= alarm { return Cancelled(alarm, lockExpiry); }
      var delay: Option<nat> := None;
      match a.outcome {
        case OwnershipLost =>
        case Failed => delay := RetryDelay(clock, Some(lockExpiry), timeout, poll);
        case Renewed(after) =>
          lockExpiry := started + Min(after, a.work) + timeout;
          delay := Some(RefreshDelay(clock, Some(lockExpiry), timeout));
      }
      if delay.None? { return Cancelled(clock, lockExpiry); }
      clock := clock + delay.value;
      r := Armed(clock, lockExpiry);
    }

    /** The loop, until it is stopped at the end of the script or gives up. */
    method RefreshLoop(script: seq<Attempt>) returns (r: Refresher)
      modifies this
      ensures r == TryAll(timeout, poll, First(timeout, old(clock), old(lockExpiry)), script)
      ensures timeout >= 3 && old(lockExpiry) - timeout <= old(clock) <= RefreshDeadline(old(lockExpiry), timeout) &&
              AllForward(timeout, poll, First(timeout, old(clock), old(lockExpiry)), script) ==>
                && OnTime(timeout, r) && old(lockExpiry) <= r.expires
                && (r.Cancelled? ==>
                      (r.at <= RefreshDeadline(r.expires, timeout) <==>
                       !SomeHeldTooLong(timeout, poll, First(timeout, old(clock), old(lockExpiry)), script)))
    {
      hide Try, RefreshDelay, OnTime, SomeHeldTooLong;
      if timeout >= 3 && lockExpiry - timeout <= clock <= RefreshDeadline(lockExpiry, timeout) {
        FirstIsOnTime(timeout, clock, lockExpiry);
      }
      clock := clock + RefreshDelay(clock, Some(lockExpiry), timeout);
      r := Armed(clock, lockExpiry);
      ghost var start := r;
      var n := 0;
      assert script[0..] == script;
      while n < |script| && r.Armed?
        invariant n <= |script| && (r.Armed? ==> r == Armed(clock, lockExpiry))
        invariant TryAll(timeout, poll, start, script) == TryAll(timeout, poll, r, script[n..])
      {
        assert script[n..][1..] == script[n + 1..];
        r := AttemptRefresh(script[n]);
        n := n + 1;
      }
      if timeout >= 3 && OnTime(timeout, start) && AllForward(timeout, poll, start, script) {
        CancelledInTime(timeout, poll, start, script);
      }
    }
  }
}
