/** The event loop and the syncer together: after a clean finish the destination is what a full sync
    of the final source would have left, although every sync took only the changes of its batch,
    failed syncs may have done any part of their work, and the source kept changing. */
module WholeSession {
  import opened Prelude
  import opened Paths
  import opened Rules
  import opened Reconciliation
  import Scopes
  import Loop = EventLoop
  import Guarantees = EventLoopTheorems

  /** One sync of the session: the source it saw, how many events had been taken when it began, its
      batch, whether it succeeded, and the destination it left. */
  datatype Attempt = Attempt(source: Tree, began: nat, batch: Loop.Batch, done: bool, after: Tree)

  function Successes(attempts: seq<Attempt>): seq<Loop.Success> {
    if attempts == [] then []
    else
      var before, last := attempts[..|attempts| - 1], attempts[|attempts| - 1];
      if last.done then Successes(before) + [Loop.Success(last.began, last.batch)] else Successes(before)
  }

  /** A success syncs the scopes of its batch; a failure leaves each path as it was or as in the source. */
  ghost predicate Effect(config: Config, dest: Tree, a: Attempt)
    requires config.utf8(".")
  {
    && (forall p :: Get(a.after, p) in {Get(dest, p), Get(a.source, p)})
    && (a.done ==> exists scopes :: DoneBy(config, dest, a, scopes))
  }

  ghost predicate DoneBy(config: Config, dest: Tree, a: Attempt, scopes: seq<string>)
    requires config.utf8(".")
  {
    ScopesOf(config, a.source, a.batch.Keys, scopes) && (scopes == ["."] || forall s :: s in scopes ==> Valid(s)) &&
    a.after == Synced(config, a.source, dest, scopes)
  }

  /** The destination before the k-th sync, or after all of them. */
  function DestBefore(start: Tree, attempts: seq<Attempt>, k: nat): Tree
    requires k <= |attempts|
  {
    if k == 0 then start else attempts[k - 1].after
  }

  /** The event tells of a change of the path: it names the path, something above it, or the root. */
  predicate Tells(config: Config, item: Loop.Change, p: string) {
    (item.path == "." || Covers(item.path, p)) && !IsProtected(config.local, config.remote, item.path)
  }

  /** Where a tree differs from the final source, an event taken after the first `from` tells of it. */
  ghost predicate Delivered(config: Config, taken: seq<Loop.Change>, tree: Tree, from: nat, final: Tree) {
    forall p :: Included(config, p) && Get(tree, p) != Get(final, p) ==>
      exists i :: from <= i < |taken| && Tells(config, taken[i], p)
  }

  /** The syncs of a session, from a destination that agreed with an earlier source. */
  ghost predicate History(config: Config, log: Loop.Log, attempts: seq<Attempt>, base: Tree, start: Tree, final: Tree) {
    && ConfigOk(config) && Agreed(config, base, start) && log.synced == Successes(attempts)
    && NothingBelowMetadata(config, base) && NothingBelowMetadata(config, final)
    && Delivered(config, log.taken, base, 0, final)
    && (forall k :: 0 <= k < |attempts| ==>
          Effect(config, DestBefore(start, attempts, k), attempts[k]) && NothingBelowMetadata(config, attempts[k].source) &&
          Delivered(config, log.taken, attempts[k].source, attempts[k].began, final))
    && (forall j, k :: 0 <= j <= k < |attempts| ==> attempts[j].began <= attempts[k].began)
  }

  /** Every payload event was covered by a sync that began after it and succeeded. */
  ghost predicate AllCovered(config: Config, log: Loop.Log) {
    forall i :: 0 <= i < |log.taken| && !IsProtected(config.local, config.remote, log.taken[i].path) ==> Guarantees.Covered(log, i)
  }

  ghost predicate Quiet(config: Config, taken: seq<Loop.Change>, p: string, from: nat) {
    forall i :: from <= i < |taken| ==> !Tells(config, taken[i], p)
  }

  lemma {:induction false} SuccessAt(attempts: seq<Attempt>, n: nat) returns (k: nat)
    requires n < |Successes(attempts)|
    ensures k < |attempts| && attempts[k].done && Successes(attempts)[n] == Loop.Success(attempts[k].began, attempts[k].batch)
  {
    var before, last := attempts[..|attempts| - 1], attempts[|attempts| - 1];
    if last.done && n == |Successes(before)| {
      k := |attempts| - 1;
    } else {
      k := SuccessAt(before, n);
    }
  }

  /** What one sync of a history does to a path, and what its source has there if no later event tells of it. */
  lemma OneSync(config: Config, log: Loop.Log, attempts: seq<Attempt>, base: Tree, start: Tree, final: Tree, p: string, k: nat)
    requires History(config, log, attempts, base, start, final) && Included(config, p) && k < |attempts|
    ensures Get(attempts[k].after, p) in {Get(DestBefore(start, attempts, k), p), Get(attempts[k].source, p)}
    ensures Quiet(config, log.taken, p, attempts[k].began) ==> Get(attempts[k].source, p) == Get(final, p)
  {
    hide Included, DoneBy, Agreed, NothingBelowMetadata, Successes, Tells;
    assert Effect(config, DestBefore(start, attempts, k), attempts[k]);
    assert Delivered(config, log.taken, attempts[k].source, attempts[k].began, final);
  }

  /** From a moment after which no event tells of the path, it stays as in the final source. */
  lemma {:induction false} Stays(config: Config, log: Loop.Log, attempts: seq<Attempt>, base: Tree, start: Tree, final: Tree,
                                 p: string, from: nat, k: nat, m: nat)
    requires History(config, log, attempts, base, start, final) && Included(config, p) && Quiet(config, log.taken, p, from)
    requires k <= m <= |attempts| && (forall j :: k <= j < m ==> from <= attempts[j].began)
    requires Get(DestBefore(start, attempts, k), p) == Get(final, p)
    ensures Get(DestBefore(start, attempts, m), p) == Get(final, p)
    decreases m
  {
    hide History, Included, Tells;
    if k < m {
      Stays(config, log, attempts, base, start, final, p, from, k, m - 1);
      OneSync(config, log, attempts, base, start, final, p, m - 1);
    }
  }

  /** A successful sync whose batch has a path above leaves the path as in the source it saw. */
  lemma SyncedBelow(config: Config, dest: Tree, a: Attempt, b: string, p: string)
    requires ConfigOk(config) && a.done && Effect(config, dest, a) && Included(config, p) && Clear(config, p)
    requires b in a.batch && !IsProtected(config.local, config.remote, b) && (b == "." || Covers(b, p))
    ensures Get(a.after, p) == Get(a.source, p)
  {
    var scopes :| DoneBy(config, dest, a, scopes);
    if scopes != ["."] {
      var paths :| IsListing(config, a.batch.Keys, paths) && Scopes.Reconcile(EnvOf(config, a.source), paths) == Ok(scopes);
      BatchIsScoped(config, a.source, a.batch.Keys, paths, b, p);
      SyncedAt(config, a.source, dest, scopes, p);
    }
  }

  /** The last event that tells of the path, if any does. */
  lemma {:induction false} LastTold(config: Config, taken: seq<Loop.Change>, p: string, n: nat) returns (i: int)
    requires n <= |taken| && Quiet(config, taken, p, n)
    ensures -1 <= i < n && Quiet(config, taken, p, i + 1) && (i >= 0 ==> Tells(config, taken[i], p))
  {
    if n == 0 || Tells(config, taken[n - 1], p) {
      i := n - 1;
    } else {
      i := LastTold(config, taken, p, n - 1);
    }
  }

  lemma PathIsSynced(config: Config, log: Loop.Log, attempts: seq<Attempt>, base: Tree, start: Tree, final: Tree, p: string)
    requires History(config, log, attempts, base, start, final) && AllCovered(config, log) && Included(config, p)
    requires Clear(config, p)
    ensures Get(DestBefore(start, attempts, |attempts|), p) == Get(final, p)
  {
    hide Included, Clear, History, AllCovered, Effect;
    var i := LastTold(config, log.taken, p, |log.taken|);
    if i < 0 {
      NeverTold(config, log, attempts, base, start, final, p);
      Stays(config, log, attempts, base, start, final, p, 0, 0, |attempts|);
    } else {
      EventCovered(config, log, i);
      var k := CoveringSync(config, log, attempts, base, start, final, i);
      SyncedBelow(config, DestBefore(start, attempts, k), attempts[k], log.taken[i].path, p);
      OneSync(config, log, attempts, base, start, final, p, k);
      Stays(config, log, attempts, base, start, final, p, i + 1, k + 1, |attempts|);
    }
  }

  lemma EventCovered(config: Config, log: Loop.Log, i: nat)
    requires AllCovered(config, log) && i < |log.taken| && !IsProtected(config.local, config.remote, log.taken[i].path)
    ensures Guarantees.Covered(log, i)
  {
  }

  lemma NeverTold(config: Config, log: Loop.Log, attempts: seq<Attempt>, base: Tree, start: Tree, final: Tree, p: string)
    requires History(config, log, attempts, base, start, final) && Included(config, p) && Quiet(config, log.taken, p, 0)
    ensures Get(start, p) == Get(final, p)
  {
    hide Included, Effect, Tells, NothingBelowMetadata, Successes;
    assert Delivered(config, log.taken, base, 0, final);
  }

  /** The successful sync that covered an event, in the history; later ones began after the event too. */
  lemma CoveringSync(config: Config, log: Loop.Log, attempts: seq<Attempt>, base: Tree, start: Tree, final: Tree, i: nat) returns (k: nat)
    requires History(config, log, attempts, base, start, final) && i < |log.taken| && Guarantees.Covered(log, i)
    ensures ConfigOk(config) && k < |attempts| && attempts[k].done && log.taken[i].path in attempts[k].batch
    ensures Effect(config, DestBefore(start, attempts, k), attempts[k])
    ensures forall j :: k <= j < |attempts| ==> i < attempts[j].began
  {
    hide Effect, Delivered, NothingBelowMetadata, Agreed;
    var n :| 0 <= n < |log.synced| && Guarantees.CoveredBy(log, i, n);
    k := SuccessAt(attempts, n);
  }

  lemma StartsAgreed(config: Config, log: Loop.Log, attempts: seq<Attempt>, base: Tree, start: Tree, final: Tree, p: string)
    requires History(config, log, attempts, base, start, final) && Included(config, p)
    ensures Get(start, p) == Get(base, p)
  {
    hide Included, Effect, Delivered, NothingBelowMetadata;
  }

  /** A path that none of the trees has stays away. */
  lemma {:induction false} AbsentStays(config: Config, log: Loop.Log, attempts: seq<Attempt>, base: Tree, start: Tree, final: Tree,
                                       p: string, k: nat)
    requires History(config, log, attempts, base, start, final) && Included(config, p) && k <= |attempts|
    requires p !in base && forall j :: 0 <= j < |attempts| ==> p !in attempts[j].source
    ensures Get(DestBefore(start, attempts, k), p) == None
  {
    hide Included, History;
    if k == 0 {
      StartsAgreed(config, log, attempts, base, start, final, p);
    } else {
      AbsentStays(config, log, attempts, base, start, final, p, k - 1);
      OneSync(config, log, attempts, base, start, final, p, k - 1);
    }
  }

  /** Whoever reads the destination after a clean finish finds the final source. */
  lemma FinishedDestinationAgrees(config: Config, log: Loop.Log, attempts: seq<Attempt>, base: Tree, start: Tree, final: Tree)
    requires History(config, log, attempts, base, start, final) && AllCovered(config, log)
    ensures Agreed(config, final, DestBefore(start, attempts, |attempts|))
  {
    forall p | Included(config, p) ensures Get(DestBefore(start, attempts, |attempts|), p) == Get(final, p) {
      if p in base || p in final || exists j :: 0 <= j < |attempts| && p in attempts[j].source {
        assert Clear(config, p);
        PathIsSynced(config, log, attempts, base, start, final, p);
      } else {
        AbsentStays(config, log, attempts, base, start, final, p, |attempts|);
      }
    }
  }

  /** The whole session: if the loop ends by finishing the session, the destination agrees with the
      final source on everything included. */
  lemma FinishedSessionIsSynced(config: Config, interval: nat, drained: seq<Loop.Change>, command: Loop.Command,
                                inputs: seq<Loop.Input>, attempts: seq<Attempt>, base: Tree, start: Tree, final: Tree)
    requires var loop := Loop.Config(Some((config.local, config.remote)), interval);
             var (w, exit) := Loop.Execute(loop, Loop.Begin(loop, drained, command), inputs);
             exit.Some? && exit.value.Finish? && History(config, w.log, attempts, base, start, final)
    ensures Agreed(config, final, DestBefore(start, attempts, |attempts|))
  {
    var loop := Loop.Config(Some((config.local, config.remote)), interval);
    var (w, exit) := Loop.Execute(loop, Loop.Begin(loop, drained, command), inputs);
    Guarantees.FinishMeansSynced(loop, drained, command, inputs);
    hide Loop.Execute, Loop.Begin;
    assert AllCovered(config, w.log);
    FinishedDestinationAgrees(config, w.log, attempts, base, start, final);
  }
}
