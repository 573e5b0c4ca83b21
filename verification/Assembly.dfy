/** What the transition system takes for granted of its clients' surroundings, from the models that
    show it: that no instant past the deadline is reached while a payload command runs, and that an
    undisturbed upload or download leaves the payload it took; and what the sync takes for granted of
    the names of the state files. */
module Assembly {
  import opened Prelude
  import opened StateFile
  import opened Protocol
  import R = RefreshTiming
  import Rec = Reconciliation
  import opened Paths
  import Rules
  import Filters = MetadataFilters

  // ---------------------------------------------------------------- timers

  /** The refresh loop of a client at its last setting of the timer, or at the release of the mutex
      to a waiting attempt, and what it meets from there on. */
  datatype Loop = Loop(timer: R.Refresher, poll: nat, script: seq<R.Attempt>)

  /** The loop has not cancelled the client's command before the instant, on the client's own clock,
      and the client's recorded expiry is at least the one that the loop has recorded by then. While
      the command runs, nothing else takes the update mutex. */
  predicate Guards(loop: Loop, x: Client, at: int) {
    && x.timeout >= 3 && loop.timer.Armed? && R.OnTime(x.timeout, loop.timer) && R.AllQuiet(loop.script)
    && R.Reaches(x.timeout, loop.poll, loop.timer, loop.script, at)
    && x.view.lockExpiry.Some?
    && R.InForce(x.timeout, loop.poll, loop.timer, loop.script, at) <= x.view.lockExpiry.value
  }

  /** Time that passes without the loops' cancelling is time that the transition system lets pass. */
  lemma TicksArePermitted(s: System, d: nat, loops: seq<Loop>)
    requires |loops| == |s.clients|
    requires forall i :: 0 <= i < |s.clients| && PayloadRunning(s.clients[i]) ==>
               Guards(loops[i], s.clients[i], Clock(s.shared, s.clients[i]) + d)
    ensures CanTick(s, d)
  {
    forall i | 0 <= i < |s.clients| && PayloadRunning(s.clients[i])
      ensures Clock(s.shared, s.clients[i]) + d <= Deadline(s.clients[i])
    {
      var x, loop := s.clients[i], loops[i];
      R.QuietInTime(x.timeout, loop.poll, loop.timer, loop.script, Clock(s.shared, x) + d);
    }
  }

  // ---------------------------------------------------------------- payloads

  /** A number for a payload, as the transition system has it: it tells of the included entries only. */
  ghost predicate Codes(config: Rec.Config, code: Rec.Tree -> int) {
    forall a: Rec.Tree, b: Rec.Tree :: Rec.Agreed(config, a, b) ==> code(a) == code(b)
  }

  lemma FullSyncAgrees(config: Rec.Config, source: Rec.Tree, dest: Rec.Tree)
    ensures Rec.Agreed(config, source, Rec.FullSynced(config, source, dest))
  {
  }

  /** A batch under way: the client's payload is the source, and unless a change is queued that the
      batch does not cover, the batch stands for all changes since the last agreement. */
  ghost predicate Uploads(config: Rec.Config, code: Rec.Tree -> int, x: Client, before: Rec.Tree, source: Rec.Tree,
                          dest: Rec.Tree, batch: set<string>)
  {
    && x.mode.Held? && x.mode.work == Uploading(false) && !x.cancelled && x.payload == code(source)
    && (!x.dirty ==> Rec.Complete(config, before, source, dest, batch))
  }

  /** The destination that an incremental sync leaves is one that the transition system lets the
      upload of a batch end with; undisturbed it is then the client's own payload. */
  lemma BatchMayEnd(config: Rec.Config, code: Rec.Tree -> int, before: Rec.Tree, source: Rec.Tree, dest: Rec.Tree,
                    batch: set<string>, scopes: seq<string>, sh: Shared, x: Client, i: nat)
    requires config.utf8(".") && Codes(config, code) && Uploads(config, code, x, before, source, dest, batch)
    requires Rec.ScopesOf(config, source, batch, scopes) && (scopes == ["."] || forall s :: s in scopes ==> Valid(s))
    ensures var result := code(Rec.Synced(config, source, dest, scopes));
            && CanWork(sh, x, i, UploadDone(result))
            && (!x.dirty ==> ActWork(sh, x, i, UploadDone(result)).0.payload == x.payload)
  {
    if !x.dirty {
      Rec.IncrementalEqualsFull(config, before, source, dest, batch, scopes);
      FullSyncAgrees(config, source, dest);
      assert code(source) == code(Rec.FullSynced(config, source, dest));
    }
  }

  /** The uploads of startup are full syncs, and so is its download. */
  lemma StartupMayEnd(config: Rec.Config, code: Rec.Tree -> int, source: Rec.Tree, dest: Rec.Tree, sh: Shared, x: Client, i: nat)
    requires Codes(config, code) && x.mode.Held? && !x.cancelled
    ensures var result := code(Rec.FullSynced(config, source, dest));
            && (x.payload == code(source) && x.mode.work.Initializing? ==> CanWork(sh, x, i, InitDone(result)))
            && (x.payload == code(source) && x.mode.work.Uploading? ==> CanWork(sh, x, i, UploadDone(result)))
            && (sh.payload == code(source) && x.mode.work.Downloading? ==> CanWork(sh, x, i, DownloadDone(result)))
  {
    FullSyncAgrees(config, source, dest);
    assert code(source) == code(Rec.FullSynced(config, source, dest));
  }

  // ---------------------------------------------------------------- metadata

  /** No directory of the tree is, or lies below, metadata. */
  ghost predicate NoMetadataDirectories(config: Rec.Config, tree: Rec.Tree) {
    forall p, a :: p in tree && Above(a, p) ==> !Rules.IsProtected(config.local, config.remote, a)
  }

  lemma AboveBySlash(prefix: string, p: string) returns (a: string)
    requires prefix <= p && SLASH in p[|prefix|..]
    ensures prefix <= a && Above(a, p)
  {
    var k :| 0 <= k < |p| - |prefix| && p[|prefix|..][k] == SLASH;
    a := p[..|prefix| + k];
    assert p[|a|] == SLASH;
  }

  /** Under names that a caller can check beforehand, what takes part in a sync is what the user does
      not exclude and what is not metadata. */
  lemma IncludedMeaning(config: Rec.Config, p: string)
    requires Filters.Separable(config.local, config.remote)
    ensures Rec.Included(config, p) <==> !config.excludes(p) && !Filters.Metadata(config.local, config.remote, p)
  {
    Filters.SeparableIsExact(config.local, config.remote, p);
  }

  /** Under names that a caller can check beforehand the filters are exact, so that the premise of the
      reconciliation holds of every tree without directories in the place of metadata. */
  lemma SeparableNamesSuffice(config: Rec.Config, tree: Rec.Tree)
    requires Filters.Separable(config.local, config.remote) && NoMetadataDirectories(config, tree)
    ensures Rec.NothingBelowMetadata(config, tree)
  {
    forall p, a | p in tree && Rec.Included(config, p) && Covers(a, p)
      ensures !Rules.IsProtected(config.local, config.remote, a)
    {
      if a == p {
        Filters.SeparableIsExact(config.local, config.remote, p);
        Filters.MetadataIsProtected(config.local, config.remote, p);
        if Rules.IsProtected(config.local, config.remote, p) {
          var b := AboveBySlash(config.local + Rules.TEMP_PREFIX, p);
          assert false;
        }
      }
    }
  }
}
