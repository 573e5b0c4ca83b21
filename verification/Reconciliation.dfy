/** `syncer.Sync` of src/main.go with `syncScopes` and `syncScopeGroup` of src/payload.go: an
    incremental sync against the full one. `rclone sync` is taken as the abstract operation that
    makes the destination agree with the source on every admitted path and leaves the rest. */
module Reconciliation {
  import opened Prelude
  import opened Paths
  import opened StandardName
  import opened FilterText
  import opened Rules
  import opened Scopes

  datatype Entry = Folder | File(content: int)

  /** The entries below a root, by path; the root itself is not an entry. */
  type Tree = map<string, Entry>

  /** The metadata paths inside the payload ("" when outside), the user's exclusions, which paths are
      valid UTF-8, and which cannot be inspected. */
  datatype Config = Config(local: string, remote: string, excludes: string -> bool, utf8: string -> bool,
                           broken: string -> bool)

  /** Metadata paths are files below the root, and the root is valid UTF-8. */
  predicate ConfigOk(config: Config) {
    config.utf8(".") && (config.local == "" || Valid(config.local)) && (config.remote == "" || Valid(config.remote))
  }

  function Get(tree: Tree, p: string): Option<Entry> {
    if p in tree then Some(tree[p]) else None
  }

  function StatOf(config: Config, tree: Tree): string -> Stat {
    (p: string) => if config.broken(p) then Broken
                   else if p !in tree then Missing else if tree[p].Folder? then Directory else Other
  }

  function EnvOf(config: Config, source: Tree): Env {
    Env(StatOf(config, source), config.utf8, (p: string) => IsProtected(config.local, config.remote, p))
  }

  // ---------------------------------------------------------------- the abstract operation

  function RcloneSync(source: Tree, dest: Tree, admitted: string -> bool): (r: Tree)
    ensures forall p :: Get(r, p) == if admitted(p) then Get(source, p) else Get(dest, p)
  {
    map p | p in source.Keys + dest.Keys && (if admitted(p) then p in source else p in dest) ::
      if admitted(p) then source[p] else dest[p]
  }

  /** Neither excluded by the user nor metadata; excludes are processed before any other rule. */
  predicate Included(config: Config, p: string) {
    !config.excludes(p) && !FilteredOut(PayloadFilters(config.local, config.remote), StandardPath(p))
  }

  function FullSynced(config: Config, source: Tree, dest: Tree): Tree {
    RcloneSync(source, dest, (p: string) => Included(config, p))
  }

  /** Whether the rule file that is written for a group admits a path. */
  predicate FileAdmits(text: string, p: string) {
    ReadRules(ReadLines(text)).Some? && Admits(ReadRules(ReadLines(text)).value, StandardPath(p))
  }

  function GroupSync(config: Config, source: Tree, dest: Tree, scopes: seq<string>, createDirectories: bool): Tree
    requires forall s :: s in scopes ==> Valid(s)
  {
    var text := FileText(RuleLines(scopes, createDirectories));
    RcloneSync(source, dest, (p: string) => Included(config, p) && FileAdmits(text, p))
  }

  function Existing(source: Tree, scopes: seq<string>): (r: seq<string>)
    ensures forall s :: s in r <==> s in scopes && s in source
  {
    if scopes == [] then []
    else (if scopes[0] in source then [scopes[0]] else []) + Existing(source, scopes[1..])
  }

  function Deleted(source: Tree, scopes: seq<string>): (r: seq<string>)
    ensures forall s :: s in r <==> s in scopes && s !in source
  {
    if scopes == [] then []
    else (if scopes[0] !in source then [scopes[0]] else []) + Deleted(source, scopes[1..])
  }

  /** Deletions first, without creating ancestors; then what exists, with its ancestors. */
  function ScopesSync(config: Config, source: Tree, dest: Tree, scopes: seq<string>): Tree
    requires forall s :: s in scopes ==> Valid(s)
  {
    var gone, kept := Deleted(source, scopes), Existing(source, scopes);
    var between := if gone == [] then dest else GroupSync(config, source, dest, gone, false);
    if kept == [] then between else GroupSync(config, source, between, kept, true)
  }

  /** The destination after a sync of the given scopes. */
  function Synced(config: Config, source: Tree, dest: Tree, scopes: seq<string>): Tree
    requires scopes == ["."] || forall s :: s in scopes ==> Valid(s)
  {
    if scopes == [] then dest
    else if scopes[0] == "." then FullSynced(config, source, dest)
    else ScopesSync(config, source, dest, scopes)
  }

  /** The scopes are those of the batch's unprotected paths, taken in some order. */
  ghost predicate ScopesOf(config: Config, source: Tree, batch: set<string>, scopes: seq<string>)
    requires config.utf8(".")
  {
    exists paths :: IsListing(config, batch, paths) && Reconcile(EnvOf(config, source), paths) == Ok(scopes)
  }

  /** The result follows from the scopes of the batch's unprotected paths in some order. */
  ghost predicate Decides(config: Config, source: Tree, batch: set<string>, r: Result<seq<string>, Failure>)
    requires config.utf8(".")
  {
    exists paths :: Listed(config, source, batch, paths) && Follows(config, Reconcile(EnvOf(config, source), paths), r)
  }

  ghost predicate Listed(config: Config, source: Tree, batch: set<string>, paths: seq<string>)
    requires config.utf8(".")
  {
    IsListing(config, batch, paths)
  }

  /** An error of its own, a scope that cannot be inspected, a failing command, or success. */
  predicate Follows(config: Config, scopes: Result<seq<string>, Error>, r: Result<seq<string>, Failure>) {
    match r
    case Ok(done) => scopes == Ok(done)
    case Err(Rclone) => scopes.Ok? && scopes.value != []
    case Err(Scope(e)) => scopes == Err(e) || (scopes.Ok? && e == Inspect && exists s :: s in scopes.value && config.broken(s))
  }

  ghost predicate IsListing(config: Config, batch: set<string>, paths: seq<string>) {
    forall p :: p in paths <==> p in batch && !IsProtected(config.local, config.remote, p)
  }

  /** The payload paths of the batch are valid. */
  ghost predicate AllValid(config: Config, batch: set<string>) {
    forall p :: p in batch && !IsProtected(config.local, config.remote, p) ==> p == "." || Valid(p)
  }

  /** Neither they nor anything above them are beyond inspection. */
  ghost predicate Inspectable(config: Config, batch: set<string>) {
    forall p, a :: p in batch && !IsProtected(config.local, config.remote, p) && Covers(a, p) ==> !config.broken(a)
  }

  /** Every error of a batch has its cause in one of its payload paths; paths that are gone are none. */
  lemma ErrorHasCause(config: Config, source: Tree, batch: set<string>, paths: seq<string>)
    requires config.utf8(".") && IsListing(config, batch, paths)
    ensures AllValid(config, batch) ==> Reconcile(EnvOf(config, source), paths) != Err(InvalidPath)
    ensures Inspectable(config, batch) ==>
              var r := Reconcile(EnvOf(config, source), paths);
              r != Err(Inspect) && (r.Ok? && r.value != ["."] ==> forall s :: s in r.value ==> !config.broken(s))
  {
    var env := EnvOf(config, source);
    OneDecides(env, paths);
    if Inspectable(config, batch) {
      forall p | p in paths && Valid(p) && Nearest(env, p) != "." ensures !Uninspectable(env, Nearest(env, p)) {
        if a :| BlockedBy(env, a, Nearest(env, p)) { AboveTransitive(a, Nearest(env, p), p); }
      }
      assert forall p :: p in paths ==> RulingOn(env, p) != Uninspected;
      if Reconcile(env, paths).Ok? && Reconcile(env, paths).value != ["."] {
        ScopesAreMinimal(env, paths);
        forall s | s in Reconcile(env, paths).value ensures !config.broken(s) {
          var p :| p in paths && IsScopeOf(env, s, p);
          AboveTransitive(s, Nearest(env, p), p);
        }
      }
    }
  }

  lemma ExistingStep(source: Tree, scopes: seq<string>, n: nat, existing: seq<string>)
    requires n < |scopes|
    ensures existing + Existing(source, scopes[n..]) ==
            (if scopes[n] in source then existing + [scopes[n]] else existing) + Existing(source, scopes[n + 1..])
  {
    assert scopes[n..][1..] == scopes[n + 1..];
  }

  lemma DeletedStep(source: Tree, scopes: seq<string>, n: nat, deleted: seq<string>)
    requires n < |scopes|
    ensures deleted + Deleted(source, scopes[n..]) ==
            (if scopes[n] in source then deleted else deleted + [scopes[n]]) + Deleted(source, scopes[n + 1..])
  {
    assert scopes[n..][1..] == scopes[n + 1..];
  }

  lemma NoScopes(source: Tree)
    ensures Existing(source, []) == [] && Deleted(source, []) == []
  {
  }

  /** The loop of `syncScopes` that tells the scopes that still exist from those that are gone; a
      scope that cannot be inspected stops it. */
  method PartitionScopes(config: Config, source: Tree, scopes: seq<string>)
      returns (ok: bool, existing: seq<string>, deleted: seq<string>)
    ensures ok <==> forall s :: s in scopes ==> !config.broken(s)
    ensures ok ==> existing == Existing(source, scopes) && deleted == Deleted(source, scopes)
  {
    hide Existing, Deleted;
    ok, existing, deleted := true, [], [];
    assert scopes[0..] == scopes;
    for n := 0 to |scopes|
      invariant ok && forall k :: 0 <= k < n ==> !config.broken(scopes[k])
      invariant Existing(source, scopes) == existing + Existing(source, scopes[n..])
      invariant Deleted(source, scopes) == deleted + Deleted(source, scopes[n..])
    {
      ExistingStep(source, scopes, n, existing);
      DeletedStep(source, scopes, n, deleted);
      if config.broken(scopes[n]) { return false, existing, deleted; }
      if scopes[n] in source {
        existing := existing + [scopes[n]];
      } else {
        deleted := deleted + [scopes[n]];
      }
    }
    assert scopes[|scopes|..] == [];
    NoScopes(source);
    assert existing + [] == existing && deleted + [] == deleted;
  }

  // ---------------------------------------------------------------- the operations

  /** How one rclone command ends: a failed one may have done any part of its work. */
  datatype Command = Completes | Fails(part: string -> bool)

  datatype Failure = Scope(error: Error) | Rclone

  /** Each path is as before or, if it is included, as in the source. */
  ghost predicate Partly(config: Config, source: Tree, before: Tree, after: Tree) {
    forall p :: Get(after, p) == Get(before, p) || (Included(config, p) && Get(after, p) == Get(source, p))
  }

  class Syncer {
    const config: Config
    const commands: nat -> Command
    var source: Tree
    var dest: Tree
    var turn: nat

    constructor (config: Config, commands: nat -> Command, source: Tree, dest: Tree)
      ensures this.config == config && this.commands == commands && this.source == source && this.dest == dest && turn == 0
    {
      this.config, this.commands, this.source, this.dest, turn := config, commands, source, dest, 0;
    }

    /** One of the commands since then has failed. */
    ghost predicate SomeFailed(since: nat)
      reads this
    {
      exists t :: since <= t < turn && commands(t).Fails?
    }

    /** No command runs after one that has failed. */
    ghost predicate StopsAtFailure(since: nat)
      reads this
    {
      forall t :: since <= t < turn - 1 ==> commands(t).Completes?
    }

    method Run(admitted: string -> bool) returns (ok: bool)
      modifies this`dest, this`turn
      ensures turn == old(turn) + 1 && (ok <==> commands(old(turn)).Completes?)
      ensures ok ==> dest == RcloneSync(source, old(dest), admitted)
      ensures forall p :: Get(dest, p) == Get(old(dest), p) || (admitted(p) && Get(dest, p) == Get(source, p))
    {
      var command := commands(turn);
      turn := turn + 1;
      ok := command.Completes?;
      dest := if ok then RcloneSync(source, dest, admitted)
              else RcloneSync(source, dest, (p: string) => admitted(p) && command.part(p));
    }

    /** Everything included becomes as in the source, everything else stays. */
    method FullSync() returns (ok: bool)
      modifies this`dest, this`turn
      ensures turn == old(turn) + 1 && (ok <==> commands(old(turn)).Completes?)
      ensures ok ==> forall p :: Get(dest, p) == if Included(config, p) then Get(source, p) else Get(old(dest), p)
      ensures Partly(config, source, old(dest), dest)
    {
      ok := Run((p: string) => Included(config, p));
    }

    method SyncScopeGroup(scopes: seq<string>, createDirectories: bool) returns (ok: bool)
      requires forall s :: s in scopes ==> Valid(s)
      modifies this`dest, this`turn
      ensures turn == old(turn) + 1 && (ok <==> commands(old(turn)).Completes?)
      ensures ok ==> dest == GroupSync(config, source, old(dest), scopes, createDirectories)
      ensures Partly(config, source, old(dest), dest)
    {
      var text := ScopeGroupRules(scopes, createDirectories);
      ok := Run((p: string) => Included(config, p) && FileAdmits(text, p));
    }

    method SyncScopes(scopes: seq<string>) returns (failure: Option<Failure>)
      requires forall s :: s in scopes ==> Valid(s)
      modifies this`dest, this`turn
      ensures failure.None? ==> dest == ScopesSync(config, source, old(dest), scopes)
      ensures failure == Some(Scope(Inspect)) <==> exists s :: s in scopes && config.broken(s)
      ensures failure == Some(Scope(Inspect)) ==> dest == old(dest)
      ensures failure in {None, Some(Scope(Inspect)), Some(Rclone)}
      ensures failure == Some(Rclone) <==> SomeFailed(old(turn))
      ensures failure == Some(Scope(Inspect)) ==> turn == old(turn)
      ensures failure.None? ==>
                turn == old(turn) + (if Deleted(source, scopes) == [] then 0 else 1) + (if Existing(source, scopes) == [] then 0 else 1)
      ensures StopsAtFailure(old(turn))
      ensures Partly(config, source, old(dest), dest)
    {
      hide GroupSync, Existing, Deleted, RcloneSync, Valid, Included, Get;
      var ok, existing, deleted := PartitionScopes(config, source, scopes);
      if !ok { return Some(Scope(Inspect)); }
      if |deleted| > 0 {
        ok := SyncScopeGroup(deleted, false);
        if !ok { return Some(Rclone); }
      }
      if |existing| > 0 {
        ok := SyncScopeGroup(existing, true);
        if !ok { return Some(Rclone); }
      }
      failure := None;
    }

    /** One batch; the result is the list of scopes that was synced. */
    method Sync(batch: set<string>) returns (r: Result<seq<string>, Failure>)
      requires config.utf8(".")
      modifies this`dest, this`turn
      ensures Decides(config, source, batch, r)
      ensures r.Ok? ==> (r.value == ["."] || forall s :: s in r.value ==> Valid(s))
      ensures r.Ok? ==> dest == Synced(config, source, old(dest), r.value)
      ensures r.Err? && r.error.Scope? ==> dest == old(dest)
      ensures r == Err(Rclone) <==> SomeFailed(old(turn))
      ensures StopsAtFailure(old(turn)) && (r.Ok? && r.value == [] ==> turn == old(turn))
      ensures r == Err(Scope(InvalidPath)) ==> !AllValid(config, batch)
      ensures r == Err(Scope(Inspect)) ==> !Inspectable(config, batch)
      ensures Partly(config, source, old(dest), dest)
    {
      hide AllValid, Inspectable;
      var paths: seq<string> := [];
      var left := batch;
      while left != {}
        invariant left <= batch && dest == old(dest) && turn == old(turn)
        invariant forall p :: p in paths <==> p in batch - left && !IsProtected(config.local, config.remote, p)
      {
        var path :| path in left;
        var exact, _ := Protects(config.local, config.remote, path);
        if !exact { paths := paths + [path]; }
        left := left - {path};
      }
      var scopes := ReconciliationScopes(EnvOf(config, source), paths);
      assert Listed(config, source, batch, paths);
      ErrorHasCause(config, source, batch, paths);
      if scopes.Err? { return Err(Scope(scopes.error)); }
      ScopesValid(EnvOf(config, source), paths);
      if |scopes.value| == 0 { return Ok([]); }
      var failure := None;
      if scopes.value[0] == "." {
        var ok := FullSync();
        if ok { FullIsSynced(config, source, old(dest), dest); } else { failure := Some(Rclone); }
      } else {
        failure := SyncScopes(scopes.value);
      }
      r := if failure.Some? then Err(failure.value) else Ok(scopes.value);
    }
  }

  /** What `FullSync` says path by path is the tree `FullSynced`. */
  lemma FullIsSynced(config: Config, source: Tree, before: Tree, after: Tree)
    requires forall p :: Get(after, p) == if Included(config, p) then Get(source, p) else Get(before, p)
    ensures after == FullSynced(config, source, before)
  {
    SameTree(after, FullSynced(config, source, before));
  }

  lemma ScopesValid(env: Env, paths: seq<string>)
    requires EnvOk(env) && Reconcile(env, paths).Ok?
    ensures var scopes := Reconcile(env, paths).value;
            scopes == ["."] || (forall s :: s in scopes ==> Valid(s) && s != ".")
  {
    RootIsInvalid();
    if Reconcile(env, paths).value != ["."] { ScopesAreMinimal(env, paths); }
  }

  // ---------------------------------------------------------------- incremental equals full

  /** The destination agreed with the old source on everything included. */
  ghost predicate Agreed(config: Config, before: Tree, dest: Tree) {
    forall p :: Included(config, p) ==> Get(dest, p) == Get(before, p)
  }

  /** Every included change has itself, an ancestor, or the root in the batch. */
  ghost predicate Covered(config: Config, before: Tree, source: Tree, batch: set<string>) {
    forall p :: Included(config, p) && Get(before, p) != Get(source, p) ==>
      exists b :: b in batch && (b == "." || Covers(b, p))
  }

  /** No payload lies at or below a metadata path. */
  ghost predicate NothingBelowMetadata(config: Config, tree: Tree) {
    forall p, a :: p in tree && Included(config, p) && Covers(a, p) ==> !IsProtected(config.local, config.remote, a)
  }

  /** A covered scope admits the path. */
  lemma ScopeAdmits(scopes: seq<string>, createDirectories: bool, s: string, p: string)
    requires (forall x :: x in scopes ==> Valid(x)) && s in scopes && Covers(s, p)
    ensures FileAdmits(FileText(RuleLines(scopes, createDirectories)), p)
  {
    RuleFileMeaning(scopes, createDirectories, StandardPath(p));
    StandardKeepsCover(s, p);
    assert ScopeIncludes(s, createDirectories, StandardPath(p));
  }

  /** An included path below some scope ends up as in the source; any other ends up as in the
      source or as it was. */
  lemma ScopesSyncAt(config: Config, source: Tree, dest: Tree, scopes: seq<string>, p: string)
    requires forall s :: s in scopes ==> Valid(s)
    ensures Get(ScopesSync(config, source, dest, scopes), p) in {Get(source, p), Get(dest, p)}
    ensures !Included(config, p) ==> Get(ScopesSync(config, source, dest, scopes), p) == Get(dest, p)
    ensures Included(config, p) && CoveredBy(scopes, p) ==>
              Get(ScopesSync(config, source, dest, scopes), p) == Get(source, p)
  {
    var gone, kept := Deleted(source, scopes), Existing(source, scopes);
    if CoveredBy(scopes, p) {
      var s :| s in scopes && Covers(s, p);
      if s in gone { ScopeAdmits(gone, false, s, p); } else { ScopeAdmits(kept, true, s, p); }
    }
  }

  /** Neither the path nor anything above it is metadata. */
  ghost predicate Clear(config: Config, p: string) {
    forall a :: Covers(a, p) ==> !IsProtected(config.local, config.remote, a)
  }

  /** What a path of the batch covers lies below a scope. */
  lemma BatchIsScoped(config: Config, source: Tree, batch: set<string>, paths: seq<string>, b: string, p: string)
    requires config.utf8(".") && IsListing(config, batch, paths)
    requires var env := EnvOf(config, source); Reconcile(env, paths).Ok? && Reconcile(env, paths).value != ["."]
    requires b in batch && !IsProtected(config.local, config.remote, b) && (b == "." || Covers(b, p)) && Clear(config, p)
    ensures CoveredBy(Reconcile(EnvOf(config, source), paths).value, p)
  {
    var env := EnvOf(config, source);
    RootIsInvalid();
    ScopesAreMinimal(env, paths);
    assert b in paths;
    var near := Nearest(env, b);
    var q := Promote(env, near).value;
    AboveTransitive(q, near, b);
    AboveTransitive(q, b, p);
    assert IsScopeOf(env, q, b);
    var c :| c in Reconcile(env, paths).value && Covers(c, q);
    AboveTransitive(c, q, p);
  }

  /** A changed path lies below a scope. */
  lemma ChangeIsScoped(config: Config, before: Tree, source: Tree, batch: set<string>, paths: seq<string>, p: string)
    requires ConfigOk(config) && IsListing(config, batch, paths)
    requires var env := EnvOf(config, source); Reconcile(env, paths).Ok? && Reconcile(env, paths).value != ["."]
    requires Included(config, p) && Get(before, p) != Get(source, p)
    requires Covered(config, before, source, batch)
    requires NothingBelowMetadata(config, before) && NothingBelowMetadata(config, source)
    ensures CoveredBy(Reconcile(EnvOf(config, source), paths).value, p)
  {
    var b :| b in batch && (b == "." || Covers(b, p));
    assert p in before || p in source;
    assert Clear(config, p);
    RootIsProtectedNever(config);
    BatchIsScoped(config, source, batch, paths, b, p);
  }

  lemma RootIsProtectedNever(config: Config)
    requires ConfigOk(config)
    ensures !IsProtected(config.local, config.remote, ".")
  {
    RootIsInvalid();
  }

  /** The premises under which a batch stands for all changes since the last agreement. */
  ghost predicate Complete(config: Config, before: Tree, source: Tree, dest: Tree, batch: set<string>) {
    && ConfigOk(config) && Agreed(config, before, dest) && Covered(config, before, source, batch)
    && NothingBelowMetadata(config, before) && NothingBelowMetadata(config, source)
  }

  /** A successful incremental sync leaves the very destination that a full sync would leave,
      although only the scopes were admitted and deletions ran apart from uploads. */
  lemma IncrementalEqualsFull(config: Config, before: Tree, source: Tree, dest: Tree, batch: set<string>, scopes: seq<string>)
    requires Complete(config, before, source, dest, batch) && ScopesOf(config, source, batch, scopes)
    requires scopes == ["."] || forall s :: s in scopes ==> Valid(s)
    ensures Synced(config, source, dest, scopes) == FullSynced(config, source, dest)
  {
    if scopes != ["."] {
      var paths :| IsListing(config, batch, paths) && Reconcile(EnvOf(config, source), paths) == Ok(scopes);
      var partial, full := Synced(config, source, dest, scopes), FullSynced(config, source, dest);
      forall p ensures Get(partial, p) == Get(full, p) {
        SyncedAt(config, source, dest, scopes, p);
        if Included(config, p) && Get(before, p) != Get(source, p) {
          ChangeIsScoped(config, before, source, batch, paths, p);
        }
      }
      SameTree(partial, full);
    }
  }

  lemma SyncedAt(config: Config, source: Tree, dest: Tree, scopes: seq<string>, p: string)
    requires forall s :: s in scopes ==> Valid(s)
    ensures Get(Synced(config, source, dest, scopes), p) in {Get(source, p), Get(dest, p)}
    ensures !Included(config, p) ==> Get(Synced(config, source, dest, scopes), p) == Get(dest, p)
    ensures Included(config, p) && CoveredBy(scopes, p) ==>
              Get(Synced(config, source, dest, scopes), p) == Get(source, p)
  {
    RootIsInvalid();
    ScopesSyncAt(config, source, dest, scopes, p);
  }

  lemma SameTree(a: Tree, b: Tree)
    requires forall p :: Get(a, p) == Get(b, p)
    ensures a == b
  {
    forall p ensures p in a <==> p in b {
      assert Get(a, p) == Get(b, p);
    }
    forall p | p in a ensures a[p] == b[p] {
      assert Get(a, p) == Get(b, p);
    }
  }

  /** The other side: on names without quotes, an incremental sync changes nothing outside its
      scopes and the ancestors of the scopes that exist. */
  lemma UnrelatedIsUntouched(config: Config, source: Tree, dest: Tree, scopes: seq<string>, p: string)
    requires forall s :: s in scopes ==> Valid(s) && QuoteFree(s)
    requires QuoteFree(p) && !CoveredBy(scopes, p)
    requires forall s :: s in scopes && s in source ==> !Above(p, s)
    ensures Get(Synced(config, source, dest, scopes), p) == Get(dest, p)
  {
    RootIsInvalid();
    var gone, kept := Deleted(source, scopes), Existing(source, scopes);
    GroupLeaves(gone, false, p);
    GroupLeaves(kept, true, p);
  }

  lemma GroupLeaves(scopes: seq<string>, createDirectories: bool, p: string)
    requires forall s :: s in scopes ==> Valid(s) && QuoteFree(s)
    requires QuoteFree(p) && !InGroup(scopes, createDirectories, p)
    ensures !FileAdmits(FileText(RuleLines(scopes, createDirectories)), p)
  {
    RuleFileMeaning(scopes, createDirectories, StandardPath(p));
    GroupOnPaths(scopes, createDirectories, p);
  }

  /** What the user excludes is not synced, in whatever scope it lies. */
  lemma ExcludedIsUntouched(config: Config, source: Tree, dest: Tree, scopes: seq<string>, p: string)
    requires scopes == ["."] || forall s :: s in scopes ==> Valid(s)
    requires config.excludes(p)
    ensures Get(Synced(config, source, dest, scopes), p) == Get(dest, p)
  {
    RootIsInvalid();
    if scopes != ["."] { SyncedAt(config, source, dest, scopes, p); }
  }

  lemma AncestorAdmits(scopes: seq<string>, s: string, a: string)
    requires (forall x :: x in scopes ==> Valid(x)) && s in scopes && Above(a, s)
    ensures FileAdmits(FileText(RuleLines(scopes, true)), a)
  {
    RuleFileMeaning(scopes, true, StandardPath(a));
    assert a in Ancestors(s);
    assert ScopeIncludes(s, true, StandardPath(a));
  }

  /** The ancestors of a scope that exists are synced as single entries, so that nothing in the place
      of one of its directories is in the way. */
  lemma AncestorsAreSynced(config: Config, source: Tree, dest: Tree, scopes: seq<string>, s: string, a: string)
    requires scopes == ["."] || forall s :: s in scopes ==> Valid(s)
    requires s in scopes && s in source && Above(a, s) && Included(config, a)
    ensures Get(Synced(config, source, dest, scopes), a) == Get(source, a)
  {
    hide FileAdmits, Included, RcloneSync;
    RootIsInvalid();
    if scopes != ["."] { AncestorAdmits(Existing(source, scopes), s, a); }
  }

  /** The whole operation, against the full sync. */
  method SyncBatch(syncer: Syncer, batch: set<string>, ghost before: Tree) returns (r: Result<seq<string>, Failure>)
    requires Complete(syncer.config, before, syncer.source, syncer.dest, batch)
    modifies syncer`dest, syncer`turn
    ensures r.Ok? ==> syncer.dest == FullSynced(syncer.config, old(syncer.source), old(syncer.dest))
    ensures r.Ok? ==> Agreed(syncer.config, old(syncer.source), syncer.dest)
    ensures Partly(syncer.config, old(syncer.source), old(syncer.dest), syncer.dest)
  {
    ghost var source, dest := syncer.source, syncer.dest;
    r := syncer.Sync(batch);
    if r.Ok? {
      assert ScopesOf(syncer.config, source, batch, r.value);
      IncrementalEqualsFull(syncer.config, before, source, dest, batch, r.value);
    }
  }
}
