/** `reconciliationScopes` of src/payload.go: from changed paths to the fewest subtrees that
    cover them. */
module Scopes {
  import opened Prelude
  import opened Paths

  /** What `os.Lstat` says of a path: `Missing` stands for "does not exist" and "a parent is not
      a directory", `Broken` for every other error. */
  datatype Stat = Directory | Other | Missing | Broken

  datatype Error = InvalidPath | Inspect

  /** The source tree, `utf8.ValidString`, and the exact protection of metadata paths. */
  datatype Env = Env(stat: string -> Stat, utf8: string -> bool, protects: string -> bool)

  predicate EnvOk(env: Env) {
    env.utf8(".")
  }

  // ---------------------------------------------------------------- one path

  /** The nearest ancestor that a filter can express. */
  function Nearest(env: Env, p: string): (q: string)
    requires EnvOk(env) && (p == "." || Valid(p))
    ensures env.utf8(q) && (q == "." || (Valid(q) && Covers(q, p)))
    decreases Depth(p)
  {
    if env.utf8(p) then p
    else
      DirShorter(p);
      DirAbove(p);
      var q := Nearest(env, Dir(p));
      q
  }

  /** Nothing from the path up to its nearest expressible ancestor can be expressed. */
  lemma {:induction false} NearestMeaning(env: Env, p: string)
    requires EnvOk(env) && Valid(p)
    ensures var q := Nearest(env, p);
            forall a :: Covers(a, p) && a != q && (q == "." || Above(q, a)) ==> !env.utf8(a)
    decreases Depth(p)
  {
    var q := Nearest(env, p);
    RootIsInvalid();
    if !env.utf8(p) {
      DirShorter(p);
      if Dir(p) != "." { NearestMeaning(env, Dir(p)); }
      forall a | Covers(a, p) && a != q && (q == "." || Above(q, a)) ensures !env.utf8(a) {
        if a != p { AboveDir(a, p); }
      }
    }
  }

  /** The path itself, or its ancestor below which nothing is left. */
  function Promote(env: Env, p: string): (r: Result<string, Error>)
    requires Valid(p)
    ensures r.Ok? ==> Valid(r.value) && Covers(r.value, p)
    decreases Depth(p)
  {
    var parent := Dir(p);
    DirShorter(p);
    DirAbove(p);
    if parent == "." then Ok(p)
    else
      match env.stat(parent)
      case Directory => Ok(p)
      case Broken => Err(Inspect)
      case _ => Promote(env, parent)
  }

  /** What promotion means: the scope hangs from the root or from an existing directory, and no
      ancestor that was passed is a directory. */
  lemma {:induction false} PromoteMeaning(env: Env, p: string)
    requires Valid(p) && Promote(env, p).Ok?
    ensures var q := Promote(env, p).value;
            (Dir(q) == "." || env.stat(Dir(q)) == Directory) &&
            forall a :: Above(a, p) && Covers(q, a) ==> env.stat(a) != Directory && env.stat(a) != Broken
    decreases Depth(p)
  {
    var parent, q := Dir(p), Promote(env, p).value;
    DirShorter(p);
    DirAbove(p);
    if q != p { PromoteMeaning(env, parent); }
    forall a | Above(a, p) && Covers(q, a)
      ensures env.stat(a) != Directory && env.stat(a) != Broken
    {
      AboveDir(a, p);
    }
  }

  /** An ancestor that cannot be inspected comes before any existing directory. */
  ghost predicate Uninspectable(env: Env, p: string) {
    exists a :: BlockedBy(env, a, p)
  }

  ghost predicate BlockedBy(env: Env, a: string, p: string) {
    Above(a, p) && env.stat(a) == Broken && forall b :: Above(a, b) && Above(b, p) ==> env.stat(b) in {Missing, Other}
  }

  /** Promotion fails exactly then; in particular missing ancestors do not stop it. */
  lemma {:induction false} PromoteFailsIff(env: Env, p: string)
    requires Valid(p)
    ensures Promote(env, p).Err? <==> Uninspectable(env, p)
    ensures Promote(env, p).Err? ==> Promote(env, p).error == Inspect
    decreases Depth(p)
  {
    var parent := Dir(p);
    DirShorter(p);
    DirAbove(p);
    forall a | Above(a, p) ensures parent != "." && Covers(a, parent) { AboveDir(a, p); }
    if parent != "." {
      match env.stat(parent)
      case Directory =>
      case Broken => assert BlockedBy(env, parent, p);
      case _ =>
        PromoteFailsIff(env, parent);
        if a :| BlockedBy(env, a, parent) {
          AboveTransitive(a, parent, p);
          assert BlockedBy(env, a, p);
        }
        if a :| BlockedBy(env, a, p) {
          assert BlockedBy(env, a, parent) by {
            forall b | Above(a, b) && Above(b, parent) ensures env.stat(b) in {Missing, Other} { AboveTransitive(b, parent, p); }
          }
        }
    }
  }

  // ---------------------------------------------------------------- all paths

  /** The promoted, unprotected paths in input order; `None` when the root itself is asked for. */
  function Gather(env: Env, paths: seq<string>): (r: Result<Option<seq<string>>, Error>)
    requires EnvOk(env)
    ensures r.Ok? && r.value.Some? ==> forall q :: q in r.value.value ==> Valid(q) && !env.protects(q)
  {
    if paths == [] then Ok(Some([])) else GatherOne(env, paths[0], Gather(env, paths[1..]))
  }

  /** One path in front of what the rest gathers to; the first to fail or to ask for the root
      decides. */
  function GatherOne(env: Env, p: string, rest: Result<Option<seq<string>>, Error>): Result<Option<seq<string>>, Error>
    requires EnvOk(env)
  {
    if p == "." then Ok(None)
    else if !Valid(p) then Err(InvalidPath)
    else
      var near := Nearest(env, p);
      if near == "." then Ok(None)
      else
        match Promote(env, near)
        case Err(e) => Err(e)
        case Ok(q) => if env.protects(q) then rest else Prepend([q], rest)
  }

  function Prepend(done: seq<string>, r: Result<Option<seq<string>>, Error>): Result<Option<seq<string>>, Error> {
    match r
    case Ok(Some(rest)) => Ok(Some(done + rest))
    case _ => r
  }

  /** The scope of one changed path, before collapsing. */
  predicate IsScopeOf(env: Env, q: string, p: string)
    requires EnvOk(env)
  {
    Valid(p) && Nearest(env, p) != "." && Promote(env, Nearest(env, p)) == Ok(q) && !env.protects(q)
  }

  lemma {:induction false} GatherMembers(env: Env, paths: seq<string>)
    requires EnvOk(env) && Gather(env, paths).Ok? && Gather(env, paths).value.Some?
    ensures forall q :: q in Gather(env, paths).value.value <==> exists p :: p in paths && IsScopeOf(env, q, p)
    ensures forall p :: p in paths ==> Valid(p) && Nearest(env, p) != "." && Promote(env, Nearest(env, p)).Ok?
  {
    if paths != [] {
      GatherMembers(env, paths[1..]);
      var all, rest := Gather(env, paths).value.value, Gather(env, paths[1..]).value.value;
      forall q | q in all ensures exists p :: p in paths && IsScopeOf(env, q, p) {
        if q !in rest { assert IsScopeOf(env, q, paths[0]); }
      }
      forall q, p | p in paths && IsScopeOf(env, q, p) ensures q in all {
        assert p == paths[0] || p in paths[1..];
      }
    }
  }

  // ---------------------------------------------------------------- sorting

  predicate Ascending(s: seq<string>) {
    forall i, j :: 0 <= i < j < |s| ==> !Less(s[j], s[i])
  }

  predicate StrictlyAscending(s: seq<string>) {
    forall i, j :: 0 <= i < j < |s| ==> Less(s[i], s[j])
  }

  function Insert(p: string, s: seq<string>): (r: seq<string>)
    ensures multiset(r) == multiset(s) + multiset{p}
  {
    if s == [] || !Less(s[0], p) then [p] + s
    else
      assert s == [s[0]] + s[1..];
      [s[0]] + Insert(p, s[1..])
  }

  /** `sort.Strings`. */
  function Sort(s: seq<string>): (r: seq<string>)
    ensures multiset(r) == multiset(s)
  {
    if s == [] then []
    else
      assert s == [s[0]] + s[1..];
      Insert(s[0], Sort(s[1..]))
  }

  lemma {:induction false} InsertAscending(p: string, s: seq<string>)
    requires Ascending(s)
    ensures Ascending(Insert(p, s))
  {
    if s != [] && Less(s[0], p) {
      InsertAscending(p, s[1..]);
      var rest := Insert(p, s[1..]);
      forall j | 0 <= j < |rest| ensures !Less(rest[j], s[0]) {
        assert rest[j] in multiset(rest);
        assert rest[j] in s[1..] || rest[j] == p;
        LessTotal(p, s[0]);
      }
    } else if s != [] {
      forall j | 0 <= j < |s| ensures !Less(s[j], p) {
        LessTotal(s[j], p);
        LessTotal(s[0], p);
        if j > 0 && Less(s[j], p) {
          LessTotal(s[0], s[j]);
          if Less(p, s[0]) { LessTransitive(s[j], p, s[0]); }
        }
      }
    }
  }

  lemma {:induction false} SortAscending(s: seq<string>)
    ensures Ascending(Sort(s))
    ensures forall p :: p in Sort(s) <==> p in s
  {
    if s != [] {
      SortAscending(s[1..]);
      InsertAscending(s[0], Sort(s[1..]));
    }
    forall p ensures p in Sort(s) <==> p in s {
      assert p in Sort(s) <==> p in multiset(Sort(s));
      assert p in s <==> p in multiset(s);
    }
  }

  // ---------------------------------------------------------------- collapsing

  predicate CoveredBy(scopes: seq<string>, p: string) {
    exists a :: a in scopes && Covers(a, p)
  }

  /** Keep a path unless one kept before covers it. */
  function Collapse(sorted: seq<string>): seq<string> {
    if sorted == [] then []
    else
      var kept, p := Collapse(sorted[..|sorted| - 1]), sorted[|sorted| - 1];
      if CoveredBy(kept, p) then kept else kept + [p]
  }

  /** `p` is in `s` and nothing of `s` lies above it. */
  predicate Minimal(s: seq<string>, p: string) {
    p in s && forall a :: a in s ==> !Above(a, p)
  }

  lemma AboveLess(a: string, p: string)
    requires Above(a, p)
    ensures Less(a, p)
  {
    assert a <= p;
    PrefixLess(a, p);
  }

  ghost predicate Collapsed(sorted: seq<string>, scopes: seq<string>) {
    && StrictlyAscending(scopes)
    && (forall p :: p in scopes <==> Minimal(sorted, p))
    && (forall p :: p in sorted ==> CoveredBy(scopes, p))
  }

  lemma CollapseCovered(before: seq<string>, kept: seq<string>, p: string)
    requires Collapsed(before, kept) && CoveredBy(kept, p)
    requires forall b :: b in before ==> !Above(p, b)
    ensures Collapsed(before + [p], kept)
  {
    var a :| a in kept && Covers(a, p);
    assert a in before;
    forall q ensures q in kept <==> Minimal(before + [p], q) {
      if q == p && q !in before { assert Above(a, p); }
    }
  }

  lemma CollapseKept(before: seq<string>, kept: seq<string>, p: string)
    requires Collapsed(before, kept) && !CoveredBy(kept, p)
    requires forall b :: b in before ==> !Above(p, b) && !Less(p, b)
    ensures Collapsed(before + [p], kept + [p])
  {
    forall b | b in before ensures b != p && !Above(b, p) {
      if Covers(b, p) {
        var c :| c in kept && Covers(c, b);
        AboveTransitive(c, b, p);
      }
    }
    LessTotal(p, p);
    assert !Above(p, p);
    forall q ensures q in kept + [p] <==> Minimal(before + [p], q) {
      assert q in before + [p] <==> q in before || q == p;
      if q != p { assert q in kept <==> Minimal(before, q); }
    }
    forall k | k in kept ensures Less(k, p) {
      assert Minimal(before, k);
      LessTotal(k, p);
    }
    forall q | q in before + [p] ensures CoveredBy(kept + [p], q) {
      if q == p {
        assert p in kept + [p] && Covers(p, p);
      } else {
        var c :| c in kept && Covers(c, q);
        assert c in kept + [p];
      }
    }
  }

  /** Collapsing the sorted list leaves exactly the minimal paths, in strict order, and they
      cover all the others: siblings that sort between a directory and its contents are no
      obstacle. */
  lemma {:induction false} CollapseIsMinimal(sorted: seq<string>)
    requires Ascending(sorted)
    ensures Collapsed(sorted, Collapse(sorted))
  {
    if sorted != [] {
      var n := |sorted| - 1;
      var before, p := sorted[..n], sorted[n];
      assert sorted == before + [p];
      CollapseIsMinimal(before);
      forall b | b in before ensures !Above(p, b) && !Less(p, b) {
        if Above(p, b) { AboveLess(p, b); }
      }
      if CoveredBy(Collapse(before), p) {
        CollapseCovered(before, Collapse(before), p);
      } else {
        CollapseKept(before, Collapse(before), p);
      }
    }
  }

  /** Everything the result promises, from the changed paths on: the scopes are exactly the
      minimal promoted paths, none lies above another, they cover every promoted path, and each
      hangs from the root or from an existing directory. */
  lemma ScopesAreMinimal(env: Env, paths: seq<string>)
    requires EnvOk(env) && Reconcile(env, paths).Ok? && Reconcile(env, paths).value != ["."]
    ensures var scopes := Reconcile(env, paths).value;
            && StrictlyAscending(scopes)
            && (forall q :: q in scopes <==>
                  (exists p :: p in paths && IsScopeOf(env, q, p)) &&
                  (forall p, a :: p in paths && IsScopeOf(env, a, p) ==> !Above(a, q)))
            && (forall p, q :: p in paths && IsScopeOf(env, q, p) ==> CoveredBy(scopes, q))
            && (forall q :: q in scopes ==> Valid(q) && !env.protects(q) && (Dir(q) == "." || env.stat(Dir(q)) == Directory))
            && (forall p :: p in paths ==> Valid(p) && Nearest(env, p) != "." && Promote(env, Nearest(env, p)).Ok?)
  {
    var normalized := Gather(env, paths).value.value;
    var scopes := Collapse(Sort(normalized));
    GatherMembers(env, paths);
    SortAscending(normalized);
    CollapseIsMinimal(Sort(normalized));
    forall q ensures q in scopes <==>
                       (exists p :: p in paths && IsScopeOf(env, q, p)) &&
                       (forall p, a :: p in paths && IsScopeOf(env, a, p) ==> !Above(a, q))
    {
      assert q in scopes <==> Minimal(Sort(normalized), q);
    }
    forall q | q in scopes
      ensures Valid(q) && !env.protects(q) && (Dir(q) == "." || env.stat(Dir(q)) == Directory)
    {
      var p :| p in paths && IsScopeOf(env, q, p);
      PromoteMeaning(env, Nearest(env, p));
    }
  }

  /** What one path makes of the whole batch, unless an earlier one has decided. */
  datatype Ruling = GoOn | AsksForRoot | IsInvalid | Uninspected

  ghost function RulingOn(env: Env, p: string): Ruling
    requires EnvOk(env)
  {
    if p == "." then AsksForRoot
    else if !Valid(p) then IsInvalid
    else if Nearest(env, p) == "." then AsksForRoot
    else if Uninspectable(env, Nearest(env, p)) then Uninspected
    else GoOn
  }

  /** What the paths that decide make of the batch. */
  function Outcome(ruling: Ruling): Result<seq<string>, Error>
    requires !ruling.GoOn?
  {
    match ruling
    case AsksForRoot => Ok(["."])
    case IsInvalid => Err(InvalidPath)
    case Uninspected => Err(Inspect)
  }

  /** The first path that asks for the root, is invalid or cannot be inspected decides; without any
      there are scopes, and the root is none of them. */
  lemma FirstDecides(env: Env, paths: seq<string>, n: nat)
    requires EnvOk(env) && n <= |paths| && forall k :: 0 <= k < n ==> RulingOn(env, paths[k]) == GoOn
    ensures n < |paths| && RulingOn(env, paths[n]) != GoOn ==>
              Reconcile(env, paths) == Outcome(RulingOn(env, paths[n]))
    ensures n == |paths| ==> Reconcile(env, paths).Ok? && "." !in Reconcile(env, paths).value
  {
    FirstGathered(env, paths, n);
    if n == |paths| { RootIsNoScope(env, paths); }
  }

  /** So, whatever their order: if all go on there are scopes, and otherwise some path that does not
      go on has its way. */
  lemma OneDecides(env: Env, paths: seq<string>)
    requires EnvOk(env)
    ensures (forall p :: p in paths ==> RulingOn(env, p) == GoOn) <==>
            Reconcile(env, paths).Ok? && Reconcile(env, paths).value != ["."]
    ensures (exists p :: p in paths && RulingOn(env, p) != GoOn) ==>
              exists p :: p in paths && RulingOn(env, p) != GoOn && Reconcile(env, paths) == Outcome(RulingOn(env, p))
  {
    var n := FirstToDecide(env, paths);
    FirstDecides(env, paths, n);
    if n < |paths| {
      assert paths[n] in paths;
      if Reconcile(env, paths).Ok? { assert Reconcile(env, paths).value == ["."]; }
    }
  }

  lemma {:induction false} FirstToDecide(env: Env, paths: seq<string>) returns (n: nat)
    requires EnvOk(env)
    ensures n <= |paths| && (forall k :: 0 <= k < n ==> RulingOn(env, paths[k]) == GoOn)
    ensures n < |paths| ==> RulingOn(env, paths[n]) != GoOn
  {
    n := 0;
    if paths != [] && RulingOn(env, paths[0]) == GoOn {
      var m := FirstToDecide(env, paths[1..]);
      n := m + 1;
      assert forall k :: 0 < k < n ==> paths[k] == paths[1..][k - 1];
    }
  }

  lemma {:induction false} FirstGathered(env: Env, paths: seq<string>, n: nat)
    requires EnvOk(env) && n <= |paths| && forall k :: 0 <= k < n ==> RulingOn(env, paths[k]) == GoOn
    ensures n < |paths| && RulingOn(env, paths[n]) != GoOn ==>
              Gather(env, paths) == match RulingOn(env, paths[n])
                                    case AsksForRoot => Ok(None)
                                    case IsInvalid => Err(InvalidPath)
                                    case _ => Err(Inspect)
    ensures n == |paths| ==> Gather(env, paths).Ok? && Gather(env, paths).value.Some?
    decreases |paths|
  {
    if paths != [] {
      if Valid(paths[0]) && Nearest(env, paths[0]) != "." { PromoteFailsIff(env, Nearest(env, paths[0])); }
      if n > 0 { FirstGathered(env, paths[1..], n - 1); }
    }
  }

  /** Two strictly ascending lists of the same strings are the same list. */
  lemma {:induction false} AscendingUnique(a: seq<string>, b: seq<string>)
    requires StrictlyAscending(a) && StrictlyAscending(b) && forall p :: p in a <==> p in b
    ensures a == b
  {
    assert forall k :: 0 <= k < |a| ==> a[k] in b;
    assert forall k :: 0 <= k < |b| ==> b[k] in a;
    if |a| > 0 && |b| > 0 {
      LessTotal(a[0], b[0]);
      LessTotal(a[0], a[0]);
      assert a[0] == b[0];
      forall p ensures p in a[1..] <==> p in b[1..] {
        assert p in a <==> p == a[0] || p in a[1..];
        assert p in b <==> p == b[0] || p in b[1..];
      }
      AscendingUnique(a[1..], b[1..]);
      assert a == [a[0]] + a[1..] == [b[0]] + b[1..] == b;
    }
  }

  /** The result depends on the set of changed paths only, not on their order or repetition. */
  lemma ScopesOfSet(env: Env, paths: seq<string>, others: seq<string>)
    requires EnvOk(env) && forall p :: p in paths <==> p in others
    requires Reconcile(env, paths).Ok? && Reconcile(env, paths).value != ["."]
    ensures Reconcile(env, others) == Reconcile(env, paths)
  {
    ScopesAreMinimal(env, paths);
    GatherSucceeds(env, others);
    RootIsNoScope(env, others);
    ScopesAreMinimal(env, others);
    AscendingUnique(Reconcile(env, paths).value, Reconcile(env, others).value);
  }

  lemma {:induction false} GatherSucceeds(env: Env, paths: seq<string>)
    requires EnvOk(env)
    requires forall p :: p in paths ==> Valid(p) && Nearest(env, p) != "." && Promote(env, Nearest(env, p)).Ok?
    ensures Gather(env, paths).Ok? && Gather(env, paths).value.Some?
  {
    RootIsInvalid();
    if paths != [] { GatherSucceeds(env, paths[1..]); }
  }

  lemma RootIsNoScope(env: Env, paths: seq<string>)
    requires EnvOk(env) && Gather(env, paths).Ok? && Gather(env, paths).value.Some?
    ensures "." !in Reconcile(env, paths).value
  {
    RootIsInvalid();
    SortAscending(Gather(env, paths).value.value);
    CollapseIsMinimal(Sort(Gather(env, paths).value.value));
  }

  // ---------------------------------------------------------------- the operation

  /** What `reconciliationScopes` returns. */
  function Reconcile(env: Env, paths: seq<string>): Result<seq<string>, Error>
    requires EnvOk(env)
  {
    match Gather(env, paths)
    case Err(e) => Err(e)
    case Ok(None) => Ok(["."])
    case Ok(Some(normalized)) => Ok(Collapse(Sort(normalized)))
  }

  lemma PrependNothing(r: Result<Option<seq<string>>, Error>)
    ensures Prepend([], r) == r
  {
    if r.Ok? && r.value.Some? { assert [] + r.value.value == r.value.value; }
  }

  /** One more path gathered. */
  lemma PrependOne(done: seq<string>, q: string, r: Result<Option<seq<string>>, Error>)
    ensures Prepend(done, Prepend([q], r)) == Prepend(done + [q], r)
  {
    if r.Ok? && r.value.Some? { assert done + ([q] + r.value.value) == done + [q] + r.value.value; }
  }

  lemma GatherStep(env: Env, paths: seq<string>, n: nat)
    requires EnvOk(env) && n < |paths|
    ensures Gather(env, paths[n..]) == GatherOne(env, paths[n], Gather(env, paths[n + 1..]))
  {
    assert paths[n..][1..] == paths[n + 1..];
  }

  lemma GatherEnd(env: Env, paths: seq<string>, normalized: seq<string>)
    requires EnvOk(env) && Gather(env, paths) == Prepend(normalized, Gather(env, paths[|paths|..]))
    ensures Gather(env, paths) == Ok(Some(normalized))
  {
    assert normalized + [] == normalized;
  }

  method ReconciliationScopes(env: Env, paths: seq<string>) returns (r: Result<seq<string>, Error>)
    requires EnvOk(env)
    ensures r == Reconcile(env, paths)
  {
    var normalized: seq<string> := [];
    PrependNothing(Gather(env, paths));
    assert paths[0..] == paths;
    hide Gather, Nearest, Promote, Valid, Collapse, Sort;
    for n := 0 to |paths|
      invariant Gather(env, paths) == Prepend(normalized, Gather(env, paths[n..]))
    {
      GatherStep(env, paths, n);
      ghost var rest := Gather(env, paths[n + 1..]);
      var relative := paths[n];
      if relative == "." { return Ok(["."]); }
      if !Valid(relative) { return Err(InvalidPath); }
      relative := NearestExpressible(env, relative);
      if relative == "." { return Ok(["."]); }
      var promoted := PromoteToAncestor(env, relative);
      if promoted.Err? { return Err(promoted.error); }
      if !env.protects(promoted.value) {
        PrependOne(normalized, promoted.value, rest);
        normalized := normalized + [promoted.value];
      }
    }
    GatherEnd(env, paths, normalized);
    SortAscending(normalized);
    var scopes := CollapseSorted(Sort(normalized));
    return Ok(scopes);
  }

  method NearestExpressible(env: Env, p: string) returns (q: string)
    requires EnvOk(env) && Valid(p)
    ensures q == Nearest(env, p)
  {
    q := p;
    while !env.utf8(q)
      invariant (q == "." || Valid(q)) && Nearest(env, p) == Nearest(env, q)
      decreases Depth(q)
    {
      DirShorter(q);
      q := Dir(q);
    }
  }

  method PromoteToAncestor(env: Env, p: string) returns (r: Result<string, Error>)
    requires Valid(p)
    ensures r == Promote(env, p)
  {
    var relative, parent := p, Dir(p);
    while parent != "."
      invariant Valid(relative) && parent == Dir(relative) && Promote(env, p) == Promote(env, relative)
      decreases Depth(parent)
    {
      DirShorter(relative);
      match env.stat(parent) {
        case Directory => break;
        case Broken => return Err(Inspect);
        case _ =>
      }
      relative := parent;
      DirShorter(parent);
      parent := Dir(parent);
    }
    return Ok(relative);
  }

  method CollapseSorted(sorted: seq<string>) returns (scopes: seq<string>)
    requires forall p :: p in sorted ==> Valid(p)
    ensures scopes == Collapse(sorted)
  {
    var selected: map<string, bool> := map[];
    scopes := [];
    for n := 0 to |sorted|
      invariant scopes == Collapse(sorted[..n])
      invariant forall p :: p in selected <==> p in scopes
    {
      assert sorted[..n + 1][..n] == sorted[..n];
      var relative := sorted[n];
      var covered := relative in selected;
      var parent := Dir(relative);
      DirShorter(relative);
      DirAbove(relative);
      forall a | Above(a, relative) ensures Dir(relative) != "." && Covers(a, Dir(relative)) {
        AboveDir(a, relative);
      }
      while parent != "." && !covered
        invariant parent == "." || (Valid(parent) && Above(parent, relative))
        invariant covered ==> CoveredBy(scopes, relative)
        invariant !covered ==>
                    forall a :: a in scopes && Covers(a, relative) ==> parent != "." && Covers(a, parent)
        decreases Depth(parent), !covered
      {
        covered := parent in selected;
        DirShorter(parent);
        DirAbove(parent);
        forall a | Above(a, parent) ensures Dir(parent) != "." && Covers(a, Dir(parent)) {
          AboveDir(a, parent);
        }
        parent := Dir(parent);
      }
      if !covered {
        selected := selected[relative := true];
        scopes := scopes + [relative];
      }
    }
    assert sorted[..|sorted|] == sorted;
  }
}
