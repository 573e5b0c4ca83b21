/** Do the metadata filters, which see Standard-encoded names, hide exactly the metadata, which is
    given by physical names? */
module MetadataFilters {
  import opened Paths
  import opened StandardName
  import opened FixedNames
  import opened Rules

  /** The state files, and the temporary files beside the local one. */
  predicate Metadata(local: string, remote: string, path: string) {
    (local != "" && (Extends(local + TEMP_PREFIX, path) || path == local)) || (remote != "" && path == remote)
  }

  predicate CleanPath(path: string) {
    forall name :: name in Split(path) ==> Clean(name)
  }

  /** No filter, or a file of the tree. */
  predicate Named(file: string) {
    file == "" || Valid(file)
  }

  /** What a caller can check of the names of the state files beforehand. */
  predicate Separable(local: string, remote: string) {
    (local != "" ==> CleanPath(local + TEMP_PREFIX)) &&
    (remote == "" || remote == local || CleanPath(remote) || (local != "" && Extends(local + TEMP_PREFIX, remote)))
  }

  // ---------------------------------------------------------------- extending a path

  function Grown(parts: seq<string>, more: string): (r: seq<string>)
    requires |parts| >= 1
    ensures |r| == |parts| && r[|r| - 1] == parts[|parts| - 1] + more
    ensures forall i :: 0 <= i < |r| - 1 ==> r[i] == parts[i]
  {
    parts[..|parts| - 1] + [parts[|parts| - 1] + more]
  }

  lemma GrownBehind(first: string, rest: seq<string>, more: string)
    requires |rest| >= 1
    ensures Grown([first] + rest, more) == [first] + Grown(rest, more)
  {
  }

  /** A character before the first name. */
  lemma GrownInto(c: char, rest: seq<string>, more: string)
    requires |rest| >= 1
    ensures var grown := Grown(rest, more);
            Grown([[c] + rest[0]] + rest[1..], more) == [[c] + grown[0]] + grown[1..]
  {
    if |rest| == 1 { assert [c] + (rest[0] + more) == [c] + rest[0] + more; }
  }

  /** A text without slashes goes to the last name. */
  lemma {:induction false} SplitGrown(path: string, more: string)
    requires SLASH !in more
    ensures Split(path + more) == Grown(Split(path), more)
    decreases |path|
  {
    hide Grown;
    if path == "" {
      GrownEmpty(more);
      SplitOne(more);
      assert path + more == more;
    } else {
      assert (path + more)[0] == path[0] && (path + more)[1..] == path[1..] + more;
      SplitGrown(path[1..], more);
      GrownBehind("", Split(path[1..]), more);
      GrownInto(path[0], Split(path[1..]), more);
    }
  }

  lemma GrownEmpty(more: string)
    ensures Grown([""], more) == [more]
  {
    assert "" + more == more;
  }

  /** Extending a path, name by name. */
  predicate ExtendsParts(x: seq<string>, y: seq<string>) {
    |x| == |y| >= 1 && x[|x| - 1] <= y[|y| - 1] && forall i :: 0 <= i < |x| - 1 ==> x[i] == y[i]
  }

  lemma ExtendsIsParts(prefix: string, path: string)
    ensures Extends(prefix, path) <==> ExtendsParts(Split(prefix), Split(path))
  {
    var x, y := Split(prefix), Split(path);
    if Extends(prefix, path) {
      SplitGrown(prefix, path[|prefix|..]);
      assert prefix + path[|prefix|..] == path;
    }
    if ExtendsParts(x, y) {
      var more := y[|y| - 1][|x[|x| - 1]|..];
      SplitHasNoSlash(path);
      assert y[|y| - 1] in y;
      assert x[|x| - 1] + more == y[|y| - 1];
      SplitGrown(prefix, more);
      assert Split(prefix + more) == y;
      SamePartsSamePath(prefix + more, path);
    }
  }

  // ---------------------------------------------------------------- one exact filter

  /** Nothing but a clean path is encoded as that path. */
  lemma CleanPathIsExact(file: string, path: string)
    requires CleanPath(file)
    ensures StandardPath(path) == file <==> path == file
  {
    SplitStandard(path);
    var x, y := Split(file), Split(path);
    forall i | 0 <= i < |x| && i < |y| ensures EncodeName(y[i]) == x[i] <==> y[i] == x[i] {
      assert x[i] in x;
      CleanIsExact(x[i], y[i]);
    }
    SamePartsSamePath(StandardPath(path), file);
    SamePartsSamePath(path, file);
  }

  predicate Good(name: string) {
    name != "" && name != "." && name != ".." && SLASH !in name
  }

  predicate AllGood(parts: seq<string>) {
    forall i :: 0 <= i < |parts| ==> Good(parts[i])
  }

  lemma GoodParts(path: string)
    requires Valid(path)
    ensures AllGood(Split(path))
  {
    SplitHasNoSlash(path);
    forall i | 0 <= i < |Split(path)| ensures Good(Split(path)[i]) {
      assert Split(path)[i] in Split(path);
    }
  }

  lemma JoinGood(parts: seq<string>)
    requires |parts| >= 1 && AllGood(parts)
    ensures Valid(Join(parts)) && Split(Join(parts)) == parts
  {
    SplitJoin(parts);
  }

  /** The parts that are no clean names, first those that are not their own encoding. */
  lemma FirstUnclean(file: string) returns (i: nat)
    requires !CleanPath(file)
    ensures i < |Split(file)| && !Clean(Split(file)[i])
    ensures EncodeName(Split(file)[i]) == Split(file)[i] ==> forall name :: name in Split(file) ==> EncodeName(name) == name
  {
    var parts := Split(file);
    if name :| name in parts && EncodeName(name) != name {
      i :| 0 <= i < |parts| && parts[i] == name;
    } else {
      var name :| name in parts && !Clean(name);
      i :| 0 <= i < |parts| && parts[i] == name;
    }
  }

  /** With a name that is not clean the filter misses the file, or hides another one. */
  lemma UncleanPathFails(file: string) returns (path: string)
    requires Valid(file) && !CleanPath(file)
    ensures Valid(path) && (StandardPath(path) == file <==> path != file)
  {
    var parts := Split(file);
    var i := FirstUnclean(file);
    GoodParts(file);
    if EncodeName(parts[i]) != parts[i] {
      path := file;
      SplitStandard(file);
    } else {
      NotSoleIsShared(parts[i]);
      var thin := ThinFrom(0, parts[i]);
      var others := parts[i := thin];
      JoinGood(others);
      path := Join(others);
      SplitStandard(path);
      forall k | 0 <= k < |parts| ensures EncodeName(others[k]) == parts[k] {
        assert parts[k] in parts;
      }
      assert Split(StandardPath(path)) == parts;
      SamePartsSamePath(StandardPath(path), file);
    }
  }

  // ---------------------------------------------------------------- the filter for temporary files

  predicate LastIsStem(path: string) {
    Stem(Split(path)[|Split(path)| - 1])
  }

  lemma TemporaryParts(local: string)
    ensures Split(local + TEMP_PREFIX) == Grown(Split(local), TEMP_PREFIX)
    ensures LastIsStem(local + TEMP_PREFIX)
  {
    SplitGrown(local, TEMP_PREFIX);
  }

  lemma CleanPrefixParts(x: seq<string>, y: seq<string>)
    requires |x| >= 1 && Stem(x[|x| - 1]) && forall name :: name in x ==> Clean(name)
    ensures ExtendsParts(x, EncodeParts(y)) <==> ExtendsParts(x, y)
  {
    hide Clean, Stem, EncodeParts;
    forall i | 0 <= i < |x| && i < |y| ensures EncodeName(y[i]) == x[i] <==> y[i] == x[i] {
      assert x[i] in x;
      CleanIsExact(x[i], y[i]);
    }
    if |x| == |y| {
      assert x[|x| - 1] in x;
      StemIsExact(x[|x| - 1], y[|x| - 1]);
    }
  }

  /** Behind a clean prefix the filter hides exactly the paths that extend it. */
  lemma CleanPrefixIsExact(prefix: string, path: string)
    requires CleanPath(prefix) && LastIsStem(prefix)
    ensures Extends(prefix, StandardPath(path)) <==> Extends(prefix, path)
  {
    SplitStandard(path);
    ExtendsIsParts(prefix, path);
    ExtendsIsParts(prefix, StandardPath(path));
    CleanPrefixParts(Split(prefix), Split(path));
  }

  lemma {:induction false} JoinLonger(parts: seq<string>, i: nat)
    requires i < |parts|
    ensures |parts[i]| <= |Join(parts)|
  {
    if i > 0 { JoinLonger(parts[1..], i - 1); }
  }

  /** A path with these names is long, and so is its encoding. */
  lemma LongPath(parts: seq<string>) returns (path: string)
    requires |parts| >= 1 && AllGood(parts)
    ensures Valid(path) && Split(path) == parts && Split(StandardPath(path)) == EncodeParts(parts)
    ensures |parts[|parts| - 1]| <= |path| && |parts[|parts| - 1]| <= |StandardPath(path)|
  {
    hide Good, Split, EncodeParts, EncodeName, Join, Valid;
    JoinGood(parts);
    path := Join(parts);
    SplitStandard(path);
    JoinLonger(parts, |parts| - 1);
    JoinLonger(EncodeParts(parts), |parts| - 1);
    NameGrows(parts[|parts| - 1]);
  }

  lemma GoodPrefix(local: string)
    requires Valid(local)
    ensures AllGood(Split(local + TEMP_PREFIX))
  {
    GoodParts(local);
    TemporaryParts(local);
    var last := Split(local)[|Split(local)| - 1];
    assert |last + TEMP_PREFIX| > 2 && Good(last) && SLASH !in TEMP_PREFIX;
  }

  lemma GoodChange(x: seq<string>, i: nat, name: string)
    requires i < |x| && Good(name) && AllGood(x)
    ensures AllGood(x[i := name])
  {
    hide Good;
  }

  lemma GoodThin(name: string)
    requires Good(name) && LooseFrom(0, name) && QUOTE in ThinFrom(0, name)
    ensures Good(ThinFrom(0, name))
  {
    hide LooseFrom;
  }

  lemma GoodGrown(name: string, n: nat)
    requires SLASH !in name && |name| > 1
    ensures Good(name + Letters(n + 1))
  {
  }

  /** The names of a path that the filter misses although it extends the prefix, or hides although
      it does not: here a name of the prefix is not its own encoding, */
  lemma UnfixedParts(x: seq<string>, i: nat, n: nat) returns (y: seq<string>)
    requires i < |x| && Stem(x[|x| - 1]) && EncodeName(x[i]) != x[i]
    ensures y == x[|x| - 1 := x[|x| - 1] + Letters(n + 1)]
    ensures ExtendsParts(x, y) && !ExtendsParts(x, EncodeParts(y))
  {
    hide EncodeParts, Stem, EncodeName, Letters;
    var last, more := |x| - 1, Letters(n + 1);
    y := x[last := x[last] + more];
    if i == last { StemNotFixed(x[last], more); }
  }

  /** here one before the last is the encoding of another name too, */
  lemma SharedParts(x: seq<string>, i: nat, n: nat) returns (y: seq<string>)
    requires i < |x| - 1 && Stem(x[|x| - 1]) && EncodeName(x[i]) == x[i] && !Sole(x[i])
    requires forall name :: name in x ==> EncodeName(name) == name
    ensures QUOTE in ThinFrom(0, x[i])
    ensures y == x[|x| - 1 := x[|x| - 1] + Letters(n + 1)][i := ThinFrom(0, x[i])]
    ensures !ExtendsParts(x, y) && ExtendsParts(x, EncodeParts(y))
  {
    hide EncodeParts, Stem, EncodeName, Letters, ThinFrom, LooseFrom;
    var last, more := |x| - 1, Letters(n + 1);
    NotSoleIsShared(x[i]);
    y := x[last := x[last] + more][i := ThinFrom(0, x[i])];
    assert x[last] in x;
    StemFixedGrows(x[last], more);
  }

  /** and here the last one is. */
  lemma SharedLast(x: seq<string>, n: nat) returns (y: seq<string>)
    requires |x| >= 1 && Stem(x[|x| - 1]) && EncodeName(x[|x| - 1]) == x[|x| - 1] && !Sole(x[|x| - 1])
    requires forall name :: name in x ==> EncodeName(name) == name
    ensures y == x[|x| - 1 := ThinFrom(0, x[|x| - 1]) + Letters(n + 1)]
    ensures !ExtendsParts(x, y) && ExtendsParts(x, EncodeParts(y))
  {
    hide EncodeParts, Stem, EncodeName, Letters, ThinFrom, LooseFrom;
    var last := |x| - 1;
    StemIsShared(x[last], n);
    y := x[last := ThinFrom(0, x[last]) + Letters(n + 1)];
    forall k | 0 <= k < last ensures EncodeParts(y)[k] == x[k] { assert x[k] in x; }
  }

  lemma UncleanPrefixParts(x: seq<string>, i: nat, n: nat) returns (y: seq<string>)
    requires i < |x| && Stem(x[|x| - 1]) && |x[|x| - 1]| > 2 && !Clean(x[i]) && AllGood(x)
    requires EncodeName(x[i]) == x[i] ==> forall name :: name in x ==> EncodeName(name) == name
    ensures |y| == |x| && n < |y[|y| - 1]| && AllGood(y)
    ensures ExtendsParts(x, EncodeParts(y)) <==> !ExtendsParts(x, y)
  {
    hide EncodeParts, Stem, EncodeName, ThinFrom, LooseFrom, ExtendsParts;
    var last := |x| - 1;
    if EncodeName(x[i]) != x[i] {
      y := UnfixedParts(x, i, n);
      GoodGrown(x[last], n);
      GoodChange(x, last, x[last] + Letters(n + 1));
    } else if i < last {
      y := SharedParts(x, i, n);
      GoodGrown(x[last], n);
      GoodChange(x, last, x[last] + Letters(n + 1));
      GoodThin(x[i]);
      GoodChange(x[last := x[last] + Letters(n + 1)], i, ThinFrom(0, x[i]));
    } else {
      y := SharedLast(x, n);
      GoodGrown(ThinFrom(0, x[last]), n);
      GoodChange(x, last, ThinFrom(0, x[last]) + Letters(n + 1));
    }
  }

  lemma StemFixedGrows(start: string, more: string)
    requires Stem(start) && EncodeName(start) == start
    ensures start <= EncodeName(start + more)
  {
    StemIsPlain(start, "");
    StemIsPlain(start, more);
    EncodeAppend(0, start, more);
  }

  lemma UncleanPrefixFails(local: string, n: nat) returns (path: string)
    requires Valid(local) && !CleanPath(local + TEMP_PREFIX)
    ensures Valid(path) && |path| > n && |StandardPath(path)| > n
    ensures Extends(local + TEMP_PREFIX, StandardPath(path)) <==> !Extends(local + TEMP_PREFIX, path)
  {
    var prefix := local + TEMP_PREFIX;
    TemporaryParts(local);
    GoodPrefix(local);
    var i := FirstUnclean(prefix);
    var parts := UncleanPrefixParts(Split(prefix), i, n);
    path := LongPath(parts);
    ExtendsIsParts(prefix, path);
    ExtendsIsParts(prefix, StandardPath(path));
  }

  // ---------------------------------------------------------------- all filters

  lemma CleanLocal(local: string)
    requires CleanPath(local + TEMP_PREFIX)
    ensures CleanPath(local) && LastIsStem(local + TEMP_PREFIX)
  {
    TemporaryParts(local);
    var x, y := Split(local), Split(local + TEMP_PREFIX);
    forall i | 0 <= i < |x| ensures Clean(x[i]) {
      assert y[i] in y;
      if i == |x| - 1 { CleanStart(x[i], TEMP_PREFIX); }
    }
  }

  /** Under separable names the filters hide exactly the metadata. */
  lemma SeparableIsExact(local: string, remote: string, path: string)
    requires Separable(local, remote)
    ensures FilteredOut(PayloadFilters(local, remote), StandardPath(path)) <==> Metadata(local, remote, path)
  {
    hide FilteredOut, PayloadFilters, CleanPath, Extends;
    FiltersOnNames(local, remote, StandardPath(path));
    if local != "" {
      CleanLocal(local);
      CleanPathIsExact(local, path);
      CleanPrefixIsExact(local + TEMP_PREFIX, path);
    }
    if CleanPath(remote) { CleanPathIsExact(remote, path); }
  }

  /** Under any others they miss metadata, or hide payload. */
  lemma InseparableFails(local: string, remote: string) returns (path: string)
    requires Named(local) && Named(remote) && !Separable(local, remote)
    ensures Valid(path)
    ensures FilteredOut(PayloadFilters(local, remote), StandardPath(path)) <==> !Metadata(local, remote, path)
  {
    hide FilteredOut, PayloadFilters, CleanPath, Extends, StandardPath;
    if local != "" && !CleanPath(local + TEMP_PREFIX) {
      path := UncleanPrefixFails(local, |local| + |remote|);
    } else {
      path := UncleanPathFails(remote);
      if local != "" {
        CleanLocal(local);
        CleanPathIsExact(local, path);
        CleanPrefixIsExact(local + TEMP_PREFIX, path);
      }
    }
    FiltersOnNames(local, remote, StandardPath(path));
  }

  /** The filters hide exactly the metadata if and only if the names are separable. */
  lemma FiltersHideMetadata(local: string, remote: string)
    requires Named(local) && Named(remote)
    ensures (forall path :: Valid(path) ==>
              (FilteredOut(PayloadFilters(local, remote), StandardPath(path)) <==> Metadata(local, remote, path))) <==>
            Separable(local, remote)
  {
    hide FilteredOut, PayloadFilters, Metadata, Separable, StandardPath;
    if Separable(local, remote) {
      forall path | Valid(path)
        ensures FilteredOut(PayloadFilters(local, remote), StandardPath(path)) <==> Metadata(local, remote, path)
      {
        SeparableIsExact(local, remote, path);
      }
    } else {
      var path := InseparableFails(local, remote);
    }
  }

  // ---------------------------------------------------------------- filters and the protection of events

  /** Events are protected below a slash behind the temporary prefix too. */
  lemma MetadataIsProtected(local: string, remote: string, path: string)
    ensures IsProtected(local, remote, path) <==>
            Metadata(local, remote, path) ||
            (local != "" && local + TEMP_PREFIX <= path && SLASH in path[|local + TEMP_PREFIX|..])
  {
  }

  lemma BelowTemporary(local: string, n: nat) returns (path: string)
    requires Valid(local)
    ensures Valid(path) && |path| > n && |StandardPath(path)| > n
    ensures local + TEMP_PREFIX <= path && !Extends(local + TEMP_PREFIX, StandardPath(path))
  {
    hide EncodeParts, Letters, StandardPath;
    var prefix := local + TEMP_PREFIX;
    GoodPrefix(local);
    var parts := Split(prefix) + [Letters(n + 3)];
    assert Good(Letters(n + 3)) by { GoodLetters(n + 3); }
    path := LongPath(parts);
    ExtendsIsParts(prefix, StandardPath(path));
    AboveParts(prefix, path);
    assert Split(prefix) < parts;
  }

  lemma GoodLetters(n: nat)
    requires n > 2
    ensures Good(Letters(n))
  {
  }

  /** So filters and protection agree on every path if and only if no local state file lies in
      the tree, and the remote one has a clean name. */
  lemma FiltersMatchProtection(local: string, remote: string)
    requires Named(local) && Named(remote)
    ensures (forall path :: Valid(path) ==>
              (FilteredOut(PayloadFilters(local, remote), StandardPath(path)) <==> IsProtected(local, remote, path))) <==>
            local == "" && (remote == "" || CleanPath(remote))
  {
    hide FilteredOut, PayloadFilters, StandardPath, CleanPath, Extends;
    if local != "" {
      var path := BelowTemporary(local, |local| + |remote|);
      FiltersOnNames(local, remote, StandardPath(path));
      assert IsProtected(local, remote, path);
    } else {
      FiltersHideMetadata(local, remote);
      forall path | Valid(path) ensures IsProtected(local, remote, path) <==> Metadata(local, remote, path) {
        MetadataIsProtected(local, remote, path);
      }
      if !CleanPath(remote) && remote != "" {
        var path := InseparableFails(local, remote);
        MetadataIsProtected(local, remote, path);
      }
    }
  }

  // ---------------------------------------------------------------- such names

  lemma EncodeQuoted(n: nat)
    requires n in {1, 2}
    ensures EncodeName(Quotes(n) + "a") == [QUOTE, QUOTE, 'a']
  {
    var name := Quotes(n) + "a";
    assert Quotes(1) == [QUOTE] && Quotes(2) == [QUOTE, QUOTE];
    assert name[|name| - 1] == 'a';
    RoundQuotes(0, n, "a");
    assert EncodeFrom(n, "a") == Quotes(2) + "a" by { assert Quotes(2) + "a" + "" == Quotes(2) + "a"; }
  }

  lemma OneName(name: string)
    requires SLASH !in name
    ensures StandardPath(name) == EncodeName(name)
  {
    SplitOne(name);
    assert EncodeParts([name]) == [EncodeName(name)];
  }

  /** A quote before a letter: the state file itself is protected, but not filtered out. */
  lemma MissedStateFile()
    ensures var file := [QUOTE, 'a'];
            IsProtected(file, "", file) && !FilteredOut(PayloadFilters(file, ""), StandardPath(file))
  {
    var file := [QUOTE, 'a'];
    assert Quotes(1) + "a" == file;
    EncodeQuoted(1);
    OneName(file);
    FiltersOnNames(file, "", StandardPath(file));
  }

  /** So is one with a tab in its name. */
  lemma MissedControlName()
    ensures IsProtected("s\tt", "", "s\tt") && !FilteredOut(PayloadFilters("s\tt", ""), StandardPath("s\tt"))
  {
    var file := "s\tt";
    OneName(file);
    TabIsEncoded();
    FiltersOnNames(file, "", StandardPath(file));
  }

  lemma TabIsEncoded()
    ensures EncodeName("s\tt") == ['s', Picture('\t'), 't']
  {
    assert "s\tt"[1..] == "\tt" && "\tt"[1..] == "t" && "t"[1..] == "" && Quotes(0) == "";
    assert EncodeFrom(0, "t") == "t";
    assert EncodeFrom(0, "\tt") == [Picture('\t'), 't'];
  }

  /** Two quotes: another file is filtered out, but not protected. */
  lemma HiddenPayload()
    ensures var file, other := [QUOTE, QUOTE, 'a'], [QUOTE, 'a'];
            !IsProtected(file, "", other) && FilteredOut(PayloadFilters(file, ""), StandardPath(other))
  {
    var file, other := [QUOTE, QUOTE, 'a'], [QUOTE, 'a'];
    assert Quotes(1) + "a" == other;
    EncodeQuoted(1);
    OneName(other);
    FiltersOnNames(file, "", StandardPath(other));
  }
}
