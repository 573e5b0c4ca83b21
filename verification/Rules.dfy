/** The rule file of `syncScopeGroup` and the metadata filters, from text to meaning. */
module Rules {
  import opened Prelude
  import opened Paths
  import opened StandardName
  import opened FilterText

  datatype Rule = Rule(admit: bool, pattern: seq<Token>)

  // ---------------------------------------------------------------- writing the rule file

  /** The ancestors of a path, nearest first. */
  function Ancestors(p: string): (r: seq<string>)
    requires Valid(p)
    ensures forall a :: a in r <==> Above(a, p)
    decreases Depth(p)
  {
    DirAbove(p);
    DirShorter(p);
    assert forall a :: Above(a, p) ==> Dir(p) != "." && Covers(a, Dir(p)) by {
      forall a | Above(a, p) ensures Dir(p) != "." && Covers(a, Dir(p)) { AboveDir(a, p); }
    }
    if Dir(p) == "." then []
    else [Dir(p)] + Ancestors(Dir(p))
  }

  function PatternsOf(paths: seq<string>): (r: seq<string>)
    ensures |r| == |paths| && forall i :: 0 <= i < |r| ==> r[i] == ScopePattern(paths[i])
  {
    if paths == [] then [] else [ScopePattern(paths[0])] + PatternsOf(paths[1..])
  }

  /** The patterns one scope asks for: itself, its subtree, and its ancestors one by one. */
  function OneScope(scope: string, createDirectories: bool): seq<string>
    requires Valid(scope)
  {
    [ScopePattern(scope), ScopePattern(scope) + SUBTREE] +
    (if createDirectories then PatternsOf(Ancestors(scope)) else [])
  }

  function Patterns(scopes: seq<string>, createDirectories: bool): seq<string>
    requires forall s :: s in scopes ==> Valid(s)
  {
    if scopes == [] then [] else OneScope(scopes[0], createDirectories) + Patterns(scopes[1..], createDirectories)
  }

  /** First occurrences only, after `seen`. */
  function Distinct(seen: seq<string>, patterns: seq<string>): seq<string>
    decreases |patterns|
  {
    if patterns == [] then []
    else if patterns[0] in seen then Distinct(seen, patterns[1..])
    else [patterns[0]] + Distinct(seen + [patterns[0]], patterns[1..])
  }

  function IncludeLine(pattern: string): string {
    "+ /" + pattern
  }

  const SUBTREE: string := "/" + "**"

  const EXCLUDE_REST: string := "- /**"

  function IncludeLines(patterns: seq<string>): (r: seq<string>)
    ensures |r| == |patterns| && forall i :: 0 <= i < |r| ==> r[i] == IncludeLine(patterns[i])
  {
    if patterns == [] then [] else [IncludeLine(patterns[0])] + IncludeLines(patterns[1..])
  }

  /** The lines of the rule file. */
  function RuleLines(scopes: seq<string>, createDirectories: bool): seq<string>
    requires forall s :: s in scopes ==> Valid(s)
  {
    IncludeLines(Distinct([], Patterns(scopes, createDirectories))) + [EXCLUDE_REST]
  }

  function FileText(lines: seq<string>): string {
    if lines == [] then "" else lines[0] + "\n" + FileText(lines[1..])
  }

  /** The file being written: its text and the patterns already in it. */
  class RuleWriter {
    var text: string
    var written: map<string, bool>
    ghost var lines: seq<string>      // the patterns written so far, in order
    ghost var asked: seq<string>      // the patterns asked for so far, in order

    ghost predicate Current()
      reads this
    {
      && lines == Distinct([], asked)
      && text == FileText(IncludeLines(lines))
      && forall p :: p in written <==> p in lines
    }

    constructor ()
      ensures Current() && asked == []
    {
      text, written, lines, asked := "", map[], [], [];
    }

    /** The `include` closure. */
    method Include(pattern: string)
      requires Current()
      modifies this
      ensures Current() && asked == old(asked) + [pattern]
    {
      DistinctStep([], asked, pattern);
      asked := asked + [pattern];
      if pattern in written { return; }
      written := written[pattern := true];
      text := text + "+ /" + pattern + "\n";
      FileTextAppend(IncludeLines(lines), IncludeLine(pattern));
      assert IncludeLines(lines + [pattern]) == IncludeLines(lines) + [IncludeLine(pattern)];
      assert old(text) + "+ /" + pattern + "\n" == old(text) + (IncludeLine(pattern) + "\n");
      lines := lines + [pattern];
    }
  }

  lemma {:induction false} DistinctMembers(seen: seq<string>, patterns: seq<string>)
    ensures forall p :: p in Distinct(seen, patterns) <==> p in patterns && p !in seen
    decreases |patterns|
  {
    if patterns != [] {
      if patterns[0] in seen {
        DistinctMembers(seen, patterns[1..]);
      } else {
        DistinctMembers(seen + [patterns[0]], patterns[1..]);
      }
    }
  }

  lemma {:induction false} DistinctStep(seen: seq<string>, patterns: seq<string>, p: string)
    ensures Distinct(seen, patterns + [p]) ==
            if p in seen || p in patterns then Distinct(seen, patterns) else Distinct(seen, patterns) + [p]
    ensures forall q :: q in Distinct(seen, patterns) <==> q in patterns && q !in seen
    decreases |patterns|
  {
    DistinctMembers(seen, patterns);
    if patterns == [] {
      assert patterns + [p] == [p] && [p][1..] == [];
    } else {
      assert (patterns + [p])[1..] == patterns[1..] + [p];
      if patterns[0] in seen {
        DistinctStep(seen, patterns[1..], p);
      } else {
        DistinctStep(seen + [patterns[0]], patterns[1..], p);
      }
    }
  }

  lemma {:induction false} FileTextAppend(lines: seq<string>, line: string)
    ensures FileText(lines + [line]) == FileText(lines) + (line + "\n")
  {
    if lines == [] {
      assert lines + [line] == [line] && FileText([line]) == line + "\n" + FileText([line][1..]);
      assert [line][1..] == [];
    } else {
      assert (lines + [line])[1..] == lines[1..] + [line];
      FileTextAppend(lines[1..], line);
    }
  }

  /** The patterns of `parent` and of everything above it. */
  function Upward(parent: string): seq<string>
    requires parent == "." || Valid(parent)
  {
    if parent == "." then [] else [ScopePattern(parent)] + PatternsOf(Ancestors(parent))
  }

  lemma UpwardStep(done: seq<string>, p: string)
    requires Valid(p)
    ensures Dir(p) == "." || Valid(Dir(p))
    ensures Depth(Dir(p)) < Depth(p)
    ensures PatternsOf(Ancestors(p)) == Upward(Dir(p))
    ensures done + Upward(p) == done + [ScopePattern(p)] + Upward(Dir(p))
  {
    DirAbove(p);
    DirShorter(p);
    RootIsInvalid();
  }

  /** The loop over the ancestors of one scope. */
  method IncludeAncestors(writer: RuleWriter, relative: string)
    requires Valid(relative) && writer.Current()
    modifies writer
    ensures writer.Current() && writer.asked == old(writer.asked) + PatternsOf(Ancestors(relative))
  {
    hide Upward, ScopePattern, Ancestors, PatternsOf, Valid, Distinct, FileText;
    ghost var before := writer.asked;
    var parent := Dir(relative);
    UpwardStep(before, relative);
    while parent != "."
      invariant writer.Current() && (parent == "." || Valid(parent))
      invariant before + Upward(Dir(relative)) == writer.asked + Upward(parent)
      decreases Depth(parent)
    {
      UpwardStep(writer.asked, parent);
      var pattern := ScopeFilterPath(parent);
      writer.Include(pattern);
      parent := Dir(parent);
    }
    UpwardEnd(writer.asked);
  }

  lemma UpwardEnd(done: seq<string>)
    ensures done + Upward(".") == done
  {
  }

  lemma PatternsStep(done: seq<string>, scopes: seq<string>, n: nat, createDirectories: bool)
    requires n < |scopes| && forall s :: s in scopes ==> Valid(s)
    ensures done + Patterns(scopes[n..], createDirectories) ==
            done + OneScope(scopes[n], createDirectories) + Patterns(scopes[n + 1..], createDirectories)
  {
    assert scopes[n..][1..] == scopes[n + 1..];
  }

  method IncludeScope(writer: RuleWriter, relative: string, createDirectories: bool)
    requires Valid(relative) && writer.Current()
    modifies writer
    ensures writer.Current() && writer.asked == old(writer.asked) + OneScope(relative, createDirectories)
  {
    hide ScopePattern, Ancestors, PatternsOf, Valid, Distinct, FileText;
    ghost var before := writer.asked;
    var literal := ScopeFilterPath(relative);
    writer.Include(literal);
    writer.Include(literal + SUBTREE);
    assert writer.asked == before + [literal, literal + SUBTREE];
    if createDirectories {
      IncludeAncestors(writer, relative);
    }
  }

  method ScopeGroupRules(scopes: seq<string>, createDirectories: bool) returns (text: string)
    requires forall s :: s in scopes ==> Valid(s)
    ensures text == FileText(RuleLines(scopes, createDirectories))
  {
    var writer := new RuleWriter();
    assert scopes[0..] == scopes;
    assert writer.asked + Patterns(scopes, createDirectories) == Patterns(scopes, createDirectories);
    for n := 0 to |scopes|
      invariant fresh(writer) && writer.Current()
      invariant Patterns(scopes, createDirectories) == writer.asked + Patterns(scopes[n..], createDirectories)
    {
      hide Patterns, OneScope, Distinct, FileText, Valid;
      PatternsStep(writer.asked, scopes, n, createDirectories);
      IncludeScope(writer, scopes[n], createDirectories);
    }
    assert scopes[|scopes|..] == [];
    assert writer.asked == Patterns(scopes, createDirectories);
    FileTextAppend(IncludeLines(writer.lines), EXCLUDE_REST);
    text := writer.text + (EXCLUDE_REST + "\n");
  }

  // ---------------------------------------------------------------- reading it back

  function LineEnd(text: string): (k: nat)
    ensures k <= |text| && '\n' !in text[..k] && (k < |text| ==> text[k] == '\n')
  {
    if text == "" || text[0] == '\n' then 0
    else
      var k := 1 + LineEnd(text[1..]);
      assert text[..k] == [text[0]] + text[1..][..k - 1];
      k
  }

  function ReadLines(text: string): seq<string>
    decreases |text|
  {
    if text == "" then []
    else
      var k := LineEnd(text);
      if k == |text| then [text] else [text[..k]] + ReadLines(text[k + 1..])
  }

  function TrimLeft(s: string): string {
    if s != "" && IsSpace(s[0]) then TrimLeft(s[1..]) else s
  }

  function TrimRight(s: string): string {
    if s != "" && IsSpace(s[|s| - 1]) then TrimRight(s[..|s| - 1]) else s
  }

  /** One line of a filter file, trimmed; patterns are anchored at the root. */
  function ReadRule(line: string): Option<Rule> {
    var rule := TrimRight(TrimLeft(line));
    if |rule| < 3 || rule[1..3] != " /" || (rule[0] != '+' && rule[0] != '-') then None
    else
      match Read(rule[3..])
      case None => None
      case Some(pattern) => Some(Rule(rule[0] == '+', pattern))
  }

  function ReadRules(lines: seq<string>): Option<seq<Rule>> {
    if lines == [] then Some([])
    else
      match (ReadRule(lines[0]), ReadRules(lines[1..]))
      case (Some(rule), Some(rest)) => Some([rule] + rest)
      case _ => None
  }

  lemma {:induction false} FirstLine(line: string, rest: string)
    requires '\n' !in line
    ensures LineEnd(line + "\n" + rest) == |line|
  {
    if line != "" {
      assert (line + "\n" + rest)[1..] == line[1..] + "\n" + rest;
      FirstLine(line[1..], rest);
    }
  }

  lemma {:induction false} LinesRoundTrip(lines: seq<string>)
    requires forall line :: line in lines ==> '\n' !in line
    ensures ReadLines(FileText(lines)) == lines
  {
    if lines != [] {
      var text, rest := FileText(lines), FileText(lines[1..]);
      FirstLine(lines[0], rest);
      assert text[..|lines[0]|] == lines[0] && text[|lines[0]| + 1..] == rest;
      LinesRoundTrip(lines[1..]);
    }
  }

  /** The rules meant for a list of patterns that were written by `scopeFilterPath`. */
  predicate Meant(rule: Rule, pattern: string) {
    rule.admit && Read(pattern) == Some(rule.pattern)
  }

  lemma ReadPlainLine(line: string)
    requires |line| >= 3 && !IsSpace(line[0]) && !IsSpace(line[|line| - 1]) && line[1..3] == " /"
    requires line[0] == '+' || line[0] == '-'
    ensures ReadRule(line) ==
            match Read(line[3..]) case None => None case Some(pattern) => Some(Rule(line[0] == '+', pattern))
  {
  }

  predicate WellFormed(pattern: string) {
    OneLine(pattern) && Read(pattern).Some? && (pattern == "" || !IsSpace(pattern[|pattern| - 1]))
  }

  lemma ReadIncludeLine(pattern: string)
    requires WellFormed(pattern)
    ensures ReadRule(IncludeLine(pattern)) == Some(Rule(true, Read(pattern).value))
    ensures '\n' !in IncludeLine(pattern)
  {
    assert IncludeLine(pattern)[3..] == pattern;
    assert IncludeLine(pattern)[1..3] == " /";
    ReadPlainLine(IncludeLine(pattern));
  }

  lemma ReadExcludeRest()
    ensures ReadRule(EXCLUDE_REST) == Some(Rule(false, [Deep])) && '\n' !in EXCLUDE_REST
  {
    assert EXCLUDE_REST[3..] == "**" && EXCLUDE_REST[1..3] == " /";
    ReadPlainLine(EXCLUDE_REST);
    ReadWildcards();
  }

  lemma {:induction false} ReadIncludeLines(patterns: seq<string>)
    requires forall p :: p in patterns ==> WellFormed(p)
    ensures var lines := IncludeLines(patterns) + [EXCLUDE_REST];
            && (forall line :: line in lines ==> '\n' !in line)
            && ReadRules(lines).Some?
            && |ReadRules(lines).value| == |patterns| + 1
            && (forall i :: 0 <= i < |patterns| ==> Meant(ReadRules(lines).value[i], patterns[i]))
            && ReadRules(lines).value[|patterns|] == Rule(false, [Deep])
  {
    var lines := IncludeLines(patterns) + [EXCLUDE_REST];
    ReadExcludeRest();
    if patterns == [] {
      assert lines == [EXCLUDE_REST] && lines[1..] == [];
      assert ReadRules([]) == Some([]);
    } else {
      assert lines[0] == IncludeLine(patterns[0]) && lines[1..] == IncludeLines(patterns[1..]) + [EXCLUDE_REST];
      ReadIncludeLine(patterns[0]);
      ReadIncludeLines(patterns[1..]);
    }
  }

  /** Every pattern that is asked for is a fit line, and reads back as intended. */
  lemma PatternReads(scope: string)
    ensures Read(ScopePattern(scope)) == Some(Lits(StandardPath(scope)))
    ensures Read(ScopePattern(scope) + SUBTREE) == Some(Lits(StandardPath(scope)) + [Lit(SLASH), Deep])
    ensures WellFormed(ScopePattern(scope)) && WellFormed(ScopePattern(scope) + SUBTREE)
  {
    hide Read, Lits, StandardPath;
    var text := StandardPath(scope);
    ReadWhole(text);
    ReadEscapeAll(text, SUBTREE);
    ReadWildcards();
    EscapeIsOneLine(text);
    SubtreeIsOneLine(ScopePattern(scope));
  }

  lemma SubtreeIsOneLine(pattern: string)
    requires OneLine(pattern)
    ensures OneLine(pattern + SUBTREE) && !IsSpace((pattern + SUBTREE)[|pattern + SUBTREE| - 1])
  {
    assert (pattern + SUBTREE)[|pattern + SUBTREE| - 1] == '*';
  }

  lemma {:induction false} PatternsWellFormed(scopes: seq<string>, createDirectories: bool)
    requires forall s :: s in scopes ==> Valid(s)
    ensures forall p :: p in Patterns(scopes, createDirectories) ==> WellFormed(p)
    ensures forall p :: p in Patterns(scopes, createDirectories) <==>
                          exists s :: s in scopes && p in OneScope(s, createDirectories)
  {
    if scopes != [] {
      PatternsWellFormed(scopes[1..], createDirectories);
      PatternReads(scopes[0]);
      forall a | a in Ancestors(scopes[0]) ensures WellFormed(ScopePattern(a)) { PatternReads(a); }
      var one, rest := OneScope(scopes[0], createDirectories), Patterns(scopes[1..], createDirectories);
      forall p | p in one ensures WellFormed(p) {
        if p != ScopePattern(scopes[0]) && p != ScopePattern(scopes[0]) + SUBTREE {
          var i :| 0 <= i < |one| && one[i] == p;
          assert p == PatternsOf(Ancestors(scopes[0]))[i - 2];
        }
      }
      OneMoreScope(scopes, createDirectories);
    }
  }

  lemma OneMoreScope(scopes: seq<string>, createDirectories: bool)
    requires scopes != [] && forall s :: s in scopes ==> Valid(s)
    requires forall p :: p in Patterns(scopes[1..], createDirectories) <==>
                           exists s :: s in scopes[1..] && p in OneScope(s, createDirectories)
    ensures forall p :: p in Patterns(scopes, createDirectories) <==>
                          exists s :: s in scopes && p in OneScope(s, createDirectories)
  {
    hide OneScope;
    forall p ensures p in Patterns(scopes, createDirectories) <==>
                       exists s :: s in scopes && p in OneScope(s, createDirectories)
    {
      if p in OneScope(scopes[0], createDirectories) { assert scopes[0] in scopes; }
      if s :| s in scopes && p in OneScope(s, createDirectories) {
        assert s == scopes[0] || s in scopes[1..];
      }
    }
  }

  // ---------------------------------------------------------------- what the rules admit

  /** The first rule that matches decides; without one the path is admitted. */
  predicate Admits(rules: seq<Rule>, path: string) {
    if rules == [] then true
    else if Match(rules[0].pattern, path) then rules[0].admit
    else Admits(rules[1..], path)
  }

  lemma {:induction false} AdmitsIncludes(rules: seq<Rule>, path: string)
    requires |rules| >= 1 && rules[|rules| - 1] == Rule(false, [Deep])
    requires forall i :: 0 <= i < |rules| - 1 ==> rules[i].admit
    ensures Admits(rules, path) <==> exists i :: 0 <= i < |rules| - 1 && Match(rules[i].pattern, path)
  {
    if |rules| == 1 {
      DeepMatchesAll(path);
    } else {
      AdmitsIncludes(rules[1..], path);
      if i :| 0 <= i < |rules| - 1 && Match(rules[i].pattern, path) && !Match(rules[0].pattern, path) {
        assert rules[1..][i - 1] == rules[i];
      }
      if j :| 0 <= j < |rules[1..]| - 1 && Match(rules[1..][j].pattern, path) {
        assert rules[j + 1] == rules[1..][j];
      }
    }
  }

  /** What a group of scopes is meant to include, on encoded names. */
  predicate GroupIncludes(scopes: seq<string>, createDirectories: bool, path: string) {
    exists s :: s in scopes && ScopeIncludes(s, createDirectories, path)
  }

  predicate ScopeIncludes(s: string, createDirectories: bool, path: string) {
    Covers(StandardPath(s), path) ||
    (createDirectories && Valid(s) && exists a :: a in Ancestors(s) && path == StandardPath(a))
  }

  predicate PatternMatches(pattern: string, path: string) {
    Read(pattern).Some? && Match(Read(pattern).value, path)
  }

  lemma {:induction false} ListMatches(paths: seq<string>, path: string)
    ensures (exists p :: p in PatternsOf(paths) && PatternMatches(p, path)) <==>
            exists a :: a in paths && path == StandardPath(a)
  {
    if paths != [] {
      ListMatches(paths[1..], path);
      PatternReads(paths[0]);
      LitsMatchExactly(StandardPath(paths[0]), path);
      var first, rest := ScopePattern(paths[0]), PatternsOf(paths[1..]);
      assert PatternsOf(paths) == [first] + rest;
      assert PatternMatches(first, path) <==> path == StandardPath(paths[0]);
      hide PatternMatches, PatternsOf;
      if path == StandardPath(paths[0]) {
        assert first in [first] + rest && paths[0] in paths;
      }
      if a :| a in paths && path == StandardPath(a) { assert a == paths[0] || a in paths[1..]; }
      if p :| p in rest && PatternMatches(p, path) { assert p in [first] + rest; }
      if p :| p in [first] + rest && PatternMatches(p, path) { assert p == first || p in rest; }
    }
  }

  lemma ScopeMatches(s: string, createDirectories: bool, path: string)
    requires Valid(s)
    ensures ScopeIncludes(s, createDirectories, path) <==>
            exists p :: p in OneScope(s, createDirectories) && PatternMatches(p, path)
  {
    var itself, below := ScopePattern(s), ScopePattern(s) + SUBTREE;
    var above := if createDirectories then PatternsOf(Ancestors(s)) else [];
    assert PatternMatches(itself, path) <==> path == StandardPath(s) by {
      PatternReads(s);
      LitsMatchExactly(StandardPath(s), path);
    }
    assert PatternMatches(below, path) <==> Above(StandardPath(s), path) by {
      PatternReads(s);
      SubtreeMatches(StandardPath(s), path);
    }
    ListMatches(Ancestors(s), path);
    ThreeParts(itself, below, above, path);
  }

  lemma ThreeParts(itself: string, below: string, above: seq<string>, path: string)
    ensures (exists p :: p in [itself, below] + above && PatternMatches(p, path)) <==>
            PatternMatches(itself, path) || PatternMatches(below, path) ||
            exists p :: p in above && PatternMatches(p, path)
  {
    hide PatternMatches;
    var all := [itself, below] + above;
    assert all[0] == itself && all[1] == below;
    assert itself in all && below in all;
  }

  /** From the bytes of the rule file to its meaning: splitting it into lines, parsing each and
      taking the first match admits exactly the scopes with their subtrees and, when directories
      may be created, the ancestors as single entries. No name can inject a rule. */
  lemma RuleFileMeaning(scopes: seq<string>, createDirectories: bool, path: string)
    requires forall s :: s in scopes ==> Valid(s)
    ensures var read := ReadRules(ReadLines(FileText(RuleLines(scopes, createDirectories))));
            read.Some? && (Admits(read.value, path) <==> GroupIncludes(scopes, createDirectories, path))
  {
    var wanted := Patterns(scopes, createDirectories);
    var patterns := Distinct([], wanted);
    var lines := RuleLines(scopes, createDirectories);
    PatternsWellFormed(scopes, createDirectories);
    DistinctMembers([], wanted);
    ReadIncludeLines(patterns);
    LinesRoundTrip(lines);
    var rules := ReadRules(lines).value;
    forall i | 0 <= i < |rules| - 1 ensures Meant(rules[i], patterns[i]) {}
    AdmitsIncludes(rules, path);
    AdmittedByPattern(rules, patterns, path);
    forall s | s in scopes
      ensures ScopeIncludes(s, createDirectories, path) <==>
              exists p :: p in OneScope(s, createDirectories) && PatternMatches(p, path)
    {
      ScopeMatches(s, createDirectories, path);
    }
  }

  lemma AdmittedByPattern(rules: seq<Rule>, patterns: seq<string>, path: string)
    requires |rules| == |patterns| + 1
    requires forall i :: 0 <= i < |patterns| ==> Meant(rules[i], patterns[i])
    ensures (exists i :: 0 <= i < |rules| - 1 && Match(rules[i].pattern, path)) <==>
            exists p :: p in patterns && PatternMatches(p, path)
  {
    if i :| 0 <= i < |rules| - 1 && Match(rules[i].pattern, path) {
      assert Meant(rules[i], patterns[i]);
      assert patterns[i] in patterns;
    }
    if p :| p in patterns && PatternMatches(p, path) {
      var i :| 0 <= i < |patterns| && patterns[i] == p;
      assert Meant(rules[i], patterns[i]);
    }
  }

  /** The same in terms of physical paths, as long as no name has the quote character. */
  predicate InGroup(scopes: seq<string>, createDirectories: bool, p: string) {
    exists s :: s in scopes && (Covers(s, p) || (createDirectories && Above(p, s)))
  }

  lemma GroupOnPaths(scopes: seq<string>, createDirectories: bool, p: string)
    requires QuoteFree(p) && forall s :: s in scopes ==> Valid(s) && QuoteFree(s)
    ensures GroupIncludes(scopes, createDirectories, StandardPath(p)) <==> InGroup(scopes, createDirectories, p)
  {
    forall s | s in scopes
      ensures ScopeIncludes(s, createDirectories, StandardPath(p)) <==>
              Covers(s, p) || (createDirectories && Above(p, s))
    {
      StandardCovers(s, p);
      forall a | a in Ancestors(s) ensures StandardPath(p) == StandardPath(a) <==> p == a {
        assert s == a + [SLASH] + s[|a| + 1..];
        StandardCovers(a, p);
      }
      if Above(p, s) { assert p in Ancestors(s); }
    }
  }

  // ---------------------------------------------------------------- metadata

  const TEMP_PREFIX: string := ".rcw-tmp-"

  /** `payloadFilters`: the state files and the temporary files beside the local one. An empty
      filter means that the file lies outside the payload. */
  function PayloadFilters(local: string, remote: string): seq<string> {
    (if local != "" then [LiteralPattern(local + TEMP_PREFIX) + "*", LiteralPattern(local)] else []) +
    (if remote != "" && remote != local then [LiteralPattern(remote)] else [])
  }

  method BuildPayloadFilters(local: string, remote: string) returns (filters: seq<string>)
    ensures filters == PayloadFilters(local, remote)
  {
    hide LiteralPattern;
    filters := [];
    if local != "" {
      var temporary := LiteralFilterPath(local + TEMP_PREFIX);
      filters := filters + [temporary + "*"];
      var literal := LiteralFilterPath(local);
      filters := filters + [literal];
    }
    if remote != "" && remote != local {
      var literal := LiteralFilterPath(remote);
      filters := filters + [literal];
    }
  }

  /** `protects`: is the path metadata itself, or a directory above it? */
  method Protects(local: string, remote: string, path: string) returns (exact: bool, ancestor: bool)
    ensures exact <==> IsProtected(local, remote, path)
    ensures ancestor <==> !exact && (path + "/" <= local || path + "/" <= remote)
  {
    if local != "" && local + TEMP_PREFIX <= path { return true, false; }
    exact, ancestor := false, false;
    var filters := [local, remote];
    for n := 0 to 2
      invariant !exact && (n > 0 && local != "" ==> path != local) && (n > 1 && remote != "" ==> path != remote)
      invariant ancestor <==> (n > 0 && path + "/" <= local) || (n > 1 && path + "/" <= remote)
    {
      if filters[n] == "" { continue; }
      if path == filters[n] { return true, false; }
      if path + "/" <= filters[n] { ancestor := true; }
    }
  }

  predicate IsProtected(local: string, remote: string, path: string) {
    (local != "" && (local + TEMP_PREFIX <= path || path == local)) || (remote != "" && path == remote)
  }

  predicate FilteredOut(filters: seq<string>, path: string) {
    exists f :: f in filters && PatternMatches(f, path)
  }

  /** A text that begins with the prefix and goes on without a slash. */
  predicate Extends(prefix: string, text: string) {
    prefix <= text && SLASH !in text[|prefix|..]
  }

  /** What the metadata filters match, as a text: the names of the files as they are given, and
      what extends the temporary prefix. */
  lemma FiltersOnNames(local: string, remote: string, name: string)
    ensures FilteredOut(PayloadFilters(local, remote), name) <==>
            (local != "" && (Extends(local + TEMP_PREFIX, name) || name == local)) || (remote != "" && name == remote)
  {
    hide Read, Match, LiteralPattern;
    var filters := PayloadFilters(local, remote);
    ExactFilter(local, name);
    ExactFilter(remote, name);
    TemporaryFilter(local, name);
    if local != "" {
      assert filters[0] == LiteralPattern(local + TEMP_PREFIX) + "*" && filters[1] == LiteralPattern(local);
      assert filters[0] in filters && filters[1] in filters;
    }
    if remote != "" && remote != local {
      assert filters[|filters| - 1] == LiteralPattern(remote);
      assert filters[|filters| - 1] in filters;
    }
  }

  lemma ExactFilter(file: string, path: string)
    ensures Read(LiteralPattern(file)).Some? && (Match(Read(LiteralPattern(file)).value, path) <==> path == file)
  {
    ReadLiteral(file, "");
    assert LiteralPattern(file) + "" == LiteralPattern(file);
    assert Lits(file) + [] == Lits(file);
    LitsMatchExactly(file, path);
  }

  lemma TemporaryFilter(local: string, path: string)
    ensures var pattern := LiteralPattern(local + TEMP_PREFIX) + "*";
            Read(pattern).Some? &&
            (Match(Read(pattern).value, path) <==>
             local + TEMP_PREFIX <= path && SLASH !in path[|local + TEMP_PREFIX|..])
  {
    var prefix := local + TEMP_PREFIX;
    ReadLiteral(prefix, "*");
    ReadWildcards();
    MatchLits(prefix, [Segment], path);
    if prefix <= path { SegmentMatches(path[|prefix|..]); }
  }
}
