/** Relative slash-separated paths as src/payload.go handles them: `path.Dir`, the ancestors it
    enumerates, validity, and the byte order of `sort.Strings`. */
module Paths {

  const SLASH: char := '/'

  /** Strings.Split at slashes. */
  function Split(p: string): (parts: seq<string>)
    ensures |parts| >= 1
    decreases |p|
  {
    if p == "" then [""]
    else if p[0] == SLASH then [""] + Split(p[1..])
    else var rest := Split(p[1..]); [[p[0]] + rest[0]] + rest[1..]
  }

  function Join(parts: seq<string>): string
    requires |parts| >= 1
  {
    if |parts| == 1 then parts[0] else parts[0] + [SLASH] + Join(parts[1..])
  }

  lemma {:induction false} JoinSplit(p: string)
    ensures Join(Split(p)) == p
    decreases |p|
  {
    if p != "" {
      JoinSplit(p[1..]);
      var rest := Split(p[1..]);
      if p[0] == SLASH {
        assert Split(p)[1..] == rest;
      } else if |rest| == 1 {
        assert [p[0]] + p[1..] == p;
      } else {
        assert Split(p)[1..] == rest[1..];
        assert p == [p[0]] + (rest[0] + [SLASH] + Join(rest[1..]));
      }
    }
  }

  lemma {:induction false} SplitConcat(a: string, b: string)
    ensures Split(a + [SLASH] + b) == Split(a) + Split(b)
    decreases |a|
  {
    var whole := a + [SLASH] + b;
    if a == "" {
      assert whole[1..] == b;
    } else {
      assert whole[1..] == a[1..] + [SLASH] + b;
      SplitConcat(a[1..], b);
    }
  }

  lemma {:induction false} SplitOne(name: string)
    requires SLASH !in name
    ensures Split(name) == [name]
    decreases |name|
  {
    if name != "" {
      SplitOne(name[1..]);
      assert [name[0]] + name[1..] == name;
    }
  }

  lemma {:induction false} SplitJoin(parts: seq<string>)
    requires |parts| >= 1 && forall name :: name in parts ==> SLASH !in name
    ensures Split(Join(parts)) == parts
  {
    SplitOne(parts[0]);
    if |parts| > 1 {
      SplitJoin(parts[1..]);
      SplitConcat(parts[0], Join(parts[1..]));
    }
  }

  lemma {:induction false} SplitHasNoSlash(p: string)
    ensures forall name :: name in Split(p) ==> SLASH !in name
    decreases |p|
  {
    if p != "" { SplitHasNoSlash(p[1..]); }
  }

  /** What the batch accepts besides ".": a path `path.Clean` leaves alone, relative, and not
      leading out of the root. */
  predicate Valid(p: string) {
    forall name :: name in Split(p) ==> name != "" && name != "." && name != ".."
  }

  lemma RootIsInvalid()
    ensures !Valid(".") && !Valid("")
  {
    SplitOne(".");
    assert "." in Split(".");
    assert Split("") == [""];
    assert "" in Split("");
  }

  /** `a` is a proper ancestor directory of `p`. */
  predicate Above(a: string, p: string) {
    a + [SLASH] <= p
  }

  predicate Covers(a: string, p: string) {
    a == p || Above(a, p)
  }

  function LastSlash(p: string): (k: int)
    ensures -1 <= k < |p|
    ensures k >= 0 ==> p[k] == SLASH
    ensures forall j :: k < j < |p| ==> p[j] != SLASH
  {
    if p == "" then -1
    else if p[|p| - 1] == SLASH then |p| - 1
    else LastSlash(p[..|p| - 1])
  }

  /** `path.Dir` of a valid path; "." stands for the root. */
  function Dir(p: string): string {
    var k := LastSlash(p);
    if k < 0 then "." else p[..k]
  }

  lemma DirAbove(p: string)
    ensures Dir(p) == "." || Above(Dir(p), p)
    ensures Valid(p) && Dir(p) == "." ==> SLASH !in p
  {
    var k := LastSlash(p);
    if k >= 0 {
      assert p == p[..k] + [SLASH] + p[k + 1..];
      SplitConcat(p[..k], p[k + 1..]);
      if p[..k] == "." {
        SplitOne(".");
        assert "." in Split(p);
      }
    }
  }

  /** The chain of `path.Dir` meets every ancestor, and nothing else. */
  lemma AboveDir(a: string, p: string)
    requires Above(a, p)
    ensures Dir(p) == a || Above(a, Dir(p))
    ensures Valid(p) ==> Dir(p) != "." && a != "." && a != ""
  {
    var k := LastSlash(p);
    assert p[|a|] == SLASH;
    assert k >= |a|;
    if k == |a| {
      assert p[..k] == a;
    } else {
      assert a + [SLASH] <= p[..k];
    }
    DirAbove(p);
    AboveValid(a, p);
  }

  lemma AboveValid(a: string, p: string)
    requires Above(a, p)
    ensures Valid(p) ==> Valid(a) && a != "." && a != ""
  {
    var rest := p[|a| + 1..];
    assert p == a + [SLASH] + rest;
    SplitConcat(a, rest);
    assert forall name :: name in Split(a) ==> name in Split(p);
    SplitOne(".");
    assert Split("") == [""];
    if a == "." { assert "." in Split(p); }
    if a == "" { assert "" in Split(p); }
  }

  lemma AboveTransitive(a: string, b: string, c: string)
    requires Covers(a, b) && Covers(b, c)
    ensures Covers(a, c)
    ensures a != b || b != c ==> Above(a, c)
  {
  }

  function Depth(p: string): (d: nat)
  {
    if p == "." then 0 else |p|
  }

  lemma DirShorter(p: string)
    requires Valid(p)
    ensures Depth(Dir(p)) < Depth(p)
    ensures Dir(p) == "." || Valid(Dir(p))
  {
    DirAbove(p);
    RootIsInvalid();
    if Dir(p) != "." { AboveValid(Dir(p), p); }
  }

  // ---------------------------------------------------------------- order

  /** Byte-wise order of strings. */
  predicate Less(a: string, b: string) {
    if b == "" then false
    else if a == "" then true
    else a[0] < b[0] || (a[0] == b[0] && Less(a[1..], b[1..]))
  }

  lemma {:induction false} PrefixLess(a: string, b: string)
    requires a <= b && a != b
    ensures Less(a, b)
  {
    if a != "" { PrefixLess(a[1..], b[1..]); }
  }

  lemma {:induction false} LessTransitive(a: string, b: string, c: string)
    requires Less(a, b) && Less(b, c)
    ensures Less(a, c)
  {
    if a != "" && a[0] == b[0] == c[0] { LessTransitive(a[1..], b[1..], c[1..]); }
  }

  lemma {:induction false} LessTotal(a: string, b: string)
    ensures Less(a, b) || a == b || Less(b, a)
    ensures !(Less(a, b) && Less(b, a)) && !Less(a, a)
  {
    if a != "" && b != "" {
      LessTotal(a[1..], b[1..]);
      LessTotal(a[1..], a[1..]);
      if a[0] == b[0] && a[1..] == b[1..] { assert a == [a[0]] + a[1..] == [b[0]] + b[1..] == b; }
    } else if a != "" {
      LessTotal(a[1..], a[1..]);
    }
  }
}
