/** Filter patterns as text: how src/payload.go writes literal paths, and how the filter language
    reads them back. The reader knows the part of rclone's glob syntax that is written here:
    backslash escapes, one-character classes, `*` and `**`. */
module FilterText {
  import opened Prelude
  import opened Paths
  import opened StandardName

  /** `Segment` is `*`, any run without a slash; `Deep` is `**`, any run at all. */
  datatype Token = Lit(c: char) | Segment | Deep

  const META: string := "\\*?[]{}"

  /** unicode.IsSpace. */
  predicate IsSpace(c: char) {
    var n := c as int;
    9 <= n <= 13 || n == 32 || n == 0x85 || n == 0xA0 || n == 0x1680 || 0x2000 <= n <= 0x200A ||
    n == 0x2028 || n == 0x2029 || n == 0x202F || n == 0x205F || n == 0x3000
  }

  // ---------------------------------------------------------------- writing

  function HexDigit(n: nat): (c: char)
    requires n < 16
    ensures IsHex(c) && HexValue(c) == n
  {
    if n < 10 then ('0' as int + n) as char else ('a' as int + n - 10) as char
  }

  predicate IsHex(c: char) {
    '0' <= c <= '9' || 'a' <= c <= 'f'
  }

  function HexValue(c: char): (n: nat)
    requires IsHex(c)
    ensures n < 16
  {
    if c <= '9' then c as int - '0' as int else c as int - 'a' as int + 10
  }

  /** One character of `scopeFilterPath`. */
  function Escape(c: char): string {
    if c as int < 128 && (IsSpace(c) || c in META) then ['\\', 'x', HexDigit(c as int / 16), HexDigit(c as int % 16)]
    else if IsSpace(c) then ['[', c, ']']
    else [c]
  }

  function EscapeAll(text: string): string {
    if text == "" then "" else Escape(text[0]) + EscapeAll(text[1..])
  }

  /** `scopeFilterPath`. */
  function ScopePattern(relative: string): string {
    EscapeAll(StandardPath(relative))
  }

  lemma EscapeStep(done: string, text: string, n: nat)
    requires n < |text|
    ensures done + EscapeAll(text[n..]) == done + Escape(text[n]) + EscapeAll(text[n + 1..])
  {
    assert text[n..][1..] == text[n + 1..];
  }

  method ScopeFilterPath(relative: string) returns (pattern: string)
    ensures pattern == ScopePattern(relative)
  {
    var text := StandardLocalPath(relative);
    pattern := "";
    assert text[0..] == text;
    assert pattern + EscapeAll(text) == EscapeAll(text);
    for n := 0 to |text|
      invariant EscapeAll(text) == pattern + EscapeAll(text[n..])
    {
      hide EscapeAll;
      EscapeStep(pattern, text, n);
      var c := text[n];
      if c as int < 128 && (IsSpace(c) || c in META) {
        pattern := pattern + ['\\', 'x', HexDigit(c as int / 16), HexDigit(c as int % 16)];
      } else if IsSpace(c) {
        pattern := pattern + ['[', c, ']'];
      } else {
        pattern := pattern + [c];
      }
    }
    assert text[|text|..] == "";
  }

  /** One character of `literalFilterPath`. */
  function Backslash(c: char): string {
    if c in META then ['\\', c] else [c]
  }

  function LiteralPattern(path: string): string {
    if path == "" then "" else Backslash(path[0]) + LiteralPattern(path[1..])
  }

  lemma LiteralStep(done: string, path: string, n: nat)
    requires n < |path|
    ensures done + LiteralPattern(path[n..]) == done + Backslash(path[n]) + LiteralPattern(path[n + 1..])
  {
    assert path[n..][1..] == path[n + 1..];
  }

  method LiteralFilterPath(path: string) returns (pattern: string)
    ensures pattern == LiteralPattern(path)
  {
    pattern := "";
    assert path[0..] == path;
    assert pattern + LiteralPattern(path) == LiteralPattern(path);
    for n := 0 to |path|
      invariant LiteralPattern(path) == pattern + LiteralPattern(path[n..])
    {
      hide LiteralPattern;
      LiteralStep(pattern, path, n);
      ghost var before := pattern;
      if path[n] in META { pattern := pattern + ['\\']; }
      pattern := pattern + [path[n]];
      assert pattern == before + Backslash(path[n]);
    }
    assert path[|path|..] == "";
  }

  // ---------------------------------------------------------------- reading

  function Read(text: string): Option<seq<Token>>
    decreases |text|
  {
    if text == "" then Some([])
    else if text[0] == '\\' then
      if |text| >= 4 && text[1] == 'x' && IsHex(text[2]) && IsHex(text[3]) then
        Then(Lit((HexValue(text[2]) * 16 + HexValue(text[3])) as char), Read(text[4..]))
      else if |text| >= 2 && text[1] != 'x' then Then(Lit(text[1]), Read(text[2..]))
      else None
    else if text[0] == '[' then
      if |text| >= 3 && text[2] == ']' && text[1] !in "\\^!]" then Then(Lit(text[1]), Read(text[3..])) else None
    else if text[0] == '*' then
      if |text| >= 2 && text[1] == '*' then Then(Deep, Read(text[2..])) else Then(Segment, Read(text[1..]))
    else if text[0] in META then None
    else Then(Lit(text[0]), Read(text[1..]))
  }

  function Then(token: Token, rest: Option<seq<Token>>): Option<seq<Token>> {
    if rest.Some? then Some([token] + rest.value) else None
  }

  function Lits(text: string): (t: seq<Token>)
    ensures |t| == |text|
  {
    if text == "" then [] else [Lit(text[0])] + Lits(text[1..])
  }

  function After(tokens: seq<Token>, rest: Option<seq<Token>>): Option<seq<Token>> {
    if rest.Some? then Some(tokens + rest.value) else None
  }

  lemma ReadEscape(c: char, rest: string)
    ensures Read(Escape(c) + rest) == Then(Lit(c), Read(rest))
  {
    var text := Escape(c) + rest;
    if c as int < 128 && (IsSpace(c) || c in META) {
      assert text[4..] == rest;
      assert text[0] == '\\' && text[1] == 'x';
      assert HexValue(text[2]) * 16 + HexValue(text[3]) == c as int;
    } else if IsSpace(c) {
      assert text[3..] == rest;
      assert text[1] == c && text[2] == ']';
    } else {
      assert text[1..] == rest;
    }
  }

  /** The pattern of a scope reads back as exactly the encoded path, whatever follows. */
  lemma {:induction false} ReadEscapeAll(text: string, rest: string)
    ensures Read(EscapeAll(text) + rest) == After(Lits(text), Read(rest))
  {
    if text == "" {
      assert EscapeAll(text) + rest == rest;
      if Read(rest).Some? { assert Lits(text) + Read(rest).value == Read(rest).value; }
    } else {
      assert EscapeAll(text) + rest == Escape(text[0]) + (EscapeAll(text[1..]) + rest);
      ReadEscape(text[0], EscapeAll(text[1..]) + rest);
      ReadEscapeAll(text[1..], rest);
      if Read(rest).Some? {
        assert [Lit(text[0])] + (Lits(text[1..]) + Read(rest).value) == Lits(text) + Read(rest).value;
      }
    }
  }

  lemma {:induction false} LitsInjective(a: string, b: string)
    requires Lits(a) == Lits(b)
    ensures a == b
  {
    if a != "" {
      assert Lits(a)[0] == Lits(b)[0] && Lits(a)[1..] == Lits(a[1..]) && Lits(b)[1..] == Lits(b[1..]);
      LitsInjective(a[1..], b[1..]);
      assert a == [a[0]] + a[1..] == [b[0]] + b[1..] == b;
    }
  }

  /** Round trip, and unique decoding: a scope pattern determines the encoded path. */
  lemma ScopePatternRoundTrip(a: string, b: string)
    ensures Read(ScopePattern(a)) == Some(Lits(StandardPath(a)))
    ensures ScopePattern(a) == ScopePattern(b) ==> StandardPath(a) == StandardPath(b)
  {
    ReadWhole(StandardPath(a));
    ReadWhole(StandardPath(b));
    if ScopePattern(a) == ScopePattern(b) { LitsInjective(StandardPath(a), StandardPath(b)); }
  }

  lemma ReadWhole(text: string)
    ensures Read(EscapeAll(text)) == Some(Lits(text))
  {
    ReadEscapeAll(text, "");
    assert EscapeAll(text) + "" == EscapeAll(text);
    assert Lits(text) + [] == Lits(text);
  }

  /** The wildcards that are appended to literal patterns. */
  lemma ReadWildcards()
    ensures Read("*") == Some([Segment]) && Read("**") == Some([Deep]) && Read("/" + "**") == Some([Lit(SLASH), Deep])
  {
    assert Read("") == Some([]) && "*"[1..] == "" && "**"[2..] == "";
    assert [Segment] + [] == [Segment] && [Deep] + [] == [Deep];
    var subtree := "/" + "**";
    assert subtree[1..] == "**";
    assert [Lit(SLASH)] + [Deep] == [Lit(SLASH), Deep];
  }

  /** Unescaping inverts `literalFilterPath`, whatever follows. */
  lemma {:induction false} ReadLiteral(path: string, rest: string)
    ensures Read(LiteralPattern(path) + rest) == After(Lits(path), Read(rest))
  {
    if path == "" {
      assert LiteralPattern(path) + rest == rest;
      if Read(rest).Some? { assert Lits(path) + Read(rest).value == Read(rest).value; }
    } else {
      var tail := LiteralPattern(path[1..]) + rest;
      assert LiteralPattern(path) + rest == Backslash(path[0]) + tail;
      if path[0] in META {
        assert (Backslash(path[0]) + tail)[2..] == tail;
      } else {
        assert (Backslash(path[0]) + tail)[1..] == tail;
      }
      assert Read(LiteralPattern(path) + rest) == After([Lit(path[0])], Read(tail));
      hide Read, Backslash, LiteralPattern;
      ReadLiteral(path[1..], rest);
      if Read(rest).Some? {
        assert [Lit(path[0])] + (Lits(path[1..]) + Read(rest).value) == Lits(path) + Read(rest).value;
      }
    }
  }

  // ---------------------------------------------------------------- no rule can be broken out of

  predicate OneLine(text: string) {
    '\n' !in text && '\r' !in text && ' ' !in text && '\t' !in text
  }

  /** Every whitespace character stands between brackets, so none begins or ends a pattern. */
  lemma {:induction false} EscapeIsOneLine(text: string)
    ensures OneLine(EscapeAll(text))
    ensures text != "" ==> EscapeAll(text) != "" && !IsSpace(EscapeAll(text)[0]) && !IsSpace(EscapeAll(text)[|EscapeAll(text)| - 1])
  {
    if text != "" {
      EscapeIsOneLine(text[1..]);
      HexIsPlain(text[0]);
      var head, tail := Escape(text[0]), EscapeAll(text[1..]);
      assert EscapeAll(text) == head + tail;
      assert !IsSpace(head[0]) && !IsSpace(head[|head| - 1]);
    }
  }

  lemma HexIsPlain(c: char)
    ensures OneLine(Escape(c)) && |Escape(c)| > 0
    ensures !IsSpace(Escape(c)[0]) && !IsSpace(Escape(c)[|Escape(c)| - 1])
  {
  }

  // ---------------------------------------------------------------- matching

  predicate Match(tokens: seq<Token>, s: string)
    decreases |s|, |tokens|
  {
    if tokens == [] then s == ""
    else
      match tokens[0]
      case Lit(c) => s != "" && s[0] == c && Match(tokens[1..], s[1..])
      case Segment => Match(tokens[1..], s) || (s != "" && s[0] != SLASH && Match(tokens, s[1..]))
      case Deep => Match(tokens[1..], s) || (s != "" && Match(tokens, s[1..]))
  }

  lemma PrefixStep(text: string, s: string)
    requires text != "" && s != ""
    ensures text <= s <==> s[0] == text[0] && text[1..] <= s[1..]
    ensures text <= s ==> s[|text|..] == s[1..][|text[1..]|..]
  {
    assert text == [text[0]] + text[1..] && s == [s[0]] + s[1..];
  }

  lemma {:induction false} MatchLits(text: string, tokens: seq<Token>, s: string)
    ensures Match(Lits(text) + tokens, s) <==> text <= s && Match(tokens, s[|text|..])
  {
    if text == "" {
      assert Lits(text) + tokens == tokens && s[0..] == s;
    } else {
      var whole := Lits(text) + tokens;
      assert whole[0] == Lit(text[0]) && whole[1..] == Lits(text[1..]) + tokens;
      if s != "" {
        MatchLits(text[1..], tokens, s[1..]);
        PrefixStep(text, s);
      }
    }
  }

  lemma {:induction false} DeepMatchesAll(s: string)
    ensures Match([Deep], s)
  {
    assert [Deep][1..] == [];
    if s != "" { DeepMatchesAll(s[1..]); }
  }

  lemma {:induction false} SegmentMatches(s: string)
    ensures Match([Segment], s) <==> SLASH !in s
  {
    assert [Segment][1..] == [];
    if s != "" {
      SegmentMatches(s[1..]);
      assert s == [s[0]] + s[1..];
    }
  }

  /** A literal pattern matches its own text only. */
  lemma LitsMatchExactly(text: string, s: string)
    ensures Match(Lits(text), s) <==> s == text
  {
    MatchLits(text, [], s);
    assert Lits(text) + [] == Lits(text);
    if text <= s && s[|text|..] == "" { assert s == text + s[|text|..]; }
  }

  /** With a slash and a deep wildcard behind it, a literal pattern matches everything below, and only that. */
  lemma SubtreeMatches(text: string, s: string)
    ensures Match(Lits(text) + [Lit(SLASH), Deep], s) <==> Above(text, s)
  {
    var rest := [Lit(SLASH), Deep];
    MatchLits(text, rest, s);
    if text <= s {
      var tail := s[|text|..];
      assert rest[1..] == [Deep];
      if tail != "" { DeepMatchesAll(tail[1..]); }
      assert s == text + tail;
      assert Match(rest, tail) <==> tail != "" && tail[0] == SLASH;
    }
  }
}
