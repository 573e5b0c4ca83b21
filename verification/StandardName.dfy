/** `standardLocalPath` of src/payload.go: from physical file names to the Standard-encoded names
    that rclone filters see, and the decoder that undoes it. */
module StandardName {
  import opened Paths

  const QUOTE: char := '\U{201B}'
  const NUL_PICTURE: char := '\U{2400}'
  const DEL_PICTURE: char := '\U{2421}'
  const FULL_SLASH: char := '\U{FF0F}'
  const FULL_DOT: char := '\U{FF0E}'

  /** The dot names that the local and the Standard encoding share. */
  const DOT_NAMES: set<string> :=
    {[FULL_DOT], [FULL_DOT, FULL_DOT], [QUOTE, FULL_DOT], [QUOTE, FULL_DOT, QUOTE, FULL_DOT]}

  predicate IsControl(c: char) {
    0 < c as int < 32 || c as int == 127
  }

  /** A control picture that stands for a control character when it is not quoted. */
  predicate IsPicture(c: char) {
    0x2401 <= c as int <= 0x241F || c == DEL_PICTURE
  }

  function Picture(c: char): (p: char)
    requires IsControl(c)
    ensures IsPicture(p) && Control(p) == c
  {
    if c as int == 127 then DEL_PICTURE else (0x2400 + c as int) as char
  }

  function Control(p: char): char
    requires IsPicture(p)
  {
    if p == DEL_PICTURE then 127 as char else (p as int - 0x2400) as char
  }

  /** NUL and slash have the same quoting in both encodings, so quotes before their pictures are
      left as they are. */
  predicate SharesQuotes(c: char) {
    c == NUL_PICTURE || c == FULL_SLASH
  }

  function Quotes(n: nat): (s: string)
    ensures |s| == n && forall i :: 0 <= i < n ==> s[i] == QUOTE
  {
    if n == 0 then "" else [QUOTE] + Quotes(n - 1)
  }

  function Even(n: nat): nat {
    n + n % 2
  }

  function Run(quotes: nat, c: char): string {
    Quotes(if SharesQuotes(c) then quotes else Even(quotes))
  }

  function Symbol(c: char): string {
    if IsControl(c) then [Picture(c)]
    else if IsPicture(c) then [QUOTE, c]
    else [c]
  }

  /** The encoding of `rest` when `quotes` quotes have just been read. */
  function EncodeFrom(quotes: nat, rest: string): string
    decreases rest
  {
    if rest == "" then Quotes(Even(quotes))
    else if rest[0] == QUOTE then EncodeFrom(quotes + 1, rest[1..])
    else Run(quotes, rest[0]) + Symbol(rest[0]) + EncodeFrom(0, rest[1..])
  }

  function EncodeName(name: string): string {
    if name in DOT_NAMES then name else EncodeFrom(0, name)
  }

  /** Reading an encoded name: a quote before a picture makes it literal, an unquoted picture is
      the control character. */
  function DecodeFrom(quotes: nat, rest: string): string
    decreases rest
  {
    if rest == "" then Quotes(quotes)
    else if rest[0] == QUOTE then DecodeFrom(quotes + 1, rest[1..])
    else if IsPicture(rest[0]) then
      (if quotes % 2 == 1 then Quotes(quotes - 1) + [rest[0]] else Quotes(quotes) + [Control(rest[0])]) +
      DecodeFrom(0, rest[1..])
    else Quotes(quotes) + [rest[0]] + DecodeFrom(0, rest[1..])
  }

  function Decode(encoded: string): string {
    DecodeFrom(0, encoded)
  }

  /** What the encoding keeps of a name: everything, but odd runs of quotes become even, except
      before the pictures of NUL and slash. */
  function RoundFrom(quotes: nat, rest: string): string
    decreases rest
  {
    if rest == "" then Quotes(Even(quotes))
    else if rest[0] == QUOTE then RoundFrom(quotes + 1, rest[1..])
    else Run(quotes, rest[0]) + [rest[0]] + RoundFrom(0, rest[1..])
  }

  function Rounded(name: string): string {
    if name in DOT_NAMES then name else RoundFrom(0, name)
  }

  // ---------------------------------------------------------------- the loop of the source

  method EncodeOne(name: string) returns (encoded: string)
    ensures encoded == EncodeName(name)
  {
    if name in DOT_NAMES { return name; }
    encoded := "";
    var quotes: nat := 0;
    for n := 0 to |name|
      invariant EncodeFrom(0, name) == encoded + EncodeFrom(quotes, name[n..])
    {
      var c := name[n];
      assert name[n..][0] == c && name[n..][1..] == name[n + 1..];
      if c == QUOTE {
        quotes := quotes + 1;
        continue;
      }
      ghost var run, rest := Run(quotes, c), EncodeFrom(0, name[n + 1..]);
      assert encoded + (run + Symbol(c) + rest) == encoded + run + Symbol(c) + rest;
      if !SharesQuotes(c) { quotes := quotes + quotes % 2; }
      encoded := encoded + Quotes(quotes);
      quotes := 0;
      if IsControl(c) {
        encoded := encoded + [Picture(c)];
      } else if IsPicture(c) {
        encoded := encoded + [QUOTE, c];
      } else {
        encoded := encoded + [c];
      }
    }
    assert name[|name|..] == "";
    encoded := encoded + Quotes(quotes + quotes % 2);
  }

  // ---------------------------------------------------------------- the decoder undoes the encoder

  lemma {:induction false} DecodeQuotes(quotes: nat, m: nat, s: string)
    ensures DecodeFrom(quotes, Quotes(m) + s) == DecodeFrom(quotes + m, s)
    decreases m
  {
    if m == 0 {
      assert Quotes(0) + s == s;
    } else {
      assert (Quotes(m) + s)[1..] == Quotes(m - 1) + s;
      DecodeQuotes(quotes + 1, m - 1, s);
    }
  }

  /** A quoted picture reads as itself, an unquoted one as its control character. */
  lemma DecodePicture(quotes: nat, p: char, s: string)
    requires IsPicture(p)
    ensures quotes % 2 == 1 ==> DecodeFrom(quotes, [p] + s) == Quotes(quotes - 1) + [p] + DecodeFrom(0, s)
    ensures quotes % 2 == 0 ==> DecodeFrom(quotes, [p] + s) == Quotes(quotes) + [Control(p)] + DecodeFrom(0, s)
  {
    hide Quotes;
    assert ([p] + s)[0] == p && ([p] + s)[1..] == s;
  }

  /** Decoding one encoded character after an even, or a shared, run of quotes. */
  lemma DecodeSymbol(quotes: nat, c: char, s: string)
    requires c != QUOTE && (quotes % 2 == 0 || SharesQuotes(c))
    ensures DecodeFrom(quotes, Symbol(c) + s) == Quotes(quotes) + [c] + DecodeFrom(0, s)
  {
    hide Quotes, DecodeFrom;
    if IsPicture(c) {
      DecodeQuotes(quotes, 1, [c] + s);
      QuoteOne(c, s);
      DecodePicture(quotes + 1, c, s);
    } else if IsControl(c) {
      DecodePicture(quotes, Picture(c), s);
    } else {
      DecodePlain(quotes, c, s);
    }
  }

  lemma QuoteOne(c: char, s: string)
    ensures Quotes(1) + ([c] + s) == [QUOTE, c] + s
  {
    assert Quotes(1) == [QUOTE];
  }

  lemma DecodePlain(quotes: nat, c: char, s: string)
    requires c != QUOTE && !IsPicture(c)
    ensures DecodeFrom(quotes, [c] + s) == Quotes(quotes) + [c] + DecodeFrom(0, s)
  {
    hide Quotes;
    assert ([c] + s)[0] == c && ([c] + s)[1..] == s;
  }

  lemma {:induction false} DecodeEncodeFrom(quotes: nat, rest: string)
    ensures DecodeFrom(0, EncodeFrom(quotes, rest)) == RoundFrom(quotes, rest)
    decreases rest
  {
    if rest == "" {
      assert Quotes(Even(quotes)) + "" == Quotes(Even(quotes));
      DecodeQuotes(0, Even(quotes), "");
    } else if rest[0] == QUOTE {
      DecodeEncodeFrom(quotes + 1, rest[1..]);
    } else {
      var c, tail := rest[0], EncodeFrom(0, rest[1..]);
      var kept := if SharesQuotes(c) then quotes else Even(quotes);
      assert Run(quotes, c) + Symbol(c) + tail == Quotes(kept) + (Symbol(c) + tail);
      DecodeQuotes(0, kept, Symbol(c) + tail);
      DecodeSymbol(kept, c, tail);
      DecodeEncodeFrom(0, rest[1..]);
    }
  }

  lemma DecodeDotName(name: string)
    requires name in DOT_NAMES
    ensures Decode(name) == name
  {
    var one, two := [QUOTE, FULL_DOT], [QUOTE, FULL_DOT, QUOTE, FULL_DOT];
    assert Quotes(0) == "" && Quotes(1) == [QUOTE];
    assert [FULL_DOT][1..] == "" && [FULL_DOT, FULL_DOT][1..] == [FULL_DOT];
    assert one[1..] == [FULL_DOT];
    assert two[1..] == [FULL_DOT] + one && ([FULL_DOT] + one)[1..] == one;
    assert DecodeFrom(0, [FULL_DOT]) == [FULL_DOT];
    assert DecodeFrom(1, [FULL_DOT]) == one;
    assert DecodeFrom(0, one) == one;
    assert DecodeFrom(1, [FULL_DOT] + one) == two;
  }

  /** Round trip: decoding gives back the name, up to rounding. */
  lemma DecodeEncode(name: string)
    ensures Decode(EncodeName(name)) == Rounded(name)
  {
    if name in DOT_NAMES { DecodeDotName(name); } else { DecodeEncodeFrom(0, name); }
  }

  // ---------------------------------------------------------------- control characters

  predicate HasControl(text: string) {
    exists c :: c in text && (1 <= c as int <= 31 || c as int == 127)
  }

  lemma {:induction false} EncodeFromHidesControls(quotes: nat, rest: string)
    ensures !HasControl(EncodeFrom(quotes, rest))
    decreases rest
  {
    if rest != "" { EncodeFromHidesControls(if rest[0] == QUOTE then quotes + 1 else 0, rest[1..]); }
  }

  /** An encoded name has no control characters; each stands as its picture. */
  lemma EncodeHidesControls(name: string)
    ensures !HasControl(EncodeName(name))
  {
    if name !in DOT_NAMES { EncodeFromHidesControls(0, name); }
  }

  lemma ControlIsPictured(c: char)
    requires 1 <= c as int <= 31 || c as int == 127
    ensures EncodeName([c]) == [(if c as int == 127 then 0x2421 else 0x2400 + c as int) as char]
  {
    assert Quotes(0) == "" && [c][1..] == "";
    assert EncodeFrom(0, [c]) == "" + Symbol(c) + EncodeFrom(0, "");
  }

  // ---------------------------------------------------------------- exactly which names collide

  lemma {:induction false} RoundQuotes(quotes: nat, m: nat, s: string)
    ensures RoundFrom(quotes, Quotes(m) + s) == RoundFrom(quotes + m, s)
    ensures EncodeFrom(quotes, Quotes(m) + s) == EncodeFrom(quotes + m, s)
    decreases m
  {
    if m == 0 {
      assert Quotes(0) + s == s;
    } else {
      assert (Quotes(m) + s)[1..] == Quotes(m - 1) + s;
      RoundQuotes(quotes + 1, m - 1, s);
    }
  }

  lemma EncodeRoundRun(quotes: nat, rest: string)
    requires rest != "" && rest[0] != QUOTE
    requires EncodeFrom(0, RoundFrom(0, rest[1..])) == EncodeFrom(0, rest[1..])
    requires RoundFrom(0, RoundFrom(0, rest[1..])) == RoundFrom(0, rest[1..])
    ensures EncodeFrom(0, RoundFrom(quotes, rest)) == EncodeFrom(quotes, rest)
    ensures RoundFrom(0, RoundFrom(quotes, rest)) == RoundFrom(quotes, rest)
  {
    hide Quotes;
    var c, tail := rest[0], RoundFrom(0, rest[1..]);
    var kept := if SharesQuotes(c) then quotes else Even(quotes);
    assert Run(quotes, c) + [c] + tail == Quotes(kept) + ([c] + tail);
    RoundQuotes(0, kept, [c] + tail);
    assert ([c] + tail)[0] == c && ([c] + tail)[1..] == tail;
  }

  lemma EncodeRoundEnd(quotes: nat)
    ensures EncodeFrom(0, RoundFrom(quotes, "")) == EncodeFrom(quotes, "")
    ensures RoundFrom(0, RoundFrom(quotes, "")) == RoundFrom(quotes, "")
  {
    assert Quotes(Even(quotes)) + "" == Quotes(Even(quotes));
    RoundQuotes(0, Even(quotes), "");
  }

  /** Rounding first changes neither the encoding nor a second rounding. */
  lemma {:induction false} EncodeRound(quotes: nat, rest: string)
    ensures EncodeFrom(0, RoundFrom(quotes, rest)) == EncodeFrom(quotes, rest)
    ensures RoundFrom(0, RoundFrom(quotes, rest)) == RoundFrom(quotes, rest)
    decreases rest
  {
    hide Quotes;
    if rest == "" {
      EncodeRoundEnd(quotes);
    } else if rest[0] == QUOTE {
      EncodeRound(quotes + 1, rest[1..]);
    } else {
      EncodeRound(0, rest[1..]);
      EncodeRoundRun(quotes, rest);
    }
  }

  /** The single quote before a dot is doubled. */
  lemma QuotedDotRounds(name: string)
    requires |name| > 1 && name[0] == QUOTE && name[1] == FULL_DOT
    ensures RoundFrom(0, name) != name
  {
    assert Quotes(2) == [QUOTE, QUOTE] && name[1..][0] == FULL_DOT;
    assert RoundFrom(0, name) == RoundFrom(1, name[1..]);
    assert RoundFrom(0, name)[1] == QUOTE;
  }

  /** A dot name that rounding leaves alone has no quotes, and is encoded as itself. */
  lemma RoundedDotName(name: string)
    requires name in DOT_NAMES
    ensures RoundFrom(0, name) == name ==> EncodeFrom(0, name) == name
  {
    if name[0] == QUOTE {
      QuotedDotRounds(name);
    } else {
      assert Quotes(0) == "";
      assert [FULL_DOT][1..] == "" && [FULL_DOT, FULL_DOT][1..] == [FULL_DOT];
    }
  }

  /** Two names have one encoding exactly when their rounded forms agree. */
  lemma CollideIffRounded(a: string, b: string)
    ensures EncodeName(a) == EncodeName(b) <==> Rounded(a) == Rounded(b)
  {
    DecodeEncode(a);
    DecodeEncode(b);
    if Rounded(a) == Rounded(b) {
      EncodeRound(0, a);
      EncodeRound(0, b);
      if a in DOT_NAMES && b !in DOT_NAMES { RoundedDotName(a); }
      if b in DOT_NAMES && a !in DOT_NAMES { RoundedDotName(b); }
    }
  }

  /** Two such names: one quote and two quotes before a letter. */
  lemma TwoNamesCollide()
    ensures EncodeName([QUOTE, 'a']) == EncodeName([QUOTE, QUOTE, 'a'])
  {
    assert [QUOTE, 'a'][1..] == ['a'] && [QUOTE, QUOTE, 'a'][1..] == [QUOTE, 'a'] && Even(1) == Even(2);
    assert EncodeFrom(0, [QUOTE, 'a']) == EncodeFrom(1, ['a']) && EncodeFrom(0, [QUOTE, QUOTE, 'a']) == EncodeFrom(2, ['a']);
    assert ['a'][1..] == "" && Run(1, 'a') == Run(2, 'a');
  }

  lemma {:induction false} RoundQuoteFree(rest: string)
    requires QUOTE !in rest
    ensures RoundFrom(0, rest) == rest
  {
    if rest != "" {
      assert rest == [rest[0]] + rest[1..];
      RoundQuoteFree(rest[1..]);
      assert Run(0, rest[0]) == "";
    }
  }

  /** On names without the quote character the encoding is injective. */
  lemma QuoteFreeInjective(a: string, b: string)
    requires QUOTE !in a && QUOTE !in b && EncodeName(a) == EncodeName(b)
    ensures a == b
  {
    CollideIffRounded(a, b);
    if a !in DOT_NAMES { RoundQuoteFree(a); }
    if b !in DOT_NAMES { RoundQuoteFree(b); }
  }

  // ---------------------------------------------------------------- whole paths

  function EncodeParts(parts: seq<string>): (r: seq<string>)
    ensures |r| == |parts| && forall i :: 0 <= i < |parts| ==> r[i] == EncodeName(parts[i])
  {
    if parts == [] then [] else [EncodeName(parts[0])] + EncodeParts(parts[1..])
  }

  function StandardPath(relative: string): string {
    Join(EncodeParts(Split(relative)))
  }

  method StandardLocalPath(relative: string) returns (encoded: string)
    ensures encoded == StandardPath(relative)
  {
    var parts := Split(relative);
    var done: seq<string> := [];
    for n := 0 to |parts|
      invariant |done| == n && forall i :: 0 <= i < n ==> done[i] == EncodeName(parts[i])
    {
      var one := EncodeOne(parts[n]);
      done := done + [one];
    }
    assert done == EncodeParts(parts);
    return Join(done);
  }

  lemma {:induction false} EncodeFromNoSlash(quotes: nat, rest: string)
    requires SLASH !in rest
    ensures SLASH !in EncodeFrom(quotes, rest)
    decreases rest
  {
    if rest != "" {
      EncodeFromNoSlash(if rest[0] == QUOTE then quotes + 1 else 0, rest[1..]);
    }
  }

  /** An encoded path has the encoded names of the path, in place. */
  lemma SplitStandard(relative: string)
    ensures Split(StandardPath(relative)) == EncodeParts(Split(relative))
  {
    SplitHasNoSlash(relative);
    var parts := EncodeParts(Split(relative));
    forall name | name in parts ensures SLASH !in name {
      var i :| 0 <= i < |parts| && parts[i] == name;
      if Split(relative)[i] !in DOT_NAMES { EncodeFromNoSlash(0, Split(relative)[i]); }
    }
    SplitJoin(parts);
  }

  /** Two paths have one encoding exactly when they agree name by name up to rounding. */
  lemma PathsCollide(a: string, b: string)
    ensures StandardPath(a) == StandardPath(b) <==>
            |Split(a)| == |Split(b)| &&
            forall i :: 0 <= i < |Split(a)| ==> Rounded(Split(a)[i]) == Rounded(Split(b)[i])
  {
    SplitStandard(a);
    SplitStandard(b);
    var x, y := EncodeParts(Split(a)), EncodeParts(Split(b));
    if |x| == |y| {
      forall i | 0 <= i < |x| ensures x[i] == y[i] <==> Rounded(Split(a)[i]) == Rounded(Split(b)[i]) {
        CollideIffRounded(Split(a)[i], Split(b)[i]);
      }
      if forall i :: 0 <= i < |x| ==> x[i] == y[i] { assert x == y; }
    }
  }

  predicate QuoteFree(p: string) {
    QUOTE !in p
  }

  lemma {:induction false} SplitQuoteFree(p: string)
    requires QuoteFree(p)
    ensures forall name :: name in Split(p) ==> QUOTE !in name
    decreases |p|
  {
    if p != "" { SplitQuoteFree(p[1..]); }
  }

  /** For quote-free paths, encoding keeps and reflects what lies below what. */
  lemma StandardCovers(a: string, p: string)
    requires QuoteFree(a) && QuoteFree(p)
    ensures Covers(StandardPath(a), StandardPath(p)) <==> Covers(a, p)
    ensures StandardPath(a) == StandardPath(p) <==> a == p
    ensures Above(StandardPath(a), StandardPath(p)) <==> Above(a, p)
  {
    SplitStandard(a);
    SplitStandard(p);
    AboveParts(a, p);
    AboveParts(StandardPath(a), StandardPath(p));
    var x, y := Split(a), Split(p);
    SplitQuoteFree(a);
    SplitQuoteFree(p);
    forall i | 0 <= i < |x| && i < |y| ensures EncodeName(x[i]) == EncodeName(y[i]) <==> x[i] == y[i] {
      if EncodeName(x[i]) == EncodeName(y[i]) { QuoteFreeInjective(x[i], y[i]); }
    }
    SamePartsSamePath(a, p);
  }

  lemma SamePartsSamePath(a: string, p: string)
    ensures Split(a) == Split(p) <==> a == p
  {
    JoinSplit(a);
    JoinSplit(p);
  }

  /** Lying below is a proper prefix of names. */
  lemma AboveParts(a: string, p: string)
    ensures Above(a, p) <==> Split(a) < Split(p)
  {
    if Above(a, p) {
      assert p == a + [SLASH] + p[|a| + 1..];
      SplitConcat(a, p[|a| + 1..]);
    }
    if Split(a) < Split(p) {
      JoinSplit(a);
      JoinSplit(p);
      JoinPrefix(Split(a), Split(p));
    }
  }

  lemma {:induction false} JoinPrefix(x: seq<string>, y: seq<string>)
    requires |x| >= 1 && x < y
    ensures Above(Join(x), Join(y))
  {
    if |x| == 1 {
      assert Join(y) == x[0] + [SLASH] + Join(y[1..]);
    } else {
      JoinPrefix(x[1..], y[1..]);
      assert Join(y) == x[0] + [SLASH] + Join(y[1..]);
    }
  }

  /** Encoding never loses that one path covers another, quotes or not. */
  lemma StandardKeepsCover(a: string, p: string)
    requires Covers(a, p)
    ensures Covers(StandardPath(a), StandardPath(p))
  {
    if a != p {
      SplitStandard(a);
      SplitStandard(p);
      AboveParts(a, p);
      AboveParts(StandardPath(a), StandardPath(p));
    }
  }
}
